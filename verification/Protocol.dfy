/** One work-stealing run as a state machine (internal/engine/steal.go, internal/engine/segment.go).

    Each action is one atomic step of one goroutine. Workers stream their slots without a lock; the mutex of the
    coordinator is the variable `mu`, which also carries the local variables of the thief that holds it. Slot i of
    the live plan is entry i of the parallel sequences, so the number of activated slots is their length.

    `wrote`, `undos`, `frees`, `iters`, `settled`, `owner`, `handed` and `calls` are history: no action's guard and
    no other field depends on them. */
module Protocol {
  import opened Tiling

  datatype Config = Config(
    remote: seq<byte>,  // the bytes of the remote file
    cover: int,         // how many leading bytes the initial layout covers
    initial: nat,       // slots before any steal
    max: nat,           // slot ceiling
    floor: int,         // smallest piece a split may leave
    margin: int,        // one transfer buffer
    retries: nat,       // MaxRetries
    workers: nat)       // pool size
  {
    predicate Valid() {
      && 1 <= initial <= max && 1 <= workers
      && 1 <= margin && floor >= 2 * margin + 1
      && 0 <= cover <= |remote|
    }
  }

  /** The thief's critical section. Between Shrink and Commit/Undo the donor's End is tentative. */
  datatype Mutex =
    | Free
    | Scanning(who: nat, excluded: set<nat>, i: nat, best: int, from: int, rem: int)
    | Chosen(who: nat, excluded: set<nat>, donor: nat, from: int, rem: int)
    | Shrunk(who: nat, excluded: set<nat>, donor: nat, from: int, oldEnd: int, mid: int)
    | Undoing(who: nat, excluded: set<nat>, donor: nat, oldEnd: int)

  /** How a flush came out: the whole buffer, a clip at the End it had loaded, or a failed write. */
  datatype Flush = More | Clip | IoError

  /** The program point of one worker goroutine. */
  datatype Worker =
    | Idle                                   // about to call next
    | InNext                                 // holds the mutex, looking for a donor
    | Enter(slot: nat)                       // entered runSegment
    | Attempt(slot: nat, attempt: nat)       // top of the retry loop
    | Stream(slot: nat, attempt: nat, reqEnd: int)                        // body of [frontier, reqEnd] open
    | Loaded(slot: nat, attempt: nat, reqEnd: int, len: int, end: int)    // End loaded, buffer not yet written
    | Written(slot: nat, attempt: nat, reqEnd: int, n: int, how: Flush, end: int) // written, counter not published
    | Clipped(slot: nat, attempt: nat, end: int)                          // filled up to the End it loaded
    | Exited                                 // next found nothing
    | Failed                                 // runSegment returned an error, or the run was cancelled

  datatype State = State(
    starts: seq<int>, ends: seq<int>, completed: seq<int>,
    cursor: nat, mu: Mutex, workers: seq<Worker>, file: seq<byte>,
    wrote: seq<int>, undos: seq<nat>, frees: seq<nat>, iters: seq<nat>,
    settled: set<nat>, owner: map<int, nat>, handed: seq<nat>, calls: nat)

  datatype Action =
    | NextInitial(w: nat) | NextSteal(w: nat)
    | ScanSlot | ScanDone | Shrink | Recheck | Undo | Commit
    | EnterSegment(w: nat) | Open(w: nat) | Retry(w: nat) | Eof(w: nat)
    | Load(w: nat, len: int) | WriteBytes(w: nat, n: int) | Publish(w: nat)
    | Settle(w: nat) | Abort(w: nat)

  predicate Shape(s: State) {
    |s.starts| == |s.ends| == |s.completed| == |s.wrote| == |s.undos| == |s.frees| == |s.iters|
  }

  /** First unfetched byte of slot i. */
  function Frontier(s: State, i: nat): int
    requires Shape(s) && i < |s.starts|
  {
    s.starts[i] + s.completed[i]
  }

  /** The donor's new inclusive End. */
  function SplitPoint(from: int, rem: int): int { from + rem / 2 - 1 }

  /** The thief's re-check: has the donor come within one buffer of the split? */
  predicate MustUndo(frontier: int, mid: int, margin: int) { frontier > mid - margin }

  predicate InWindow(s: State, k: nat) {
    (s.mu.Shrunk? || s.mu.Undoing?) && s.mu.donor == k
  }

  /** The Ends with a tentative shrink read as the End it would restore. */
  function Eff(ends: seq<int>, mu: Mutex): (r: seq<int>)
    ensures |r| == |ends|
  {
    if (mu.Shrunk? || mu.Undoing?) && mu.donor < |ends| then ends[mu.donor := mu.oldEnd] else ends
  }

  function Min(a: int, b: int): int { if a < b then a else b }

  function SlotOf(w: Worker): int {
    match w
    case Enter(k) => k
    case Attempt(k, _) => k
    case Stream(k, _, _) => k
    case Loaded(k, _, _, _, _) => k
    case Written(k, _, _, _, _, _) => k
    case Clipped(k, _, _) => k
    case _ => -1
  }

  /** Spending one attempt of the retry budget. */
  function Again(c: Config, k: nat, attempt: nat): Worker {
    if attempt + 1 <= c.retries then Attempt(k, attempt + 1) else Failed
  }

  function WriteAt(file: seq<byte>, pos: int, data: seq<byte>): (r: seq<byte>)
    requires 0 <= pos && pos + |data| <= |file|
    ensures |r| == |file|
    ensures forall p | 0 <= p < |file| :: r[p] == if pos <= p < pos + |data| then data[p - pos] else file[p]
  {
    file[..pos] + data + file[pos + |data|..]
  }

  /** owner with the n bytes from pos recorded as written by slot k. */
  function Paint(owner: map<int, nat>, pos: int, n: int, k: nat): (r: map<int, nat>)
    requires n >= 0
    ensures forall b :: b in r <==> b in owner || pos <= b < pos + n
    ensures forall b | b in r :: r[b] == if pos <= b < pos + n then k else owner[b]
    decreases n
  {
    if n == 0 then owner else Paint(owner, pos, n - 1, k)[pos + n - 1 := k]
  }

  /** isDone: an open-ended slot is never done. */
  predicate IsDone(s: State, k: nat)
    requires Shape(s) && k < |s.starts|
  {
    s.ends[k] >= 0 && s.completed[k] >= s.ends[k] - s.starts[k] + 1
  }

  function SetWorker(s: State, w: nat, x: Worker): State
    requires w < |s.workers|
  {
    s.(workers := s.workers[w := x])
  }

  /** Worker w exists and is streaming-related on an activated slot. */
  predicate On(s: State, w: nat) {
    w < |s.workers| && 0 <= SlotOf(s.workers[w]) < |s.starts|
  }

  /** The steps a worker takes outside next. */
  predicate WorkerActs(a: Action) {
    || a.EnterSegment? || a.Open? || a.Retry? || a.Eof? || a.Load? || a.WriteBytes? || a.Publish? || a.Settle?
    || a.Abort?
  }

  predicate Enabled(c: Config, s: State, a: Action)
    requires Shape(s)
  {
    match a
    case NextInitial(w) => w < |s.workers| && s.workers[w].Idle? && s.mu.Free? && s.cursor < c.initial
    case NextSteal(w) => w < |s.workers| && s.workers[w].Idle? && s.mu.Free? && s.cursor >= c.initial
    case ScanSlot => s.mu.Scanning? && s.mu.i < |s.starts|
    case ScanDone => s.mu.Scanning? && s.mu.i >= |s.starts| && s.mu.who < |s.workers|
    case Shrink => s.mu.Chosen? && s.mu.donor < |s.starts|
    case Recheck => s.mu.Shrunk? && s.mu.donor < |s.starts| && MustUndo(Frontier(s, s.mu.donor), s.mu.mid, c.margin)
    case Undo => s.mu.Undoing? && s.mu.donor < |s.starts|
    case Commit =>
      && s.mu.Shrunk? && s.mu.donor < |s.starts| && s.mu.who < |s.workers|
      && !MustUndo(Frontier(s, s.mu.donor), s.mu.mid, c.margin)
    case EnterSegment(w) => On(s, w) && s.workers[w].Enter?
    case Open(w) => On(s, w) && s.workers[w].Attempt?
    case Retry(w) => On(s, w) && (s.workers[w].Stream? || s.workers[w].Clipped?)
    case Eof(w) => On(s, w) && s.workers[w].Stream?
    case Load(w, len) =>
      // one buffer of the body, which is a prefix of the requested range
      && On(s, w) && s.workers[w].Stream? && 1 <= len <= c.margin
      && Frontier(s, s.workers[w].slot) + len - 1 <= s.workers[w].reqEnd
    case WriteBytes(w, n) =>
      && On(s, w) && s.workers[w].Loaded?
      && var wk := s.workers[w];
         var pos := Frontier(s, wk.slot);
         0 <= n <= Min(wk.len, wk.end - pos + 1) && 0 <= pos && pos + n <= |s.file| && pos + n <= |c.remote|
    case Publish(w) => On(s, w) && s.workers[w].Written?
    case Settle(w) => On(s, w) && s.workers[w].Clipped? && s.mu.Free?
    case Abort(w) =>
      w < |s.workers| && (s.workers[w].Idle? || s.workers[w].Attempt? || s.workers[w].Stream? || s.workers[w].Clipped?)
  }

  /** fattest's step for one slot: the counters of the other slots may move between two of these steps. */
  function DoScanSlot(s: State): State
    requires Shape(s) && s.mu.Scanning? && s.mu.i < |s.starts|
  {
    var m := s.mu;
    var f := Frontier(s, m.i);
    var r := s.ends[m.i] - f + 1;
    if m.i !in m.excluded && r > m.rem then s.(mu := m.(i := m.i + 1, best := m.i, from := f, rem := r))
    else s.(mu := m.(i := m.i + 1))
  }

  function DoCommit(s: State): State
    requires Shape(s) && s.mu.Shrunk? && s.mu.donor < |s.starts| && s.mu.who < |s.workers|
  {
    var m := s.mu;
    var k := |s.starts|;
    s.(starts := s.starts + [m.mid + 1], ends := s.ends + [m.oldEnd], completed := s.completed + [0],
       wrote := s.wrote + [0], undos := s.undos + [0], frees := s.frees + [0], iters := s.iters + [0],
       handed := s.handed + [k], mu := Free, workers := s.workers[m.who := Enter(k)])
  }

  function DoUndo(s: State): State
    requires Shape(s) && s.mu.Undoing? && s.mu.donor < |s.starts|
  {
    var m := s.mu;
    s.(ends := s.ends[m.donor := m.oldEnd], undos := s.undos[m.donor := s.undos[m.donor] + 1],
       mu := Scanning(m.who, m.excluded + {m.donor}, 0, -1, 0, 0))
  }

  /** One pass of the retry loop: the End is re-read, and an exhausted range is an error. */
  function DoOpen(s: State, w: nat): State
    requires Shape(s) && On(s, w) && s.workers[w].Attempt?
  {
    var Attempt(k, att) := s.workers[w];
    if Frontier(s, k) > s.ends[k] then SetWorker(s, w, Failed)
    else SetWorker(s.(iters := s.iters[k := s.iters[k] + 1]), w, Stream(k, att, s.ends[k]))
  }

  function DoLoad(s: State, w: nat, len: int): State
    requires Shape(s) && On(s, w) && s.workers[w].Stream?
  {
    var Stream(k, att, reqEnd) := s.workers[w];
    var end := s.ends[k];
    if end - Frontier(s, k) + 1 <= 0 then SetWorker(s, w, Clipped(k, att, end))
    else SetWorker(s, w, Loaded(k, att, reqEnd, len, end))
  }

  function DoWrite(c: Config, s: State, w: nat, n: int): State
    requires Shape(s) && Enabled(c, s, WriteBytes(w, n))
  {
    var Loaded(k, att, reqEnd, len, end) := s.workers[w];
    var pos := Frontier(s, k);
    var room := end - pos + 1;
    var how := if n < Min(len, room) then IoError else if len >= room then Clip else More;
    s.(file := WriteAt(s.file, pos, c.remote[pos..pos + n]),
       wrote := s.wrote[k := s.completed[k] + n],
       owner := Paint(s.owner, pos, n, k),
       workers := s.workers[w := Written(k, att, reqEnd, n, how, end)])
  }

  function DoPublish(c: Config, s: State, w: nat): State
    requires Shape(s) && On(s, w) && s.workers[w].Written?
  {
    var Written(k, att, reqEnd, n, how, end) := s.workers[w];
    var next := match how
      case More => Stream(k, att, reqEnd)
      case Clip => Clipped(k, att, end)
      case IoError => Again(c, k, att);
    s.(completed := s.completed[k := s.completed[k] + n], workers := s.workers[w := next])
  }

  /** settled, under the mutex: a real finish, or a steal that was undone and costs no attempt. */
  function DoSettle(s: State, w: nat): State
    requires Shape(s) && On(s, w) && s.workers[w].Clipped?
  {
    var Clipped(k, att, end) := s.workers[w];
    if s.completed[k] >= s.ends[k] - s.starts[k] + 1 then
      s.(settled := s.settled + {k}, workers := s.workers[w := Idle])
    else
      s.(frees := s.frees[k := s.frees[k] + 1], workers := s.workers[w := Attempt(k, att)])
  }

  function Apply(c: Config, s: State, a: Action): State
    requires Shape(s) && Enabled(c, s, a)
  {
    match a
    case NextInitial(w) =>
      s.(cursor := s.cursor + 1, handed := s.handed + [s.cursor], calls := s.calls + 1,
         workers := s.workers[w := Enter(s.cursor)])
    case NextSteal(w) =>
      if |s.starts| < c.max then
        s.(calls := s.calls + 1, mu := Scanning(w, {}, 0, -1, 0, 0), workers := s.workers[w := InNext])
      else
        s.(calls := s.calls + 1, workers := s.workers[w := Exited])
    case ScanSlot => DoScanSlot(s)
    case ScanDone =>
      if s.mu.best < 0 || s.mu.rem < 2 * c.floor then
        s.(mu := Free, workers := s.workers[s.mu.who := Exited])
      else
        s.(mu := Chosen(s.mu.who, s.mu.excluded, s.mu.best, s.mu.from, s.mu.rem))
    case Shrink =>
      var m := s.mu;
      var mid := SplitPoint(m.from, m.rem);
      s.(ends := s.ends[m.donor := mid], mu := Shrunk(m.who, m.excluded, m.donor, m.from, s.ends[m.donor], mid))
    case Recheck => s.(mu := Undoing(s.mu.who, s.mu.excluded, s.mu.donor, s.mu.oldEnd))
    case Undo => DoUndo(s)
    case Commit => DoCommit(s)
    case EnterSegment(w) =>
      var k := s.workers[w].slot;
      SetWorker(s, w, if IsDone(s, k) then Idle else Attempt(k, 0))
    case Open(w) => DoOpen(s, w)
    case Retry(w) => SetWorker(s, w, Again(c, s.workers[w].slot, s.workers[w].attempt))
    case Eof(w) =>
      var Stream(k, att, _) := s.workers[w];
      SetWorker(s, w, if IsDone(s, k) then Idle else Again(c, k, att))
    case Load(w, len) => DoLoad(s, w, len)
    case WriteBytes(w, n) => DoWrite(c, s, w, n)
    case Publish(w) => DoPublish(c, s, w)
    case Settle(w) => DoSettle(s, w)
    case Abort(w) => SetWorker(s, w, Failed)
  }

  /** The start of a run over an already reconciled layout. */
  function Init(c: Config, segs: seq<Segment>, file: seq<byte>): State {
    State(Starts(segs), Ends(segs), Counts(segs), 0, Free, seq(c.workers, _ => Idle), file,
          Counts(segs), seq(|segs|, _ => 0), seq(|segs|, _ => 0), seq(|segs|, _ => 0), {}, map[], [], 0)
  }

  /** Every worker goroutine has returned. */
  predicate Quiet(s: State) {
    forall w | 0 <= w < |s.workers| :: s.workers[w].Exited? || s.workers[w].Failed?
  }

  /** The durable shape rebuilt from the live plan once the workers have stopped. */
  function ActiveSegments(s: State): (r: seq<Segment>)
    requires Shape(s)
    ensures |r| == |s.starts|
    ensures forall i | 0 <= i < |r| :: r[i] == Segment(i, s.starts[i], s.ends[i], s.completed[i])
  {
    seq(|s.starts|, i requires 0 <= i < |s.starts| => Segment(i, s.starts[i], s.ends[i], s.completed[i]))
  }
}
