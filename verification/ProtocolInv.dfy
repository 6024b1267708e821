/** The inductive invariant of the work-stealing run. */
module ProtocolInv {
  import opened Tiling
  import opened Protocol

  ghost predicate Agrees(remote: seq<byte>, file: seq<byte>, lo: int, hi: int) {
    0 <= lo && hi <= |remote| && hi <= |file| && forall p | lo <= p < hi :: file[p] == remote[p]
  }

  function Exits(ws: seq<Worker>): nat {
    if |ws| == 0 then 0 else Exits(ws[..|ws| - 1]) + if ws[|ws| - 1].Exited? then 1 else 0
  }

  /** Everything the run knows about one slot. */
  datatype Row = Row(start: int, end: int, eff: int, completed: int, wrote: int,
                     undos: nat, frees: nat, iters: nat, open: bool)
  {
    function Frontier(): int { start + completed }

    /** The slot's bytes, including a flush not yet published, lie inside its committed range. */
    predicate Fits() { start + wrote <= eff + 1 }

    /** A flush that loaded an End which is not committed has an undo of that End behind it or ahead of it. */
    predicate Tentative(loaded: int) {
      loaded < eff ==> frees + 1 <= undos + (if open && end == loaded then 1 else 0)
    }
  }

  function RowOf(s: State, k: nat): Row
    requires Shape(s) && k < |s.starts|
  {
    Row(s.starts[k], s.ends[k], Eff(s.ends, s.mu)[k], s.completed[k], s.wrote[k],
        s.undos[k], s.frees[k], s.iters[k], InWindow(s, k))
  }

  /** `lone` admits a single row whose persisted counter ran past its persisted End: already full, and inert. */
  predicate RowOk(c: Config, r: Row, lone: bool, handed: bool) {
    && 0 <= r.completed <= r.wrote <= r.completed + c.margin
    && (r.Fits() || (lone && r.wrote == r.completed && r.Frontier() <= |c.remote|))
    && r.frees <= r.undos && r.iters <= c.retries + 1 + r.frees
    && (!handed ==> r.iters == 0 && r.frees == 0 && r.wrote == r.completed)
  }

  ghost predicate RowsOk(c: Config, s: State)
    requires Shape(s)
  {
    forall k | 0 <= k < |s.starts| :: RowOk(c, RowOf(s, k), |s.starts| == 1, k < |s.handed|)
  }

  /** What holds of a worker's slot at each program point. */
  predicate PcOk(c: Config, r: Row, w: Worker) {
    match w
    case Enter(_) => r.wrote == r.completed && r.iters == 0 && r.frees == 0
    case Attempt(_, att) => r.wrote == r.completed && att <= c.retries && r.iters == att + r.frees
    case Stream(_, att, reqEnd) =>
      && r.wrote == r.completed && att <= c.retries && r.iters == att + r.frees + 1
      && r.Fits() && reqEnd < |c.remote|
    case Loaded(_, att, reqEnd, len, end) =>
      && r.wrote == r.completed && att <= c.retries && r.iters == att + r.frees + 1
      && r.Fits() && reqEnd < |c.remote|
      && 1 <= len <= c.margin && r.Frontier() + len - 1 <= reqEnd && r.Frontier() <= end
      && r.Frontier() + Min(len, end - r.Frontier() + 1) - 1 <= r.eff
      && r.Tentative(end)
    case Written(_, att, reqEnd, n, how, end) =>
      && r.wrote == r.completed + n && 0 <= n <= c.margin
      && att <= c.retries && r.iters == att + r.frees + 1
      && r.Fits() && reqEnd < |c.remote|
      && (how.Clip? ==> r.Frontier() + n == end + 1) && (how.More? ==> n >= 1)
      && r.Tentative(end)
    case Clipped(_, att, end) =>
      && r.wrote == r.completed && att <= c.retries && r.iters == att + r.frees + 1
      && r.Fits() && r.Frontier() >= end + 1
      && r.Tentative(end)
    case _ => true
  }

  ghost predicate WorkerOk(c: Config, s: State, w: Worker)
    requires Shape(s)
  {
    SlotOf(w) >= 0 ==> SlotOf(w) < |s.starts| && PcOk(c, RowOf(s, SlotOf(w)), w)
  }

  ghost predicate WorkersOk(c: Config, s: State)
    requires Shape(s)
  {
    forall w | 0 <= w < |s.workers| :: WorkerOk(c, s, s.workers[w])
  }

  ghost predicate LayoutOk(c: Config, starts: seq<int>, eff: seq<int>) {
    && 1 <= c.initial <= |starts| <= c.max
    && Tiled(c.cover, starts, eff)
    && starts[0] == 0
    && (forall i | 0 <= i < |starts| :: starts[i] < |c.remote|)
    && (forall i | 1 <= i < |starts| :: starts[i] > 0)
  }

  ghost predicate ClaimsOk(remote: seq<byte>, file: seq<byte>, starts: seq<int>, wrote: seq<int>)
    requires |starts| == |wrote|
  {
    && |remote| <= |file|
    && (forall i | 0 <= i < |starts| :: Agrees(remote, file, starts[i], starts[i] + wrote[i]))
  }

  /** A byte written in this run lies in its writer's committed range, behind what its writer has written. */
  predicate OwnedBy(b: int, k: nat, starts: seq<int>, wrote: seq<int>, eff: seq<int>)
    requires |starts| == |wrote| == |eff|
  {
    k < |starts| && starts[k] <= b < starts[k] + wrote[k] && b <= eff[k]
  }

  ghost predicate OwnerOk(owner: map<int, nat>, starts: seq<int>, wrote: seq<int>, eff: seq<int>)
    requires |starts| == |wrote| == |eff|
  {
    forall b | b in owner :: OwnedBy(b, owner[b], starts, wrote, eff)
  }

  /** The workers hold distinct slots, all of them handed out. */
  predicate SlotsApart(ws: seq<Worker>, handed: nat) {
    && (forall w | 0 <= w < |ws| :: SlotOf(ws[w]) < handed)
    && (forall v, w | 0 <= v < w < |ws| :: SlotOf(ws[v]) >= 0 ==> SlotOf(ws[v]) != SlotOf(ws[w]))
  }

  predicate MutexHeld(mu: Mutex, ws: seq<Worker>) {
    && (!mu.Free? ==> mu.who < |ws|)
    && (forall w | 0 <= w < |ws| :: ws[w].InNext? <==> !mu.Free? && mu.who == w)
  }

  ghost predicate DispatchOk(c: Config, n: nat, cursor: nat, mu: Mutex, ws: seq<Worker>, handed: seq<nat>, calls: nat) {
    && |ws| == c.workers
    && cursor <= c.initial
    && (cursor < c.initial ==> n == c.initial && mu.Free?)
    && |handed| == (if cursor < c.initial then cursor else n)
    && (forall k | 0 <= k < |handed| :: handed[k] == k)
    && calls == |handed| + Exits(ws) + (if mu.Free? then 0 else 1)
    && MutexHeld(mu, ws)
    && SlotsApart(ws, |handed|)
  }

  predicate BestOk(d: nat, from: int, rem: int, settled: set<nat>, starts: seq<int>, ends: seq<int>,
                   completed: seq<int>)
    requires |starts| == |ends| == |completed|
  {
    && d < |starts| && d !in settled
    && starts[d] <= from <= starts[d] + completed[d] <= ends[d] + 1
    && rem == ends[d] - from + 1
  }

  predicate WindowOk(d: nat, oldEnd: int, settled: set<nat>, starts: seq<int>, ends: seq<int>, completed: seq<int>)
    requires |starts| == |ends| == |completed|
  {
    d < |starts| && d !in settled && starts[d] <= ends[d] < oldEnd && starts[d] + completed[d] <= oldEnd + 1
  }

  ghost predicate MuOk(c: Config, mu: Mutex, cursor: nat, settled: set<nat>,
                       starts: seq<int>, ends: seq<int>, completed: seq<int>)
    requires |starts| == |ends| == |completed|
  {
    && (!mu.Free? ==> cursor == c.initial && |starts| < c.max && forall i | i in mu.excluded :: i < |starts|)
    && match mu
       case Free => true
       case Scanning(who, excluded, i, best, from, rem) =>
         && i <= |starts| && -1 <= best < i && rem >= 0
         && (best < 0 ==> rem == 0)
         && (best >= 0 ==> rem > 0 && best !in excluded && BestOk(best, from, rem, settled, starts, ends, completed))
         && (forall j | 0 <= j < i && j !in excluded :: ends[j] - (starts[j] + completed[j]) + 1 <= rem)
       case Chosen(who, excluded, d, from, rem) =>
         d !in excluded && rem >= 2 * c.floor && BestOk(d, from, rem, settled, starts, ends, completed)
       case Shrunk(who, excluded, d, from, oldEnd, mid) =>
         && d !in excluded && WindowOk(d, oldEnd, settled, starts, ends, completed)
         && ends[d] == mid && starts[d] <= from <= starts[d] + completed[d]
         && oldEnd - from + 1 >= 2 * c.floor && mid == SplitPoint(from, oldEnd - from + 1)
       case Undoing(who, excluded, d, oldEnd) =>
         d !in excluded && WindowOk(d, oldEnd, settled, starts, ends, completed)
  }

  ghost predicate CallsOk(mu: Mutex, undos: seq<nat>, calls: nat) {
    forall k | 0 <= k < |undos| :: undos[k] + (if !mu.Free? && k !in mu.excluded then 1 else 0) <= calls
  }

  ghost predicate SettledOk(settled: set<nat>, starts: seq<int>, ends: seq<int>, completed: seq<int>)
    requires |starts| == |ends| == |completed|
  {
    forall k | k in settled :: k < |starts| && starts[k] + completed[k] >= ends[k] + 1
  }

  ghost predicate Inv(c: Config, s: State) {
    && c.Valid() && Shape(s)
    && LayoutOk(c, s.starts, Eff(s.ends, s.mu))
    && RowsOk(c, s)
    && WorkersOk(c, s)
    && ClaimsOk(c.remote, s.file, s.starts, s.wrote)
    && OwnerOk(s.owner, s.starts, s.wrote, Eff(s.ends, s.mu))
    && DispatchOk(c, |s.starts|, s.cursor, s.mu, s.workers, s.handed, s.calls)
    && MuOk(c, s.mu, s.cursor, s.settled, s.starts, s.ends, s.completed)
    && CallsOk(s.mu, s.undos, s.calls)
    && SettledOk(s.settled, s.starts, s.ends, s.completed)
  }

  /** A layout a run may start from: a tiling of the first `cover` bytes whose counters only claim fetched bytes. */
  ghost predicate Startable(c: Config, segs: seq<Segment>, file: seq<byte>) {
    && c.Valid() && c.cover >= 1 && |segs| == c.initial && |c.remote| <= |file|
    && Tiled(c.cover, Starts(segs), Ends(segs))
    && segs[0].start == 0
    && (forall i | 1 <= i < |segs| :: segs[i].start > 0)
    && (forall i | 0 <= i < |segs| ::
          && segs[i].start < |c.remote| && 0 <= segs[i].completed
          && Agrees(c.remote, file, segs[i].start, segs[i].start + segs[i].completed))
    && (|segs| > 1 ==> forall i | 0 <= i < |segs| :: segs[i].completed <= segs[i].Size())
  }

  lemma {:induction false} ExitsNone(ws: seq<Worker>)
    requires forall w | 0 <= w < |ws| :: !ws[w].Exited?
    ensures Exits(ws) == 0
  {
    if |ws| == 0 {
    } else {
      ExitsNone(ws[..|ws| - 1]);
    }
  }

  lemma {:induction false} ExitsUpdate(ws: seq<Worker>, w: nat, x: Worker)
    requires w < |ws|
    ensures Exits(ws[w := x]) == Exits(ws) - (if ws[w].Exited? then 1 else 0) + (if x.Exited? then 1 else 0)
  {
    var last := |ws| - 1;
    if w < last {
      ExitsUpdate(ws[..last], w, x);
      assert ws[w := x][..last] == ws[..last][w := x];
    } else {
      assert ws[w := x][..last] == ws[..last];
    }
  }

  lemma {:induction false} ExitsBound(ws: seq<Worker>)
    ensures Exits(ws) <= |ws|
    ensures (exists w :: 0 <= w < |ws| && !ws[w].Exited?) ==> Exits(ws) < |ws|
  {
    if |ws| == 0 {
    } else {
      ExitsBound(ws[..|ws| - 1]);
      if w :| 0 <= w < |ws| && !ws[w].Exited? {
        if w < |ws| - 1 {
          assert !ws[..|ws| - 1][w].Exited?;
        }
      }
    }
  }

  lemma InitInv(c: Config, segs: seq<Segment>, file: seq<byte>)
    requires Startable(c, segs, file)
    ensures Inv(c, Init(c, segs, file))
  {
    var s := Init(c, segs, file);
    ExitsNone(s.workers);
    forall k | 0 <= k < |s.starts| ensures RowOk(c, RowOf(s, k), |s.starts| == 1, false) {
      assert segs[k].Size() == s.ends[k] - s.starts[k] + 1;
    }
  }
}
