/** Power loss under fixed segmentation (internal/engine/checkpoint.go, internal/engine/download_run.go).

    `cache` is the part file as the process sees it, `disk` what the device holds; an fsync makes them equal and a
    power loss leaves, byte by byte, one or the other; it may also take back the store's latest commits. A part file
    that is not there has no bytes, since opening creates it. Any number of checkpointers run: the periodic tick reads
    every counter, the per-stream flush reads one, and both persist only after their own fsync succeeded. */
module Durability {
  import opened Tiling
  import opened Layout
  import opened LayoutFacts
  import opened Planner
  import P = ProtocolInv
  import W = Protocol

  /** One checkpointer goroutine between two of its atomic operations. */
  datatype Proc =
    | Resting
    | Reading(todo: seq<nat>, got: seq<(nat, int)>)     // snapshotting counters
    | Synced(left: seq<(nat, int)>)                     // fsync returned; rows still to persist

  datatype Phase =
    | Running
    | Down
    | Gated                       // the gate opened and the last fsync succeeded
    | Emptied(back: seq<byte>)    // the part file was renamed or removed; a power loss may still bring it back

  /** rows[i] is the stored counter of segment i and ever[i] all counters ever stored for it; completed[i] is the live
      one, beyond which pending[i] more bytes are written but not yet published. */
  datatype State = State(
    segs: seq<Segment>, completed: seq<int>, pending: seq<int>,
    cache: seq<byte>, disk: seq<byte>, rows: seq<int>, ever: seq<set<int>>, procs: seq<Proc>, phase: Phase,
    outs: seq<seq<byte>>)       // every file put in place of the destination, as the device has it

  datatype Event =
    | Write(i: nat, n: int)
    | Publish(i: nat)
    | Begin(p: nat, todo: seq<nat>)
    | Read(p: nat)
    | Sync(p: nat, ok: bool)
    | Persist(p: nat, stored: bool)
    | Abandon(i: nat)                                    // the worker of segment i returns without publishing
    | EndRun(synced: bool, saved: bool)                  // the terminal fsync and the wholesale save of the counters
    | Gate
    | Refuse(saved: bool)                                // closing or renaming the part file failed
    | Remove                                             // the checksum was wrong, and the part file is removed
    | Rename                                             // the part file is put in place
    | SaveFinal(saved: bool)                             // the record is saved as completed, or as failed
    | Discard                                            // a Restart removes the part file
    | Kill
    | PowerLoss(after: seq<byte>, rows: seq<int>)
    | Resume(layout: seq<Segment>)

  predicate Shape(s: State) {
    && |s.segs| == |s.completed| == |s.pending| == |s.rows| == |s.ever| && |s.cache| == |s.disk|
  }

  /** The workers and the checkpointers have stopped. */
  predicate Stopped(s: State)
    requires Shape(s)
  {
    && (forall i | 0 <= i < |s.pending| :: s.pending[i] == 0)
    && (forall p | 0 <= p < |s.procs| :: s.procs[p].Resting?)
  }

  /** The stored rows as segments. */
  function Stored(s: State): (r: seq<Segment>)
    requires Shape(s)
    ensures |r| == |s.segs| && forall i | 0 <= i < |r| :: r[i] == s.segs[i].(index := i, completed := s.rows[i])
  {
    seq(|s.segs|, i requires 0 <= i < |s.segs| => s.segs[i].(index := i, completed := s.rows[i]))
  }

  ghost predicate Enabled(remote: seq<byte>, s: State, e: Event)
    requires Shape(s)
  {
    match e
    case Write(i, n) =>
      // a body is a prefix of the requested range, so a flush never passes the segment's End
      && s.phase.Running? && i < |s.segs| && s.pending[i] == 0 && n >= 1
      && var pos := s.segs[i].start + s.completed[i];
         0 <= pos && pos + n <= s.segs[i].end + 1 && pos + n <= |s.cache| && pos + n <= |remote|
    case Publish(i) => s.phase.Running? && i < |s.segs|
    case Begin(p, todo) =>
      s.phase.Running? && p < |s.procs| && s.procs[p].Resting? && forall k | k in todo :: k < |s.segs|
    case Read(p) =>
      && s.phase.Running? && p < |s.procs| && s.procs[p].Reading?
      && s.procs[p].todo != [] && s.procs[p].todo[0] < |s.segs|
    case Sync(p, ok) => s.phase.Running? && p < |s.procs| && s.procs[p].Reading? && s.procs[p].todo == []
    case Persist(p, stored) =>
      && s.phase.Running? && p < |s.procs| && s.procs[p].Synced?
      && s.procs[p].left != [] && s.procs[p].left[0].0 < |s.segs|
    case Abandon(i) => s.phase.Running? && i < |s.segs|
    case EndRun(_, _) => s.phase.Running? && Stopped(s)
    case Gate => s.phase.Running? && Stopped(s) && GateOpen(|remote|, s.segs, s.completed)
    case Refuse(_) => s.phase.Gated?
    case Remove => s.phase.Gated?
    case Rename => s.phase.Gated?
    case SaveFinal(_) => s.phase.Emptied?
    case Discard => s.phase.Down?
    case Kill => true
    case PowerLoss(after, rows) =>
      && LeftBy(s, after) && |rows| == |s.rows|
      && (forall i | 0 <= i < |rows| :: rows[i] in s.ever[i])
    case Resume(layout) => s.phase.Down? && IsReconciled(|remote|, Stored(s), |s.cache|, layout) && |layout| == |s.segs|
  }

  /** What a power loss may leave of the part file. */
  ghost predicate LeftBy(s: State, after: seq<byte>)
    requires Shape(s)
  {
    || (s.phase.Emptied? && after == s.phase.back)
    || (|after| == |s.cache| && forall q | 0 <= q < |after| :: after[q] == s.disk[q] || after[q] == s.cache[q])
  }

  function Counted(s: State): (r: State)
    requires Shape(s)
  {
    s.(rows := s.completed, ever := seq(|s.ever|, i requires 0 <= i < |s.ever| => s.ever[i] + {s.completed[i]}))
  }

  ghost function Step(remote: seq<byte>, s: State, e: Event): State
    requires Shape(s) && Enabled(remote, s, e)
  {
    match e
    case Write(i, n) =>
      var pos := s.segs[i].start + s.completed[i];
      s.(cache := W.WriteAt(s.cache, pos, remote[pos..pos + n]), pending := s.pending[i := n])
    case Publish(i) =>
      s.(completed := s.completed[i := s.completed[i] + s.pending[i]], pending := s.pending[i := 0])
    case Begin(p, todo) => s.(procs := s.procs[p := Reading(todo, [])])
    case Read(p) =>
      var k := s.procs[p].todo[0];
      s.(procs := s.procs[p := Reading(s.procs[p].todo[1..], s.procs[p].got + [(k, s.completed[k])])])
    case Sync(p, ok) =>
      if ok then s.(disk := s.cache, procs := s.procs[p := Synced(s.procs[p].got)])
      else s.(procs := s.procs[p := Resting])
    case Persist(p, stored) =>
      var row := s.procs[p].left[0];
      var rest := if |s.procs[p].left| == 1 then Resting else Synced(s.procs[p].left[1..]);
      if stored then
        s.(rows := s.rows[row.0 := row.1], ever := s.ever[row.0 := s.ever[row.0] + {row.1}],
           procs := s.procs[p := rest])
      else
        s.(procs := s.procs[p := rest])
    case Abandon(i) => s.(pending := s.pending[i := 0])
    case EndRun(synced, saved) =>
      (if saved then Counted(s) else s).(disk := if synced then s.cache else s.disk, phase := Down)
    case Gate => s.(disk := s.cache, phase := Gated)
    case Refuse(saved) => (if saved then Counted(s) else s).(phase := Down)
    case Remove => s.(cache := [], disk := [], phase := Emptied(s.cache))
    case Rename => s.(cache := [], disk := [], phase := Emptied(s.cache), outs := s.outs + [s.disk])
    case SaveFinal(saved) => (if saved then Counted(s) else s).(phase := Down)
    case Discard => s.(cache := [], disk := [])
    case Kill => s.(procs := seq(|s.procs|, _ => Resting), pending := seq(|s.pending|, _ => 0), phase := Down)
    case PowerLoss(after, rows) =>
      s.(cache := after, disk := after, rows := rows, procs := seq(|s.procs|, _ => Resting),
         pending := seq(|s.pending|, _ => 0), phase := Down)
    case Resume(layout) =>
      s.(segs := layout, completed := Counts(layout), pending := seq(|s.pending|, _ => 0), phase := Running,
         cache := Grown(s.cache, |remote|), disk := Grown(s.disk, |remote|))
  }

  // ----- debts

  /** The counters, stored now or by a commit that a power loss may bring back, that claim bytes which a part file
      found missing did not have; until they are stored anew. */
  type Debt = set<(nat, int)>

  function Clipped(s: State): Debt
    requires Shape(s)
  {
    set i: nat, n | i < |s.segs| && n in s.ever[i] && n > 0 && s.segs[i].start + n > |s.cache| :: (i, n)
  }

  function Counters(s: State): Debt
    requires Shape(s)
  {
    set i: nat | i < |s.segs| :: (i, s.completed[i])
  }

  ghost function NextDebt(remote: seq<byte>, s: State, d: Debt, e: Event): Debt
    requires Shape(s) && Enabled(remote, s, e)
  {
    match e
    case Persist(p, stored) => if stored then d - {s.procs[p].left[0]} else d
    case EndRun(_, saved) => if saved then d - Counters(s) else d
    case Refuse(saved) => if saved then d - Counters(s) else d
    case Remove => {}
    case Rename => {}
    case Discard => {}
    case Resume(_) => d + Clipped(s)
    case _ => d
  }

  /** A debt forbids a resume that trusts such a counter. */
  predicate Pays(s: State, d: Debt, e: Event)
    requires Shape(s)
  {
    e.Resume? ==> NoneStale(s.rows, d)
  }

  predicate NoneStale(rows: seq<int>, d: Debt) {
    forall i | 0 <= i < |rows| :: (i, rows[i]) !in d
  }

  // ----- the invariant

  /** The first n bytes of a segment are the remote's, to the process and on the device. */
  ghost predicate Durable(remote: seq<byte>, cache: seq<byte>, disk: seq<byte>, seg: Segment, n: int) {
    && 0 <= n <= seg.Size()
    && P.Agrees(remote, cache, seg.start, seg.start + n)
    && P.Agrees(remote, disk, seg.start, seg.start + n)
  }

  ghost predicate LayoutOk(remote: seq<byte>, s: State) {
    && |remote| > 0 && Shape(s) && (s.cache == [] || |remote| <= |s.cache|)
    && Contiguous(|remote|, Starts(s.segs), Ends(s.segs))
    && forall i | 0 <= i < |s.segs| :: s.segs[i].index == i && s.segs[i].Size() >= 1
  }

  /** Fetched bytes, published or not, are the remote's and lie inside the segment. */
  ghost predicate Fetched(remote: seq<byte>, cache: seq<byte>, seg: Segment, completed: int, pending: int) {
    && 0 <= completed && 0 <= pending && completed + pending <= seg.Size()
    && P.Agrees(remote, cache, seg.start, seg.start + completed + pending)
  }

  ghost predicate FetchedOk(remote: seq<byte>, s: State)
    requires Shape(s)
  {
    forall i | 0 <= i < |s.segs| :: Fetched(remote, s.cache, s.segs[i], s.completed[i], s.pending[i])
  }

  ghost predicate ProcOk(remote: seq<byte>, segs: seq<Segment>, completed: seq<int>, cache: seq<byte>, disk: seq<byte>,
                         p: Proc)
    requires |segs| == |completed|
  {
    match p
    case Resting => true
    case Reading(todo, got) =>
      forall j | 0 <= j < |got| :: got[j].0 < |segs| && 0 <= got[j].1 <= completed[got[j].0]
    case Synced(left) =>
      forall j | 0 <= j < |left| :: left[j].0 < |segs| && Durable(remote, cache, disk, segs[left[j].0], left[j].1)
  }

  ghost predicate ProcsOk(remote: seq<byte>, s: State)
    requires Shape(s)
  {
    forall p | 0 <= p < |s.procs| :: ProcOk(remote, s.segs, s.completed, s.cache, s.disk, s.procs[p])
  }

  /** The resume invariant: no stored counter exceeds its segment's durable prefix. */
  ghost predicate RowsDurable(remote: seq<byte>, s: State)
    requires Shape(s)
  {
    forall i | 0 <= i < |s.segs| :: Durable(remote, s.cache, s.disk, s.segs[i], s.rows[i])
  }

  /** The same for any counter the store may fall back to, unless it is stale or there is no part file. */
  ghost predicate EverDurable(remote: seq<byte>, s: State, d: Debt)
    requires Shape(s)
  {
    && (forall i: nat, n | i < |s.segs| && n in s.ever[i] :: 0 <= n <= s.segs[i].Size())
    && (s.cache != [] ==> forall i: nat, n | i < |s.segs| && n in s.ever[i] ::
          (i, n) in d || Durable(remote, s.cache, s.disk, s.segs[i], n))
    && (forall i | 0 <= i < |s.segs| :: s.rows[i] in s.ever[i])
  }

  ghost predicate PhaseOk(remote: seq<byte>, s: State)
    requires Shape(s)
  {
    match s.phase
    case Running => |remote| <= |s.cache| && FetchedOk(remote, s)
    case Down => true
    case Gated => remote <= s.disk == s.cache && FetchedOk(remote, s)
    case Emptied(back) =>
      && s.cache == [] && remote <= back
      && forall i | 0 <= i < |s.segs| :: 0 <= s.completed[i] <= s.segs[i].Size()
  }

  ghost predicate Inv(remote: seq<byte>, s: State, d: Debt) {
    && LayoutOk(remote, s)
    && EverDurable(remote, s, d)
    && PhaseOk(remote, s)
    && ProcsOk(remote, s)
    && (!s.phase.Running? ==> forall p | 0 <= p < |s.procs| :: s.procs[p].Resting?)
    && (forall i | 0 <= i < |s.outs| :: remote <= s.outs[i])
  }

  ghost predicate Begins(remote: seq<byte>, s: State) {
    && |remote| > 0 && Shape(s) && FreshLayout(|remote|, s.segs) && |remote| <= |s.cache|
    && s.phase.Running? && s.outs == []
    && (forall i | 0 <= i < |s.segs| :: s.completed[i] == 0 && s.pending[i] == 0 && s.rows[i] == 0 && s.ever[i] == {0})
    && (forall p | 0 <= p < |s.procs| :: s.procs[p].Resting?)
  }

  lemma SegmentsInside(remote: seq<byte>, s: State)
    requires LayoutOk(remote, s)
    ensures forall i | 0 <= i < |s.segs| :: 0 <= s.segs[i].start <= s.segs[i].end < |remote|
  {
    ContiguousTiled(|remote|, Starts(s.segs), Ends(s.segs));
    forall i | 0 <= i < |s.segs| ensures 0 <= s.segs[i].start <= s.segs[i].end < |remote| {
      assert 0 <= Starts(s.segs)[i] <= Ends(s.segs)[i] + 1 <= |remote|;
      assert s.segs[i].Size() >= 1;
    }
  }

  lemma BeginInv(remote: seq<byte>, s: State)
    requires Begins(remote, s)
    ensures Inv(remote, s, {})
  {
    SegmentsInside(remote, s);
    forall i: nat, n | i < |s.segs| && n in s.ever[i] ensures Durable(remote, s.cache, s.disk, s.segs[i], n) {
      assert n == 0;
    }
    assert EverDurable(remote, s, {});
  }

  // ----- one event

  /** Neither copy of the file loses a correct byte. */
  ghost predicate NothingLost(remote: seq<byte>, s: State, t: State) {
    && Shape(s) && Shape(t) && t.segs == s.segs && |t.cache| == |s.cache|
    && (forall q | 0 <= q < |s.cache| && q < |remote| && s.cache[q] == remote[q] :: t.cache[q] == remote[q])
    && (forall q | 0 <= q < |s.cache| && q < |remote| && s.cache[q] == remote[q] && s.disk[q] == remote[q] ::
          t.disk[q] == remote[q])
  }

  lemma RowsSurvive(remote: seq<byte>, s: State, t: State, d: Debt)
    requires NothingLost(remote, s, t) && EverDurable(remote, s, d) && t.rows == s.rows && t.ever == s.ever
    ensures EverDurable(remote, t, d)
  {
  }

  lemma ProcsSurvive(remote: seq<byte>, s: State, t: State)
    requires NothingLost(remote, s, t) && ProcsOk(remote, s) && t.procs == s.procs
    requires forall i | 0 <= i < |s.segs| :: s.completed[i] <= t.completed[i]
    ensures ProcsOk(remote, t)
  {
  }

  lemma WriteKeeps(remote: seq<byte>, s: State, d: Debt, i: nat, n: int)
    requires Inv(remote, s, d) && Enabled(remote, s, Write(i, n))
    ensures Inv(remote, Step(remote, s, Write(i, n)), d)
  {
    var t := Step(remote, s, Write(i, n));
    RowsSurvive(remote, s, t, d);
    ProcsSurvive(remote, s, t);
    forall j | 0 <= j < |t.segs| ensures Fetched(remote, t.cache, t.segs[j], t.completed[j], t.pending[j]) {
      assert Fetched(remote, s.cache, s.segs[j], s.completed[j], s.pending[j]);
    }
  }

  /** Publishing or dropping pending bytes of one segment. */
  lemma CounterKeeps(remote: seq<byte>, s: State, d: Debt, e: Event)
    requires Inv(remote, s, d) && Enabled(remote, s, e) && (e.Publish? || e.Abandon?)
    ensures Inv(remote, Step(remote, s, e), d)
  {
    var t := Step(remote, s, e);
    assert Fetched(remote, s.cache, s.segs[e.i], s.completed[e.i], s.pending[e.i]);
    RowsSurvive(remote, s, t, d);
    ProcsSurvive(remote, s, t);
    forall j | 0 <= j < |t.segs| ensures Fetched(remote, t.cache, t.segs[j], t.completed[j], t.pending[j]) {
      assert Fetched(remote, s.cache, s.segs[j], s.completed[j], s.pending[j]);
    }
  }

  lemma ReadKeeps(remote: seq<byte>, s: State, d: Debt, e: Event)
    requires Inv(remote, s, d) && Enabled(remote, s, e) && (e.Begin? || e.Read?)
    ensures Inv(remote, Step(remote, s, e), d)
  {
  }

  /** The fsync comes after the snapshot, so every byte the snapshot counts is durable when it returns. */
  lemma SyncKeeps(remote: seq<byte>, s: State, d: Debt, p: nat, ok: bool)
    requires Inv(remote, s, d) && Enabled(remote, s, Sync(p, ok))
    ensures Inv(remote, Step(remote, s, Sync(p, ok)), d)
  {
  }

  lemma PersistKeeps(remote: seq<byte>, s: State, d: Debt, p: nat, stored: bool)
    requires Inv(remote, s, d) && Enabled(remote, s, Persist(p, stored))
    ensures var e := Persist(p, stored); Inv(remote, Step(remote, s, e), NextDebt(remote, s, d, e))
  {
  }

  /** The counters are saved over bytes that are all on the device, or over no part file at all. */
  lemma CountedKeeps(remote: seq<byte>, s: State, d: Debt)
    requires LayoutOk(remote, s) && EverDurable(remote, s, d)
    requires forall i | 0 <= i < |s.segs| :: 0 <= s.completed[i] <= s.segs[i].Size()
    requires s.cache != [] ==>
      forall i | 0 <= i < |s.segs| :: Durable(remote, s.cache, s.disk, s.segs[i], s.completed[i])
    ensures EverDurable(remote, Counted(s), d - Counters(s))
  {
  }

  lemma EndKeeps(remote: seq<byte>, s: State, d: Debt, saved: bool)
    requires Inv(remote, s, d) && Enabled(remote, s, EndRun(true, saved))
    ensures var e := EndRun(true, saved); Inv(remote, Step(remote, s, e), NextDebt(remote, s, d, e))
  {
    var synced := s.(disk := s.cache);
    RowsSurvive(remote, s, synced, d);
    FetchedIsDurable(remote, synced);
    if saved { CountedKeeps(remote, synced, d); }
  }

  lemma FetchedIsDurable(remote: seq<byte>, s: State)
    requires Shape(s) && FetchedOk(remote, s) && s.disk == s.cache
    ensures forall i | 0 <= i < |s.segs| :: Durable(remote, s.cache, s.disk, s.segs[i], s.completed[i])
  {
    forall i | 0 <= i < |s.segs| ensures Durable(remote, s.cache, s.disk, s.segs[i], s.completed[i]) {
      assert Fetched(remote, s.cache, s.segs[i], s.completed[i], s.pending[i]);
    }
  }

  lemma RefuseKeeps(remote: seq<byte>, s: State, d: Debt, saved: bool)
    requires Inv(remote, s, d) && Enabled(remote, s, Refuse(saved))
    ensures var e := Refuse(saved); Inv(remote, Step(remote, s, e), NextDebt(remote, s, d, e))
  {
    FetchedIsDurable(remote, s);
    if saved { CountedKeeps(remote, s, d); }
  }

  lemma FinalKeeps(remote: seq<byte>, s: State, d: Debt, saved: bool)
    requires Inv(remote, s, d) && Enabled(remote, s, SaveFinal(saved))
    ensures Inv(remote, Step(remote, s, SaveFinal(saved)), d)
  {
    if saved { CountedKeeps(remote, s, d); }
  }

  /** The part file goes: renamed, removed or discarded. */
  lemma GoneKeeps(remote: seq<byte>, s: State, d: Debt, e: Event)
    requires Inv(remote, s, d) && Enabled(remote, s, e) && (e.Rename? || e.Remove? || e.Discard?)
    ensures Inv(remote, Step(remote, s, e), {})
  {
    if !e.Discard? { FetchedIsDurable(remote, s); }
  }

  /** On a fixed layout the gate opens only over a file that is the remote's. */
  lemma GateMeansRemote(remote: seq<byte>, s: State, b: int)
    requires LayoutOk(remote, s) && FetchedOk(remote, s) && GateOpen(|remote|, s.segs, s.completed) && 0 <= b < |remote|
    ensures s.cache[b] == remote[b]
  {
    ContiguousTiled(|remote|, Starts(s.segs), Ends(s.segs));
    forall i | 0 <= i < |s.segs| ensures s.completed[i] >= 0 {
      assert Fetched(remote, s.cache, s.segs[i], s.completed[i], s.pending[i]);
    }
    GateExact(|remote|, s.segs, s.completed);
    assert Covered(Starts(s.segs), Ends(s.segs), b);
    var i :| 0 <= i < |s.segs| && Has(Starts(s.segs), Ends(s.segs), i, b);
    assert Fetched(remote, s.cache, s.segs[i], s.completed[i], s.pending[i]);
  }

  lemma GateKeeps(remote: seq<byte>, s: State, d: Debt)
    requires Inv(remote, s, d) && Enabled(remote, s, Gate)
    ensures Inv(remote, Step(remote, s, Gate), d)
  {
    RowsSurvive(remote, s, Step(remote, s, Gate), d);
    forall b | 0 <= b < |remote| ensures s.cache[b] == remote[b] {
      GateMeansRemote(remote, s, b);
    }
  }

  /** After a kill the cache survives; after a power loss each byte is what the cache or the device held, and a part
      file just renamed or removed may be back as it was. */
  lemma StopKeeps(remote: seq<byte>, s: State, d: Debt, e: Event)
    requires Inv(remote, s, d) && Enabled(remote, s, e) && (e.Kill? || e.PowerLoss?)
    ensures Inv(remote, Step(remote, s, e), d)
  {
    if e.PowerLoss? && s.phase.Emptied? && e.after == s.phase.back {
      BackIsDurable(remote, s, e.after);
    }
  }

  lemma BackIsDurable(remote: seq<byte>, s: State, back: seq<byte>)
    requires LayoutOk(remote, s) && remote <= back
    ensures forall i: nat, n | i < |s.segs| && 0 <= n <= s.segs[i].Size() ::
      Durable(remote, back, back, s.segs[i], n)
  {
    SegmentsInside(remote, s);
  }

  /** A layout that only takes its counters from the rows. */
  ghost predicate Recounted(segs: seq<Segment>, rows: seq<int>, layout: seq<Segment>) {
    |layout| == |segs| == |rows| && forall i | 0 <= i < |segs| :: layout[i] == segs[i].(completed := rows[i])
  }

  lemma RecountedLayout(remote: seq<byte>, s: State, rows: seq<int>, layout: seq<Segment>)
    requires LayoutOk(remote, s) && Recounted(s.segs, rows, layout)
    ensures Starts(layout) == Starts(s.segs) && Ends(layout) == Ends(s.segs)
    ensures forall i | 0 <= i < |layout| :: layout[i].index == i && layout[i].Size() == s.segs[i].Size()
  {
  }

  lemma RecountedFetched(remote: seq<byte>, s: State, d: Debt, layout: seq<Segment>)
    requires Shape(s) && EverDurable(remote, s, d) && s.cache != [] && NoneStale(s.rows, d)
    requires Recounted(s.segs, s.rows, layout)
    ensures forall i | 0 <= i < |layout| :: Fetched(remote, s.cache, layout[i], layout[i].completed, 0)
  {
    forall i | 0 <= i < |layout| ensures Fetched(remote, s.cache, layout[i], layout[i].completed, 0) {
      assert s.rows[i] in s.ever[i];
      assert Durable(remote, s.cache, s.disk, s.segs[i], s.rows[i]);
    }
  }

  lemma ResumeKeeps(remote: seq<byte>, s: State, d: Debt, layout: seq<Segment>)
    requires Inv(remote, s, d) && Enabled(remote, s, Resume(layout)) && NoneStale(s.rows, d)
    ensures var e := Resume(layout); Inv(remote, Step(remote, s, e), NextDebt(remote, s, d, e))
  {
    StoredComesBack(remote, s, d, layout);
    if s.cache == [] {
      RecountedLayout(remote, s, seq(|s.segs|, _ => 0), layout);
      StartsEmpty(remote, s, d, layout);
    } else {
      RecountedLayout(remote, s, s.rows, layout);
      RecountedFetched(remote, s, d, layout);
      StartsWhole(remote, s, d, layout);
    }
  }

  /** Over a missing part file every counter that is not zero is stale. */
  lemma StartsEmpty(remote: seq<byte>, s: State, d: Debt, layout: seq<Segment>)
    requires Inv(remote, s, d) && s.cache == [] && Enabled(remote, s, Resume(layout))
    requires Starts(layout) == Starts(s.segs) && Recounted(s.segs, seq(|s.segs|, _ => 0), layout)
    ensures EverDurable(remote, Step(remote, s, Resume(layout)), d + Clipped(s))
    ensures FetchedOk(remote, Step(remote, s, Resume(layout)))
  {
    SegmentsInside(remote, s);
    var t := Step(remote, s, Resume(layout));
    forall i: nat, n | i < |t.segs| && n in t.ever[i]
      ensures (i, n) in d + Clipped(s) || Durable(remote, t.cache, t.disk, t.segs[i], n)
    {
      assert n > 0 ==> (i, n) in Clipped(s);
    }
  }

  lemma StartsWhole(remote: seq<byte>, s: State, d: Debt, layout: seq<Segment>)
    requires Inv(remote, s, d) && s.cache != [] && Enabled(remote, s, Resume(layout))
    requires Recounted(s.segs, s.rows, layout)
    ensures EverDurable(remote, Step(remote, s, Resume(layout)), d + Clipped(s))
  {
    var t := Step(remote, s, Resume(layout));
    forall i: nat, n | i < |t.segs| && n in t.ever[i]
      ensures (i, n) in d + Clipped(s) || Durable(remote, t.cache, t.disk, t.segs[i], n)
    {
      assert (i, n) in d || Durable(remote, s.cache, s.disk, s.segs[i], n);
    }
  }

  /** Reconciling a fixed layout changes nothing but counters: each comes back as it was stored, or as zero when the
      part file is missing. */
  lemma StoredComesBack(remote: seq<byte>, s: State, d: Debt, layout: seq<Segment>)
    requires LayoutOk(remote, s) && EverDurable(remote, s, d)
    requires IsReconciled(|remote|, Stored(s), |s.cache|, layout)
    ensures Recounted(s.segs, if s.cache == [] then seq(|s.segs|, _ => 0) else s.rows, layout)
  {
    var repaired :| IsRepair(|remote|, Stored(s), repaired) && layout == Capped(repaired, |s.cache|);
    StoredInOrder(remote, s, d);
    RepairIdentity(|remote|, Stored(s), repaired);
    StoredCapped(remote, s, d, layout);
  }

  /** A part file as long as the download backs every counter, and a missing one backs none. */
  lemma StoredCapped(remote: seq<byte>, s: State, d: Debt, layout: seq<Segment>)
    requires LayoutOk(remote, s) && EverDurable(remote, s, d) && layout == Capped(Stored(s), |s.cache|)
    ensures Recounted(s.segs, if s.cache == [] then seq(|s.segs|, _ => 0) else s.rows, layout)
  {
    StoredInOrder(remote, s, d);
    SegmentsInside(remote, s);
    var rows := Stored(s);
    forall i | 0 <= i < |s.segs|
      ensures layout[i] == s.segs[i].(completed := if s.cache == [] then 0 else s.rows[i])
    {
      assert rows[i].completed <= rows[i].Size() && layout[i] == rows[i].(completed := Backed(rows[i], |s.cache|));
    }
  }

  /** The stored rows of a fixed layout tile the download in order, and their counters fit. */
  lemma StoredInOrder(remote: seq<byte>, s: State, d: Debt)
    requires LayoutOk(remote, s) && EverDurable(remote, s, d)
    ensures var rows := Stored(s);
      && Contiguous(|remote|, Starts(rows), Ends(rows))
      && forall i | 0 <= i < |rows| ::
           rows[i].index == i && rows[i].Size() >= 1 && 0 <= rows[i].completed <= rows[i].Size()
  {
    var rows := Stored(s);
    assert Starts(rows) == Starts(s.segs) && Ends(rows) == Ends(s.segs);
    SegmentsInside(remote, s);
    forall i | 0 <= i < |rows|
      ensures rows[i].index == i && rows[i].Size() >= 1 && 0 <= rows[i].completed <= rows[i].Size()
    {
      assert s.rows[i] in s.ever[i];
    }
  }

  /** The events in which a run ends or the part file goes. */
  predicate Closes(e: Event) {
    e.EndRun? || e.Gate? || e.Refuse? || e.Remove? || e.Rename? || e.SaveFinal? || e.Discard?
  }

  lemma CloseKeeps(remote: seq<byte>, s: State, d: Debt, e: Event)
    requires Inv(remote, s, d) && Enabled(remote, s, e) && Closes(e) && (e.EndRun? ==> e.synced)
    ensures Inv(remote, Step(remote, s, e), NextDebt(remote, s, d, e))
  {
    match e
    case EndRun(_, saved) => EndKeeps(remote, s, d, saved);
    case Gate => GateKeeps(remote, s, d);
    case Refuse(saved) => RefuseKeeps(remote, s, d, saved);
    case SaveFinal(saved) => FinalKeeps(remote, s, d, saved);
    case _ => GoneKeeps(remote, s, d, e);
  }

  lemma EventKeeps(remote: seq<byte>, s: State, d: Debt, e: Event)
    requires Inv(remote, s, d) && Enabled(remote, s, e) && Pays(s, d, e) && (e.EndRun? ==> e.synced)
    ensures Inv(remote, Step(remote, s, e), NextDebt(remote, s, d, e))
  {
    match e
    case Write(i, n) => WriteKeeps(remote, s, d, i, n);
    case Publish(i) => CounterKeeps(remote, s, d, e);
    case Abandon(i) => CounterKeeps(remote, s, d, e);
    case Begin(p, todo) => ReadKeeps(remote, s, d, e);
    case Read(p) => ReadKeeps(remote, s, d, e);
    case Sync(p, ok) => SyncKeeps(remote, s, d, p, ok);
    case Persist(p, stored) => PersistKeeps(remote, s, d, p, stored);
    case Kill => StopKeeps(remote, s, d, e);
    case PowerLoss(after, rows) => StopKeeps(remote, s, d, e);
    case Resume(layout) => ResumeKeeps(remote, s, d, layout);
    case _ => CloseKeeps(remote, s, d, e);
  }

  // ----- whole histories

  ghost predicate ValidHistory(remote: seq<byte>, s: State, es: seq<Event>)
    decreases |es|
  {
    Shape(s) && (es == [] || (Enabled(remote, s, es[0]) && ValidHistory(remote, Step(remote, s, es[0]), es[1..])))
  }

  ghost function AfterAll(remote: seq<byte>, s: State, es: seq<Event>): State
    requires ValidHistory(remote, s, es)
    decreases |es|
  {
    if es == [] then s else AfterAll(remote, Step(remote, s, es[0]), es[1..])
  }

  /** Every run that ended without passing the gate got its terminal fsync. */
  predicate TerminalSyncsSucceed(es: seq<Event>) {
    forall e | e in es :: e.EndRun? ==> e.synced
  }

  /** Every debt that a run started over a missing part file runs up is paid: no resume trusts a stale counter. */
  ghost predicate DebtsPaid(remote: seq<byte>, s: State, d: Debt, es: seq<Event>)
    requires ValidHistory(remote, s, es)
    decreases |es|
  {
    es == [] ||
    (Pays(s, d, es[0]) && DebtsPaid(remote, Step(remote, s, es[0]), NextDebt(remote, s, d, es[0]), es[1..]))
  }

  ghost function DebtAfter(remote: seq<byte>, s: State, d: Debt, es: seq<Event>): Debt
    requires ValidHistory(remote, s, es)
    decreases |es|
  {
    if es == [] then d
    else DebtAfter(remote, Step(remote, s, es[0]), NextDebt(remote, s, d, es[0]), es[1..])
  }

  lemma {:induction false} HistoryKeeps(remote: seq<byte>, s: State, d: Debt, es: seq<Event>)
    requires Inv(remote, s, d) && ValidHistory(remote, s, es) && TerminalSyncsSucceed(es) && DebtsPaid(remote, s, d, es)
    ensures Inv(remote, AfterAll(remote, s, es), DebtAfter(remote, s, d, es))
    decreases |es|
  {
    if es == [] {
    } else {
      assert es[0] in es;
      EventKeeps(remote, s, d, es[0]);
      HistoryKeeps(remote, Step(remote, s, es[0]), NextDebt(remote, s, d, es[0]), es[1..]);
    }
  }

  /** For every interleaving of writes, ticks, final flushes, runs that end and files put in place, and power losses at
      any points: no stored counter ever exceeds its segment's durable prefix, unless it is stale. */
  lemma StoredNeverExceedsDurable(remote: seq<byte>, s: State, es: seq<Event>, i: nat)
    requires Begins(remote, s) && ValidHistory(remote, s, es) && TerminalSyncsSucceed(es)
    requires DebtsPaid(remote, s, {}, es)
    requires var t := AfterAll(remote, s, es);
      t.cache != [] && i < |t.segs| && Shape(t) && (i, t.rows[i]) !in DebtAfter(remote, s, {}, es)
    ensures var t := AfterAll(remote, s, es); Shape(t) && Durable(remote, t.cache, t.disk, t.segs[i], t.rows[i])
  {
    BeginInv(remote, s);
    HistoryKeeps(remote, s, {}, es);
    var t := AfterAll(remote, s, es);
    assert t.rows[i] in t.ever[i];
  }

  /** And a download that loses power any number of times, between any two steps, and is resumed each time still puts
      only byte-exact files in place. */
  lemma PowerLossIsExact(remote: seq<byte>, s: State, es: seq<Event>, i: nat)
    requires Begins(remote, s) && ValidHistory(remote, s, es) && TerminalSyncsSucceed(es)
    requires DebtsPaid(remote, s, {}, es) && i < |AfterAll(remote, s, es).outs|
    ensures remote <= AfterAll(remote, s, es).outs[i]
  {
    BeginInv(remote, s);
    HistoryKeeps(remote, s, {}, es);
  }

  /** Every resume finds a part file. */
  ghost predicate FoundWhole(remote: seq<byte>, s: State, es: seq<Event>)
    requires ValidHistory(remote, s, es)
    decreases |es|
  {
    es == [] || ((es[0].Resume? ==> s.cache != []) && FoundWhole(remote, Step(remote, s, es[0]), es[1..]))
  }

  /** Then there are no debts: until the engine takes the part file away, no condition but the terminal fsyncs is
      needed. */
  lemma {:induction false} WholeRunsNoDebt(remote: seq<byte>, s: State, es: seq<Event>)
    requires Inv(remote, s, {}) && ValidHistory(remote, s, es) && TerminalSyncsSucceed(es)
    requires FoundWhole(remote, s, es)
    ensures DebtsPaid(remote, s, {}, es)
    decreases |es|
  {
    if es == [] {
    } else {
      assert es[0] in es;
      EventKeeps(remote, s, {}, es[0]);
      if es[0].Resume? { NothingClipped(remote, s); }
      assert NextDebt(remote, s, {}, es[0]) == {};
      WholeRunsNoDebt(remote, Step(remote, s, es[0]), es[1..]);
    }
  }

  lemma NothingClipped(remote: seq<byte>, s: State)
    requires Inv(remote, s, {}) && s.cache != []
    ensures Clipped(s) == {}
  {
    forall i: nat, n | i < |s.segs| && n in s.ever[i] ensures s.segs[i].start + n <= |s.cache| {
      assert Durable(remote, s.cache, s.disk, s.segs[i], n);
    }
  }

  /** No fetched byte is still waiting to reach the device. */
  ghost predicate NothingDirty(s: State)
    requires Shape(s)
  {
    forall i | 0 <= i < |s.segs| :: SegmentClean(s, i)
  }

  ghost predicate SegmentClean(s: State, i: nat)
    requires Shape(s) && i < |s.segs|
  {
    forall q | s.segs[i].start <= q < s.segs[i].start + s.completed[i] :: 0 <= q < |s.disk| && s.disk[q] == s.cache[q]
  }

  /** No power loss that brings back no stale counter spoils a stored one. */
  ghost predicate Survives(remote: seq<byte>, t: State, d: Debt)
    requires Shape(t)
  {
    forall after, rows | Enabled(remote, t, PowerLoss(after, rows)) && NoneStale(rows, d) ::
      RowsDurable(remote, Step(remote, t, PowerLoss(after, rows)))
  }

  /** The terminal fsync's error is ignored. When it fails, the counters saved after it survive every power loss
      exactly when no fetched byte was still waiting to reach the device. */
  lemma FailedTerminalSync(remote: seq<byte>, s: State, d: Debt)
    requires Inv(remote, s, d) && Enabled(remote, s, EndRun(false, true))
    ensures var e := EndRun(false, true);
      Survives(remote, Step(remote, s, e), NextDebt(remote, s, d, e)) <==> NothingDirty(s)
  {
    var e := EndRun(false, true);
    var t := Step(remote, s, e);
    if NothingDirty(s) {
      forall after, rows | Enabled(remote, t, PowerLoss(after, rows)) && NoneStale(rows, NextDebt(remote, s, d, e))
        ensures RowsDurable(remote, Step(remote, t, PowerLoss(after, rows)))
      {
        CleanSurvives(remote, s, d, after, rows);
      }
    } else {
      var i :| 0 <= i < |s.segs| && !SegmentClean(s, i);
      DirtyIsLost(remote, s, d, i);
    }
  }

  lemma CleanSurvives(remote: seq<byte>, s: State, d: Debt, after: seq<byte>, rows: seq<int>)
    requires Inv(remote, s, d) && Enabled(remote, s, EndRun(false, true)) && NothingDirty(s)
    requires Enabled(remote, Step(remote, s, EndRun(false, true)), PowerLoss(after, rows))
    requires NoneStale(rows, d - Counters(s))
    ensures RowsDurable(remote, Step(remote, Step(remote, s, EndRun(false, true)), PowerLoss(after, rows)))
  {
    forall i: nat | i < |s.segs| ensures Durable(remote, after, after, s.segs[i], rows[i]) {
      assert rows[i] in s.ever[i] + {s.completed[i]};
      assert (i, rows[i]) !in d - Counters(s);
      if rows[i] == s.completed[i] {
        assert Fetched(remote, s.cache, s.segs[i], s.completed[i], s.pending[i]);
        assert SegmentClean(s, i);
      } else {
        assert (i, rows[i]) !in Counters(s);
        assert Durable(remote, s.cache, s.disk, s.segs[i], rows[i]);
      }
    }
  }

  /** A dirty byte of segment i is lost when the device keeps what it had. */
  lemma DirtyIsLost(remote: seq<byte>, s: State, d: Debt, i: nat)
    requires Inv(remote, s, d) && Enabled(remote, s, EndRun(false, true)) && i < |s.segs| && !SegmentClean(s, i)
    ensures var t := Step(remote, s, EndRun(false, true));
      && Enabled(remote, t, PowerLoss(s.disk, s.completed)) && NoneStale(s.completed, d - Counters(s))
      && !RowsDurable(remote, Step(remote, t, PowerLoss(s.disk, s.completed)))
  {
  }
}
