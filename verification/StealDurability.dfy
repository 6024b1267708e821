/** What the checkpointer persists during a work-stealing run (internal/engine/checkpoint.go,
    internal/engine/download_run.go:475-530).

    The machine of module Protocol runs while any number of checkpointers read rows from its live plan, in two loads
    each, fsync, and persist; slots are cut and activated under them. `disk` is what the device holds of the part file.
    The rows a steal persists are stored too, without an fsync before them. */
module StealDurability {
  import opened Tiling
  import opened Protocol
  import opened CrashResume
  import P = ProtocolInv
  import PF = ProtocolFacts
  import PS = ProtocolSteps

  /** A stored row and the slot it is stored under. */
  type Entry = (nat, Record)

  /** One checkpointer goroutine between two of its atomic operations. */
  datatype Proc =
    | Resting
    | Reading(todo: seq<nat>, got: seq<Entry>)
    | Halfway(todo: seq<nat>, end: int, got: seq<Entry>)   // the End of todo[0] loaded, its counter not yet
    | Synced(left: seq<Entry>)                             // fsync returned; rows still to persist

  /** `barrier` holds every row a checkpointer has stored, `cuts` every row a steal has to store, and `ever` every row
      anybody has stored. */
  datatype Run = Run(
    st: State, disk: seq<byte>, rows: Rows, procs: seq<Proc>,
    barrier: set<Entry>, cuts: set<Entry>, ever: set<Entry>, up: bool)

  datatype Happening =
    | Worked(a: Action)
    | Begin(p: nat, todo: seq<nat>)
    | LoadsEnd(p: nat)
    | ReadsCount(p: nat)
    | Sync(p: nat, ok: bool)
    | Stores(p: nat, stored: bool)
    | StoresCut(x: Entry)
    | PowerLoss(after: seq<byte>, rows: Rows)

  ghost predicate Can(c: Config, y: Run, h: Happening) {
    && Shape(y.st) && y.up
    && match h
       case Worked(a) => Protocol.Enabled(c, y.st, a)
       case Begin(p, todo) => p < |y.procs| && y.procs[p].Resting? && forall k | k in todo :: k < |y.st.starts|
       case LoadsEnd(p) =>
         && p < |y.procs| && y.procs[p].Reading? && y.procs[p].todo != [] && y.procs[p].todo[0] < |y.st.starts|
       case ReadsCount(p) =>
         && p < |y.procs| && y.procs[p].Halfway? && y.procs[p].todo != [] && y.procs[p].todo[0] < |y.st.starts|
       case Sync(p, _) => p < |y.procs| && y.procs[p].Reading? && y.procs[p].todo == []
       case Stores(p, _) => p < |y.procs| && y.procs[p].Synced? && y.procs[p].left != []
       case StoresCut(x) => x in y.cuts
       case PowerLoss(after, rows) =>
         && |after| == |y.disk| == |y.st.file|
         && (forall q | 0 <= q < |after| :: after[q] == y.disk[q] || after[q] == y.st.file[q])
         && (forall k | k in rows :: (k, rows[k]) in y.ever)
  }

  /** The rows of the donor and of the tail that a commit leaves to persist. */
  function Cut(s: State): set<Entry>
    requires Shape(s) && s.mu.Shrunk? && s.mu.donor < |s.starts|
  {
    var m := s.mu;
    {(m.donor, Record(s.starts[m.donor], m.mid, m.from - s.starts[m.donor])),
     (|s.starts|, Record(m.mid + 1, m.oldEnd, 0))}
  }

  ghost function Next(c: Config, y: Run, h: Happening): Run
    requires Can(c, y, h)
  {
    match h
    case Worked(a) =>
      y.(st := Protocol.Apply(c, y.st, a), cuts := if a.Commit? then y.cuts + Cut(y.st) else y.cuts)
    case Begin(p, todo) => y.(procs := y.procs[p := Reading(todo, [])])
    case LoadsEnd(p) =>
      var r := y.procs[p];
      y.(procs := y.procs[p := Halfway(r.todo, y.st.ends[r.todo[0]], r.got)])
    case ReadsCount(p) =>
      var r := y.procs[p];
      var k := r.todo[0];
      y.(procs := y.procs[p := Reading(r.todo[1..], r.got + [(k, Record(y.st.starts[k], r.end, y.st.completed[k]))])])
    case Sync(p, ok) =>
      if ok then y.(disk := y.st.file, procs := y.procs[p := Synced(y.procs[p].got)])
      else y.(procs := y.procs[p := Resting])
    case Stores(p, stored) =>
      var x := y.procs[p].left[0];
      var rest := if |y.procs[p].left| == 1 then Resting else Synced(y.procs[p].left[1..]);
      if stored then
        y.(rows := y.rows[x.0 := x.1], barrier := y.barrier + {x}, ever := y.ever + {x}, procs := y.procs[p := rest])
      else
        y.(procs := y.procs[p := rest])
    case StoresCut(x) => y.(rows := y.rows[x.0 := x.1], ever := y.ever + {x})
    case PowerLoss(after, rows) => y.(disk := after, rows := rows, up := false)
  }

  ghost predicate ValidCourse(c: Config, y: Run, hs: seq<Happening>)
    decreases |hs|
  {
    hs == [] || (Can(c, y, hs[0]) && ValidCourse(c, Next(c, y, hs[0]), hs[1..]))
  }

  ghost function AfterCourse(c: Config, y: Run, hs: seq<Happening>): Run
    requires ValidCourse(c, y, hs)
    decreases |hs|
  {
    if hs == [] then y else AfterCourse(c, Next(c, y, hs[0]), hs[1..])
  }

  /** A run about to start, with whatever rows earlier runs stored. The device need not have what they wrote: after a
      process kill it may hold anything of the part file's length. */
  function Starting(c: Config, segs: seq<Segment>, file: seq<byte>, disk: seq<byte>, rows: Rows, procs: nat): Run {
    Run(Init(c, segs, file), disk, rows, seq(procs, _ => Resting), {}, {}, set k | k in rows :: (k, rows[k]), true)
  }

  ghost predicate Begins(c: Config, segs: seq<Segment>, file: seq<byte>, rows: Rows, procs: nat, y: Run) {
    P.Startable(c, segs, file) && |y.disk| == |file| && y == Starting(c, segs, file, y.disk, rows, procs)
  }

  // ----- the invariant

  /** A row that was read from slot k of the live plan. */
  predicate ReadFrom(s: State, x: Entry)
    requires Shape(s)
  {
    x.0 < |s.starts| && x.1.start == s.starts[x.0] && 0 <= x.1.completed <= s.completed[x.0]
  }

  /** The row's counter stays within its slot's durable prefix. */
  ghost predicate Durable(remote: seq<byte>, s: State, disk: seq<byte>, x: Entry)
    requires Shape(s)
  {
    && ReadFrom(s, x)
    && P.Agrees(remote, s.file, x.1.start, x.1.start + x.1.completed)
    && P.Agrees(remote, disk, x.1.start, x.1.start + x.1.completed)
  }

  ghost predicate ProcOk(remote: seq<byte>, s: State, disk: seq<byte>, p: Proc)
    requires Shape(s)
  {
    match p
    case Resting => true
    case Reading(_, got) => forall j | 0 <= j < |got| :: ReadFrom(s, got[j])
    case Halfway(_, _, got) => forall j | 0 <= j < |got| :: ReadFrom(s, got[j])
    case Synced(left) => forall j | 0 <= j < |left| :: Durable(remote, s, disk, left[j])
  }

  ghost predicate ProcsOk(remote: seq<byte>, s: State, disk: seq<byte>, procs: seq<Proc>)
    requires Shape(s)
  {
    forall p | 0 <= p < |procs| :: ProcOk(remote, s, disk, procs[p])
  }

  ghost predicate BarrierOk(remote: seq<byte>, s: State, disk: seq<byte>, barrier: set<Entry>)
    requires Shape(s)
  {
    forall x | x in barrier :: Durable(remote, s, disk, x)
  }

  ghost predicate CourseInv(c: Config, y: Run) {
    && P.Inv(c, y.st) && |y.disk| == |y.st.file|
    && BarrierOk(c.remote, y.st, y.disk, y.barrier)
    && (forall x | x in y.cuts :: ReadFrom(y.st, x))
    && (y.up ==> ProcsOk(c.remote, y.st, y.disk, y.procs))
  }

  // ----- one happening

  /** Slots, counters and correct bytes stay; the device keeps what it has. */
  ghost predicate Onward(remote: seq<byte>, s: State, t: State)
    requires Shape(s) && Shape(t)
  {
    && |s.starts| <= |t.starts| && (forall k | 0 <= k < |s.starts| :: t.starts[k] == s.starts[k])
    && (forall k | 0 <= k < |s.starts| :: s.completed[k] <= t.completed[k])
    && |t.file| == |s.file| && NoByteSpoiled(remote, s.file, t.file)
  }

  lemma WorkIsOnward(c: Config, s: State, a: Action)
    requires P.Inv(c, s) && Protocol.Enabled(c, s, a)
    ensures var t := Protocol.Apply(c, s, a); P.Inv(c, t) && Onward(c.remote, s, t)
  {
    var t := Protocol.Apply(c, s, a);
    PS.StepKeepsInv(c, s, a);
    PF.EffShrinks(c, s, a);
    WorkSpoilsNothing(c, s, a);
    WorkKeepsLength(c, s, a);
    forall k | 0 <= k < |s.starts| ensures t.starts[k] == s.starts[k] && s.completed[k] <= t.completed[k] {
      assert t.starts[..|s.starts|][k] == s.starts[k];
      if !a.Commit? { PF.CountersGrow(c, s, a, k); }
    }
  }

  lemma EntrySurvives(remote: seq<byte>, s: State, t: State, disk: seq<byte>, x: Entry)
    requires Shape(s) && Shape(t) && Onward(remote, s, t)
    ensures ReadFrom(s, x) ==> ReadFrom(t, x)
    ensures Durable(remote, s, disk, x) ==> Durable(remote, t, disk, x)
  {
  }

  lemma AllSurvive(remote: seq<byte>, s: State, t: State, disk: seq<byte>, procs: seq<Proc>, barrier: set<Entry>)
    requires Shape(s) && Shape(t) && Onward(remote, s, t)
    requires BarrierOk(remote, s, disk, barrier) && ProcsOk(remote, s, disk, procs)
    ensures BarrierOk(remote, t, disk, barrier) && ProcsOk(remote, t, disk, procs)
  {
    forall x | x in barrier ensures Durable(remote, t, disk, x) { EntrySurvives(remote, s, t, disk, x); }
    forall p | 0 <= p < |procs| ensures ProcOk(remote, t, disk, procs[p]) {
      ProcSurvives(remote, s, t, disk, procs[p]);
    }
  }

  lemma ProcSurvives(remote: seq<byte>, s: State, t: State, disk: seq<byte>, p: Proc)
    requires Shape(s) && Shape(t) && Onward(remote, s, t) && ProcOk(remote, s, disk, p)
    ensures ProcOk(remote, t, disk, p)
  {
    match p
    case Resting =>
    case Reading(_, got) =>
      forall j | 0 <= j < |got| ensures ReadFrom(t, got[j]) { EntrySurvives(remote, s, t, disk, got[j]); }
    case Halfway(_, _, got) =>
      forall j | 0 <= j < |got| ensures ReadFrom(t, got[j]) { EntrySurvives(remote, s, t, disk, got[j]); }
    case Synced(left) =>
      forall j | 0 <= j < |left| ensures Durable(remote, t, disk, left[j]) {
        EntrySurvives(remote, s, t, disk, left[j]);
      }
  }

  lemma CutIsReadFrom(c: Config, s: State)
    requires P.Inv(c, s) && Protocol.Enabled(c, s, Commit)
    ensures forall x | x in Cut(s) :: ReadFrom(DoCommit(s), x)
  {
    assert P.RowOk(c, P.RowOf(s, s.mu.donor), |s.starts| == 1, s.mu.donor < |s.handed|);
  }

  lemma WorkedKeeps(c: Config, y: Run, a: Action)
    requires CourseInv(c, y) && Can(c, y, Worked(a))
    ensures CourseInv(c, Next(c, y, Worked(a)))
  {
    WorkIsOnward(c, y.st, a);
    if a.Commit? { CutIsReadFrom(c, y.st); }
    AllSurvive(c.remote, y.st, Protocol.Apply(c, y.st, a), y.disk, y.procs, y.barrier);
  }

  /** A counter read from a live slot is at most what its worker has written. */
  lemma ReadIsWritten(c: Config, s: State, x: Entry)
    requires P.Inv(c, s) && ReadFrom(s, x)
    ensures P.Agrees(c.remote, s.file, x.1.start, x.1.start + x.1.completed)
  {
    assert P.RowOk(c, P.RowOf(s, x.0), |s.starts| == 1, x.0 < |s.handed|);
    assert P.Agrees(c.remote, s.file, s.starts[x.0], s.starts[x.0] + s.wrote[x.0]);
  }

  lemma SyncKeeps(c: Config, y: Run, p: nat, ok: bool)
    requires CourseInv(c, y) && Can(c, y, Sync(p, ok))
    ensures CourseInv(c, Next(c, y, Sync(p, ok)))
  {
    var z := Next(c, y, Sync(p, ok));
    if ok {
      forall q | 0 <= q < |z.procs| ensures ProcOk(c.remote, z.st, z.disk, z.procs[q]) {
        SyncedProc(c, y, q);
      }
    }
  }

  /** After a successful fsync, what was durable still is, and what had been read has become so. */
  lemma SyncedProc(c: Config, y: Run, q: nat)
    requires CourseInv(c, y) && y.up && q < |y.procs|
    ensures ProcOk(c.remote, y.st, y.st.file, y.procs[q])
    ensures y.procs[q].Reading? ==> ProcOk(c.remote, y.st, y.st.file, Synced(y.procs[q].got))
  {
    assert ProcOk(c.remote, y.st, y.disk, y.procs[q]);
    match y.procs[q]
    case Reading(_, got) =>
      forall j | 0 <= j < |got| ensures Durable(c.remote, y.st, y.st.file, got[j]) { ReadIsWritten(c, y.st, got[j]); }
    case _ =>
  }

  lemma ReadKeeps(c: Config, y: Run, h: Happening)
    requires CourseInv(c, y) && Can(c, y, h) && (h.Begin? || h.LoadsEnd? || h.ReadsCount?)
    ensures CourseInv(c, Next(c, y, h))
  {
    var z := Next(c, y, h);
    assert ProcOk(c.remote, y.st, y.disk, y.procs[h.p]);
    assert ProcOk(c.remote, y.st, y.disk, z.procs[h.p]) by {
      if h.ReadsCount? { CountIsReadFrom(c, y.st, y.procs[h.p].todo[0], y.procs[h.p].end); }
    }
    forall q | 0 <= q < |z.procs| ensures ProcOk(c.remote, z.st, z.disk, z.procs[q]) {
      assert q != h.p ==> z.procs[q] == y.procs[q];
    }
  }

  lemma CountIsReadFrom(c: Config, s: State, k: nat, end: int)
    requires P.Inv(c, s) && k < |s.starts|
    ensures ReadFrom(s, (k, Record(s.starts[k], end, s.completed[k])))
  {
    assert P.RowOk(c, P.RowOf(s, k), |s.starts| == 1, k < |s.handed|);
  }

  lemma StoresKeeps(c: Config, y: Run, p: nat, stored: bool)
    requires CourseInv(c, y) && Can(c, y, Stores(p, stored))
    ensures CourseInv(c, Next(c, y, Stores(p, stored)))
  {
    var z := Next(c, y, Stores(p, stored));
    assert ProcOk(c.remote, y.st, y.disk, y.procs[p]);
    forall q | 0 <= q < |z.procs| ensures ProcOk(c.remote, z.st, z.disk, z.procs[q]) {
      assert q != p ==> z.procs[q] == y.procs[q] && ProcOk(c.remote, y.st, y.disk, y.procs[q]);
    }
  }

  lemma HappeningKeeps(c: Config, y: Run, h: Happening)
    requires CourseInv(c, y) && Can(c, y, h)
    ensures CourseInv(c, Next(c, y, h))
  {
    match h
    case Worked(a) => WorkedKeeps(c, y, a);
    case Sync(p, ok) => SyncKeeps(c, y, p, ok);
    case Stores(p, stored) => StoresKeeps(c, y, p, stored);
    case StoresCut(x) =>
    case PowerLoss(after, rows) =>
    case _ => ReadKeeps(c, y, h);
  }

  lemma {:induction false} CourseKeeps(c: Config, y: Run, hs: seq<Happening>)
    requires CourseInv(c, y) && ValidCourse(c, y, hs)
    ensures CourseInv(c, AfterCourse(c, y, hs))
    decreases |hs|
  {
    if hs == [] {
    } else {
      HappeningKeeps(c, y, hs[0]);
      CourseKeeps(c, Next(c, y, hs[0]), hs[1..]);
    }
  }

  /** Whatever steals, flushes, ticks and per-stream flushes interleave, and after a power loss at any point too: a row
      the checkpointer has stored, be its slot an initial one or a tail, and its donor cut since or not, counts only
      bytes of that slot's durable prefix. */
  lemma BarrierNeverExceedsDurable(c: Config, segs: seq<Segment>, file: seq<byte>, rows: Rows, procs: nat, y: Run,
                                   hs: seq<Happening>, x: Entry)
    requires Begins(c, segs, file, rows, procs, y) && ValidCourse(c, y, hs) && x in AfterCourse(c, y, hs).barrier
    ensures var z := AfterCourse(c, y, hs); Shape(z.st) && Durable(c.remote, z.st, z.disk, x)
  {
    P.InitInv(c, segs, file);
    CourseKeeps(c, y, hs);
  }

  // ----- the rows a steal stores

  /** The claim of a stored row, as the device has it. */
  ghost predicate Backed(remote: seq<byte>, disk: seq<byte>, r: Record) {
    P.Agrees(remote, disk, r.start, r.start + r.completed)
  }

  /** The donor's row is stored without an fsync before it. It is a true claim, but one that every power loss at this
      point leaves backed exactly when the device happens to have its bytes already. */
  lemma CutRowIsBackedExactly(c: Config, segs: seq<Segment>, file: seq<byte>, rows: Rows, procs: nat, y: Run,
                              hs: seq<Happening>, x: Entry)
    requires Begins(c, segs, file, rows, procs, y) && ValidCourse(c, y, hs)
    requires var z := AfterCourse(c, y, hs); z.up && x in z.cuts
    ensures var z := AfterCourse(c, y, hs);
      && Shape(z.st) && Backed(c.remote, z.st.file, x.1)
      && ((forall after, left | Can(c, z, PowerLoss(after, left)) :: Backed(c.remote, after, x.1))
          <==> Backed(c.remote, z.disk, x.1))
  {
    P.InitInv(c, segs, file);
    CourseKeeps(c, y, hs);
    var z := AfterCourse(c, y, hs);
    ReadIsWritten(c, z.st, x);
    assert Can(c, z, PowerLoss(z.disk, map[]));
  }
}
