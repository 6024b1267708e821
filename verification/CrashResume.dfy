/** A stealing download over any number of runs, with the process killed at any point
    (internal/engine/download_run.go, internal/engine/checkpoint.go, internal/store/sqlite/segments.go).

    Inside one process the machine of module Protocol runs; around it the store holds one row per segment index.
    A row is read from the live plan in two loads (its End, then its counter) and upserted later, so the model lets
    every End ever loaded and every counter ever reached come back in any combination, at any later time: the steal's
    donor and tail rows, the periodic checkpoint and the per-stream one are all instances. Killing the process loses
    what was in flight but not what was written.

    The engine takes the part file away itself: it renames a finished one into place before it saves the record as
    completed, it removes one whose checksum is wrong before it saves the record as failed, and a Restart removes it
    before it resets the record. Opening creates a missing part file, so to a resume a missing one is an empty one. */
module CrashResume {
  import opened Tiling
  import opened Layout
  import opened LayoutFacts
  import opened Planner
  import opened Protocol
  import P = ProtocolInv
  import PF = ProtocolFacts
  import PR = ProtocolFrames
  import PS = ProtocolSteps

  /** A stored segment row; its index is the key it is stored under. */
  datatype Record = Record(start: int, end: int, completed: int)

  type Rows = map<nat, Record>

  /** What the configuration may set differently for each run. */
  datatype Knobs = Knobs(maxSegments: nat, floor: int, margin: int, retries: nat, workers: nat) {
    predicate Valid() { 1 <= workers && 1 <= margin && floor >= 2 * margin + 1 }
  }

  datatype Phase =
    | Down(file: seq<byte>)                  // no run; a missing part file has no bytes
    | Running(c: Config, st: State)
    | Gated(final: Rows, file: seq<byte>)    // the gate opened; the workers are gone, the part file is closed
    | Emptied(final: Rows)                   // the part file has been renamed or removed, the record not saved yet

  datatype Sys = Sys(
    rows: Rows,
    seen: set<(nat, int)>,          // (slot, End) pairs loaded so far in this process
    taken: set<(nat, Record)>,      // row snapshots taken so far in this process
    loads: set<Rows>,               // whole records some operator request has loaded
    phase: Phase,
    outs: seq<seq<byte>>)           // every file put in place of the destination, in order

  datatype Event =
    | Work(a: Action)                                     // a step of the run
    | LoadEnd(i: nat)                                     // first half of reading a row from the live plan
    | Snapshot(i: nat, end: int, n: int)                  // second half, with a counter no newer than the slot's
    | Persist(k: nat, r: Record)                          // upsert one row
    | LoadAll                                             // an operator request loads the record
    | SaveAll(m: Rows)                                    // and saves it back, segments included
    | Kill
    | Truncate(size: nat)                                 // the part file is cut short from outside between two runs
    | Discard                                             // a Restart or Delete removes the part file
    | Replan(knobs: Knobs, plan: seq<Segment>)            // the first run after a Restart has reset the record
    | Resume(knobs: Knobs, loaded: seq<Segment>, layout: seq<Segment>)
    | Fail(saved: bool)                                   // the run ended without passing the gate
    | Gate                                                // the run passed the gate
    | Refuse(saved: bool)                                 // the fsync, the close or the rename failed
    | Remove                                              // the checksum was wrong, and the part file is removed
    | Rename                                              // the part file is put in place
    | SaveFinal(saved: bool)                              // the record is saved as completed, or as failed

  function FileOf(p: Phase): seq<byte> {
    match p
    case Down(f) => f
    case Running(_, st) => st.file
    case Gated(_, f) => f
    case Emptied(_) => []
  }

  /** The store's rows in index order, as loaded. */
  ghost predicate Lists(rows: Rows, loaded: seq<Segment>) {
    && (forall j | 0 <= j < |loaded| ::
          && 0 <= loaded[j].index && loaded[j].index in rows
          && var r := rows[loaded[j].index]; loaded[j] == Segment(loaded[j].index, r.start, r.end, r.completed))
    && (forall i, j | 0 <= i < j < |loaded| :: loaded[i].index < loaded[j].index)
    && (forall k | k in rows :: exists j | 0 <= j < |loaded| :: loaded[j].index == k)
  }

  /** The rows a wholesale save of a segment slice leaves behind. */
  function RowsOf(segs: seq<Segment>): (rows: Rows)
    ensures forall k: nat :: k in rows <==> k < |segs|
    ensures forall k | k in rows :: rows[k] == Record(segs[k].start, segs[k].end, segs[k].completed)
  {
    if |segs| == 0 then map[]
    else
      var n := |segs| - 1;
      RowsOf(segs[..n])[n := Record(segs[n].start, segs[n].end, segs[n].completed)]
  }

  /** What a loaded layout covers: the whole file, unless it is a lone row, which repair does not touch. */
  function Cover(total: int, layout: seq<Segment>): int {
    if |layout| == 1 then layout[0].end + 1 else total
  }

  /** The configuration of one run: maxSlots never falls below the initial count. */
  function RunConfig(remote: seq<byte>, knobs: Knobs, layout: seq<Segment>): Config {
    Config(remote, Cover(|remote|, layout), |layout|,
           if knobs.maxSegments > |layout| then knobs.maxSegments else |layout|,
           knobs.floor, knobs.margin, knobs.retries, knobs.workers)
  }

  ghost predicate Enabled(remote: seq<byte>, y: Sys, e: Event) {
    match e
    case Work(a) => y.phase.Running? && Shape(y.phase.st) && Protocol.Enabled(y.phase.c, y.phase.st, a)
    case LoadEnd(i) => y.phase.Running? && i < |y.phase.st.ends|
    case Snapshot(i, end, n) =>
      && y.phase.Running? && Shape(y.phase.st) && i < |y.phase.st.starts|
      && (i, end) in y.seen && 0 <= n <= y.phase.st.completed[i]
    case Persist(k, r) => (k, r) in y.taken
    case LoadAll => true
    case SaveAll(m) => m in y.loads
    case Kill => true
    case Truncate(size) => y.phase.Down? && size <= |y.phase.file|
    case Discard => y.phase.Down?
    case Replan(knobs, plan) => y.phase.Down? && knobs.Valid() && FreshLayout(|remote|, plan)
    case Resume(knobs, loaded, layout) =>
      && y.phase.Down? && knobs.Valid() && Lists(y.rows, loaded)
      && IsReconciled(|remote|, loaded, |y.phase.file|, layout)
    case Fail(_) => y.phase.Running? && Shape(y.phase.st) && Quiet(y.phase.st)
    case Gate =>
      && y.phase.Running? && Shape(y.phase.st)
      && (forall w | 0 <= w < |y.phase.st.workers| :: y.phase.st.workers[w].Exited?)
      && GateOpen(|remote|, ActiveSegments(y.phase.st), y.phase.st.completed)
    case Refuse(_) => y.phase.Gated?
    case Remove => y.phase.Gated?
    case Rename => y.phase.Gated?
    case SaveFinal(_) => y.phase.Emptied?
  }

  ghost function Step(remote: seq<byte>, y: Sys, e: Event): Sys
    requires Enabled(remote, y, e)
  {
    match e
    case Work(a) => y.(phase := Running(y.phase.c, Protocol.Apply(y.phase.c, y.phase.st, a)))
    case LoadEnd(i) => y.(seen := y.seen + {(i, y.phase.st.ends[i])})
    case Snapshot(i, end, n) => y.(taken := y.taken + {(i, Record(y.phase.st.starts[i], end, n))})
    case Persist(k, r) => y.(rows := y.rows[k := r])
    case LoadAll => y.(loads := y.loads + {y.rows})
    case SaveAll(m) => y.(rows := m)
    case Kill => y.(seen := {}, taken := {}, loads := {}, phase := Down(FileOf(y.phase)))
    case Truncate(size) => y.(phase := Down(y.phase.file[..size]))
    case Discard => y.(phase := Down([]))
    case Replan(knobs, plan) => y.(rows := RowsOf(plan), phase := Started(remote, knobs, plan, y.phase.file))
    case Resume(knobs, loaded, layout) => y.(phase := Started(remote, knobs, layout, y.phase.file))
    case Fail(saved) =>
      y.(rows := if saved then RowsOf(ActiveSegments(y.phase.st)) else y.rows,
         seen := {}, taken := {}, phase := Down(y.phase.st.file))
    case Gate =>
      y.(seen := {}, taken := {}, phase := Gated(RowsOf(ActiveSegments(y.phase.st)), y.phase.st.file))
    case Refuse(saved) =>
      y.(rows := if saved then y.phase.final else y.rows, phase := Down(y.phase.file))
    case Remove => y.(phase := Emptied(y.phase.final))
    case Rename => y.(phase := Emptied(y.phase.final), outs := y.outs + [y.phase.file])
    case SaveFinal(saved) => y.(rows := if saved then y.phase.final else y.rows, phase := Down([]))
  }

  /** A run over this layout, on a part file grown to its full size. */
  function Started(remote: seq<byte>, knobs: Knobs, layout: seq<Segment>, file: seq<byte>): Phase {
    var c := RunConfig(remote, knobs, layout);
    Running(c, Init(c, layout, Grown(file, |remote|)))
  }

  /** The first run: a fresh plan, saved with all counters zero, over a part file of arbitrary content. */
  ghost predicate Begins(remote: seq<byte>, y: Sys, knobs: Knobs, plan: seq<Segment>, file: seq<byte>) {
    && knobs.Valid() && FreshLayout(|remote|, plan) && |remote| <= |file|
    && var c := RunConfig(remote, knobs, plan);
       y == Sys(RowsOf(plan), {}, {}, {}, Running(c, Init(c, plan, file)), [])
  }

  ghost predicate ValidHistory(remote: seq<byte>, y: Sys, es: seq<Event>)
    decreases |es|
  {
    es == [] || (Enabled(remote, y, es[0]) && ValidHistory(remote, Step(remote, y, es[0]), es[1..]))
  }

  ghost function AfterAll(remote: seq<byte>, y: Sys, es: seq<Event>): Sys
    requires ValidHistory(remote, y, es)
    decreases |es|
  {
    if es == [] then y else AfterAll(remote, Step(remote, y, es[0]), es[1..])
  }

  // ----- the invariant

  /** The bytes a row claims, as far as the file reaches, are the remote's. */
  ghost predicate Claim(remote: seq<byte>, file: seq<byte>, start: int, n: int) {
    forall p | 0 <= p < |file| && start <= p < start + n && p < |remote| :: file[p] == remote[p]
  }

  predicate Fits(total: int, k: nat, r: Record) {
    && (k == 0 <==> r.start == 0)
    && 0 <= r.start < total && 0 <= r.end < total && 0 <= r.completed && r.start + r.completed <= total
  }

  ghost predicate RecordOk(remote: seq<byte>, file: seq<byte>, k: nat, r: Record) {
    Fits(|remote|, k, r) && Claim(remote, file, r.start, r.completed)
  }

  ghost predicate RowsOk(remote: seq<byte>, file: seq<byte>, rows: Rows) {
    0 in rows && forall k | k in rows :: RecordOk(remote, file, k, rows[k])
  }

  /** The same but for the claims of stale rows. */
  ghost predicate RowsOkBut(remote: seq<byte>, file: seq<byte>, rows: Rows, stale: set<nat>) {
    && 0 in rows
    && forall k | k in rows ::
         Fits(|remote|, k, rows[k]) && (k in stale || Claim(remote, file, rows[k].start, rows[k].completed))
  }

  /** What a run started over a short part file leaves behind it: `stale` are the rows whose claims reached past the
      file's end, as long as they have not been overwritten, and copies[m] those of the copy m of the record that some
      operator request holds. */
  datatype Debt = Debt(stale: set<nat>, copies: map<Rows, set<nat>>) {
    function Of(m: Rows): set<nat> { if m in copies then copies[m] else {} }
  }

  const NONE := Debt({}, map[])

  /** The rows whose counters reconciling lowers. */
  function Clipped(rows: Rows, file: seq<byte>): set<nat> {
    set k | k in rows && rows[k].completed > 0 && rows[k].start + rows[k].completed > |file|
  }

  function NextDebt(y: Sys, d: Debt, e: Event): Debt {
    match e
    case Persist(k, _) => d.(stale := d.stale - {k})
    case LoadAll => d.(copies := d.copies[y.rows := d.stale])
    case SaveAll(m) => d.(stale := d.Of(m))
    case Kill => Debt(d.stale, map[])
    case Resume(_, _, _) => Debt(Clipped(y.rows, FileOf(y.phase)), CopiesClipped(y, d))
    case Replan(_, _) => Debt({}, CopiesClipped(y, d))
    case Fail(saved) => if saved then d.(stale := {}) else d
    case Refuse(saved) => if saved then d.(stale := {}) else d
    case Remove => NONE
    case Rename => NONE
    case Discard => NONE
    case _ => d
  }

  function CopiesClipped(y: Sys, d: Debt): map<Rows, set<nat>> {
    map m | m in y.loads :: d.Of(m) + Clipped(m, FileOf(y.phase))
  }

  /** A debt forbids a resume: no run may trust rows that are still stale. They stop being so when each has been
      overwritten, when the counters are saved as a run ends, and when the part file is taken away, of which nothing is
      claimed any more. */
  predicate Pays(d: Debt, e: Event) {
    e.Resume? ==> d.stale == {}
  }

  ghost predicate SysInv(remote: seq<byte>, y: Sys, d: Debt) {
    var file := FileOf(y.phase);
    && |remote| > 0
    && RowsOkBut(remote, file, y.rows, d.stale)
    && (forall x | x in y.seen :: 0 <= x.1 < |remote|)
    && (forall x | x in y.taken :: RecordOk(remote, file, x.0, x.1))
    && (forall m | m in y.loads :: RowsOkBut(remote, file, m, d.Of(m)))
    && (forall i | 0 <= i < |y.outs| :: remote <= y.outs[i])
    && (!y.phase.Running? ==> y.taken == {} && y.seen == {})
    && match y.phase
       case Down(f) => true
       case Running(c, st) => c.remote == remote && c.cover >= 1 && P.Inv(c, st)
       case Gated(final, f) => remote <= f && RowsOk(remote, f, final)
       case Emptied(final) => RowsOk(remote, [], final)
  }

  /** file2 is file1 with some bytes replaced by the remote's, or cut short. */
  ghost predicate NoByteSpoiled(remote: seq<byte>, file1: seq<byte>, file2: seq<byte>) {
    forall p | 0 <= p < |file2| && p < |remote| :: file2[p] == remote[p] || (p < |file1| && file2[p] == file1[p])
  }

  lemma RowsSurvive(remote: seq<byte>, rows: Rows, stale: set<nat>, file1: seq<byte>, file2: seq<byte>)
    requires RowsOkBut(remote, file1, rows, stale) && NoByteSpoiled(remote, file1, file2)
    ensures RowsOkBut(remote, file2, rows, stale)
  {
  }

  /** What the store and everything in flight claim stays true when no correct byte is spoiled. */
  lemma StoreSurvives(remote: seq<byte>, y: Sys, d: Debt, file2: seq<byte>)
    requires SysInv(remote, y, d) && NoByteSpoiled(remote, FileOf(y.phase), file2)
    ensures RowsOkBut(remote, file2, y.rows, d.stale)
    ensures forall x | x in y.taken :: RecordOk(remote, file2, x.0, x.1)
    ensures forall m | m in y.loads :: RowsOkBut(remote, file2, m, d.Of(m))
  {
    RowsSurvive(remote, y.rows, d.stale, FileOf(y.phase), file2);
    forall m | m in y.loads ensures RowsOkBut(remote, file2, m, d.Of(m)) {
      RowsSurvive(remote, m, d.Of(m), FileOf(y.phase), file2);
    }
  }

  /** Of a part file that is not there nothing is claimed. */
  lemma NothingClaimed(remote: seq<byte>, rows: Rows, stale: set<nat>, file: seq<byte>)
    requires RowsOkBut(remote, file, rows, stale)
    ensures RowsOkBut(remote, [], rows, {})
  {
  }

  // ----- one event

  lemma WorkSpoilsNothing(c: Config, s: State, a: Action)
    requires Shape(s) && Protocol.Enabled(c, s, a)
    ensures NoByteSpoiled(c.remote, s.file, Protocol.Apply(c, s, a).file)
  {
  }

  lemma WorkKeeps(remote: seq<byte>, y: Sys, d: Debt, a: Action)
    requires SysInv(remote, y, d) && Enabled(remote, y, Work(a))
    ensures SysInv(remote, Step(remote, y, Work(a)), d)
  {
    WorkSpoilsNothing(y.phase.c, y.phase.st, a);
    PS.StepKeepsInv(y.phase.c, y.phase.st, a);
    StoreSurvives(remote, y, d, Protocol.Apply(y.phase.c, y.phase.st, a).file);
  }

  /** Live Ends, tentative ones included, stay inside the file. */
  lemma EndsInside(c: Config, s: State, i: nat)
    requires P.Inv(c, s) && c.cover >= 1 && i < |s.starts|
    ensures 0 <= s.ends[i] < |c.remote|
  {
    PR.EndOfRow(c, s, i);
    var eff := Eff(s.ends, s.mu);
    if i == 0 {
      assert Covered(s.starts, eff, 0);
      var j :| 0 <= j < |s.starts| && Has(s.starts, eff, j, 0);
      assert j == 0;
    }
  }

  /** A slot's counter, or any smaller one, is a true claim. */
  lemma SlotClaim(c: Config, s: State, i: nat, end: int, n: int)
    requires P.Inv(c, s) && i < |s.starts| && 0 <= n <= s.completed[i] && 0 <= end < |c.remote|
    ensures RecordOk(c.remote, s.file, i, Record(s.starts[i], end, n))
  {
    assert P.RowOk(c, P.RowOf(s, i), |s.starts| == 1, i < |s.handed|);
    assert P.Agrees(c.remote, s.file, s.starts[i], s.starts[i] + s.wrote[i]);
    assert i >= 1 ==> s.starts[i] > 0;
  }

  /** The counters saved when a run ends are true claims. */
  lemma FinalRows(c: Config, s: State)
    requires P.Inv(c, s) && c.cover >= 1 && Quiet(s)
    ensures RowsOk(c.remote, s.file, RowsOf(ActiveSegments(s)))
  {
    var rows := RowsOf(ActiveSegments(s));
    forall k | k in rows ensures RecordOk(c.remote, s.file, k, rows[k]) {
      EndsInside(c, s, k);
      assert P.RowOk(c, P.RowOf(s, k), |s.starts| == 1, k < |s.handed|);
      SlotClaim(c, s, k, s.ends[k], s.completed[k]);
    }
  }

  lemma FailKeeps(remote: seq<byte>, y: Sys, d: Debt, saved: bool)
    requires SysInv(remote, y, d) && Enabled(remote, y, Fail(saved))
    ensures SysInv(remote, Step(remote, y, Fail(saved)), NextDebt(y, d, Fail(saved)))
  {
    FinalRows(y.phase.c, y.phase.st);
  }

  lemma GateKeeps(remote: seq<byte>, y: Sys, d: Debt)
    requires SysInv(remote, y, d) && Enabled(remote, y, Gate)
    ensures SysInv(remote, Step(remote, y, Gate), d)
  {
    FinalRows(y.phase.c, y.phase.st);
    PF.GateMeansRemote(y.phase.c, y.phase.st);
  }

  /** The part file goes: renamed, removed or discarded. */
  lemma GoneKeeps(remote: seq<byte>, y: Sys, d: Debt, e: Event)
    requires SysInv(remote, y, d) && Enabled(remote, y, e) && (e.Rename? || e.Remove? || e.Discard?)
    ensures SysInv(remote, Step(remote, y, e), NONE)
  {
    NothingClaimed(remote, y.rows, d.stale, FileOf(y.phase));
    forall m | m in y.loads ensures RowsOkBut(remote, [], m, {}) {
      NothingClaimed(remote, m, d.Of(m), FileOf(y.phase));
    }
    if !e.Discard? {
      NothingClaimed(remote, y.phase.final, {}, y.phase.file);
    }
  }

  lemma FinalKeeps(remote: seq<byte>, y: Sys, d: Debt, e: Event)
    requires SysInv(remote, y, d) && Enabled(remote, y, e) && (e.Refuse? || e.SaveFinal?)
    ensures SysInv(remote, Step(remote, y, e), NextDebt(y, d, e))
  {
  }

  // ----- resuming

  /** Any set of two or more rows a crash can leave is repaired into a layout that tiles the whole file. */
  lemma TornRowsTile(remote: seq<byte>, file: seq<byte>, rows: Rows, loaded: seq<Segment>, layout: seq<Segment>)
    requires RowsOk(remote, file, rows) && Lists(rows, loaded) && |loaded| >= 2
    requires IsReconciled(|remote|, loaded, |file|, layout)
    ensures Contiguous(|remote|, Starts(layout), Ends(layout))
    ensures forall i | 1 <= i < |layout| :: layout[i].start > 0
  {
    var repaired :| IsRepair(|remote|, loaded, repaired) && layout == Capped(repaired, |file|);
    TornRowsRepaired(remote, file, rows, loaded, repaired);
    assert Starts(layout) == Starts(repaired) && Ends(layout) == Ends(repaired);
    OneZeroStart(remote, file, rows, loaded, repaired);
  }

  lemma TornRowsRepaired(remote: seq<byte>, file: seq<byte>, rows: Rows, loaded: seq<Segment>, repaired: seq<Segment>)
    requires RowsOk(remote, file, rows) && Lists(rows, loaded) && |loaded| >= 2
    requires IsRepair(|remote|, loaded, repaired)
    ensures Repairable(|remote|, loaded) && Contiguous(|remote|, Starts(repaired), Ends(repaired))
  {
    ListedOk(remote, file, rows, loaded);
    var z :| 0 <= z < |loaded| && loaded[z].index == 0;
    RepairTiles(|remote|, loaded, repaired);
  }

  lemma ListedOk(remote: seq<byte>, file: seq<byte>, rows: Rows, loaded: seq<Segment>)
    requires RowsOk(remote, file, rows) && Lists(rows, loaded)
    ensures forall j | 0 <= j < |loaded| ::
      && 0 <= loaded[j].start < |remote| && 0 <= loaded[j].end < |remote| && 0 <= loaded[j].completed
      && loaded[j].start + loaded[j].completed <= |remote|
      && (loaded[j].start == 0 <==> loaded[j].index == 0)
      && Claim(remote, file, loaded[j].start, loaded[j].completed)
    ensures exists z :: 0 <= z < |loaded| && loaded[z].index == 0
  {
  }

  lemma OneZeroStart(remote: seq<byte>, file: seq<byte>, rows: Rows, loaded: seq<Segment>, repaired: seq<Segment>)
    requires RowsOk(remote, file, rows) && Lists(rows, loaded)
    requires Repairable(|remote|, loaded) && IsRepair(|remote|, loaded, repaired)
    ensures |repaired| == |loaded| && forall i | 1 <= i < |repaired| :: repaired[i].start > 0
  {
    var sorted: seq<Segment> :| SortOf(sorted, loaded) && repaired == Retiled(|remote|, sorted);
    SameElements(sorted, loaded);
    ListedOk(remote, file, rows, loaded);
    SecondStartsLater(loaded, sorted);
  }

  /** Only the row of index 0 starts at byte 0, and a sort puts it first. */
  lemma SecondStartsLater(loaded: seq<Segment>, sorted: seq<Segment>)
    requires SortOf(sorted, loaded) && |sorted| == |loaded| >= 2
    requires forall j | 0 <= j < |loaded| :: 0 <= loaded[j].start && (loaded[j].start == 0 <==> loaded[j].index == 0)
    requires forall i, j | 0 <= i < j < |loaded| :: loaded[i].index < loaded[j].index
    ensures forall i | 1 <= i < |sorted| :: sorted[i].start > 0
  {
    assert sorted[0] in multiset(sorted) && sorted[0] in multiset(loaded);
    var a :| 0 <= a < |loaded| && loaded[a] == sorted[0];
    var b := OtherPosition(loaded, sorted, 0, 1, a);
    assert loaded[a].index != loaded[b].index;
    assert sorted[1].start > 0;
  }

  /** A resumed counter claims no more than some stored row did, and no more than the file backs. */
  lemma ResumedClaim(remote: seq<byte>, file: seq<byte>, rows: Rows, loaded: seq<Segment>, layout: seq<Segment>, i: nat)
    requires RowsOk(remote, file, rows) && Lists(rows, loaded) && IsReconciled(|remote|, loaded, |file|, layout)
    requires i < |layout|
    ensures 0 <= layout[i].start < |remote| && 0 <= layout[i].completed
    ensures P.Agrees(remote, Grown(file, |remote|), layout[i].start, layout[i].start + layout[i].completed)
    ensures |loaded| >= 2 ==> layout[i].completed <= layout[i].Size()
  {
    var repaired :| IsRepair(|remote|, loaded, repaired) && layout == Capped(repaired, |file|);
    ListedOk(remote, file, rows, loaded);
    if Repairable(|remote|, loaded) {
      var j := RepairClaims(|remote|, loaded, repaired, i);
      assert Claim(remote, file, loaded[j].start, loaded[j].completed);
    } else {
      assert Claim(remote, file, loaded[i].start, loaded[i].completed);
    }
  }

  /** Whatever rows a kill left, the layout a resume makes of them is one a run can start from. */
  lemma ResumeStartable(remote: seq<byte>, file: seq<byte>, rows: Rows, knobs: Knobs, loaded: seq<Segment>,
                        layout: seq<Segment>)
    requires RowsOk(remote, file, rows) && Lists(rows, loaded) && IsReconciled(|remote|, loaded, |file|, layout)
    requires knobs.Valid()
    ensures P.Startable(RunConfig(remote, knobs, layout), layout, Grown(file, |remote|))
  {
    ListedOk(remote, file, rows, loaded);
    forall i | 0 <= i < |layout|
      ensures 0 <= layout[i].start < |remote| && 0 <= layout[i].completed
      ensures P.Agrees(remote, Grown(file, |remote|), layout[i].start, layout[i].start + layout[i].completed)
      ensures |loaded| >= 2 ==> layout[i].completed <= layout[i].Size()
    {
      ResumedClaim(remote, file, rows, loaded, layout, i);
    }
    if |loaded| >= 2 {
      TornRowsTile(remote, file, rows, loaded, layout);
      ContiguousTiled(|remote|, Starts(layout), Ends(layout));
      SameLength(remote, file, loaded, layout);
    } else {
      assert loaded == [loaded[0]];
      assert layout == Capped(loaded, |file|);
      ContiguousTiled(layout[0].end + 1, Starts(layout), Ends(layout));
    }
  }

  lemma SameLength(remote: seq<byte>, file: seq<byte>, loaded: seq<Segment>, layout: seq<Segment>)
    requires IsReconciled(|remote|, loaded, |file|, layout)
    ensures |layout| == |loaded|
  {
    var repaired :| IsRepair(|remote|, loaded, repaired) && layout == Capped(repaired, |file|);
    if Repairable(|remote|, loaded) {
      var sorted: seq<Segment> :| SortOf(sorted, loaded) && repaired == Retiled(|remote|, sorted);
      SameElements(sorted, loaded);
    }
  }

  /** No stored claim reaches past the end of the part file, so reconciling lowers no counter. */
  ghost predicate Unclipped(rows: Rows, file: seq<byte>) {
    forall k | k in rows :: rows[k].completed > 0 ==> rows[k].start + rows[k].completed <= |file|
  }

  /** Growing the file leaves every claim true but the clipped ones. */
  lemma GrownClaims(remote: seq<byte>, file: seq<byte>, rows: Rows, stale: set<nat>)
    requires RowsOkBut(remote, file, rows, stale)
    ensures RowsOkBut(remote, Grown(file, |remote|), rows, stale + Clipped(rows, file))
  {
  }

  lemma UnclippedIsNone(rows: Rows, file: seq<byte>)
    ensures Unclipped(rows, file) <==> Clipped(rows, file) == {}
  {
    if !Unclipped(rows, file) {
      var k :| k in rows && rows[k].completed > 0 && rows[k].start + rows[k].completed > |file|;
      assert k in Clipped(rows, file);
    }
  }

  /** Resume grows a short part file before any lowered counter is stored, so a kill right after it leaves a true
      store, whatever the remote bytes are, exactly when no stored claim reached past the file's end. */
  lemma KillAfterResume(total: int, file: seq<byte>, rows: Rows)
    requires exists remote :: |remote| == total && RowsOk(remote, file, rows)
    ensures (forall remote | |remote| == total && RowsOk(remote, file, rows) ::
              RowsOk(remote, Grown(file, total), rows))
      <==> Unclipped(rows, file)
  {
    if Unclipped(rows, file) {
      forall remote | |remote| == total && RowsOk(remote, file, rows) ensures RowsOk(remote, Grown(file, total), rows) {
        UnclippedIsNone(rows, file);
        GrownClaims(remote, file, rows, {});
      }
    } else {
      var k :| k in rows && rows[k].completed > 0 && rows[k].start + rows[k].completed > |file|;
      var any :| |any| == total && RowsOk(any, file, rows);
      var remote: seq<byte> := seq(total, p requires 0 <= p < total => if p < |file| then file[p] else 1);
      forall j | j in rows ensures RecordOk(remote, file, j, rows[j]) {
        assert RecordOk(any, file, j, rows[j]);
      }
      var p := if rows[k].start >= |file| then rows[k].start else |file|;
      assert RecordOk(any, file, k, rows[k]);
      assert Grown(file, total)[p] != remote[p];
      assert !Claim(remote, Grown(file, total), rows[k].start, rows[k].completed);
      assert !RecordOk(remote, Grown(file, total), k, rows[k]);
    }
  }

  /** The copies of the record that are about when a run starts. */
  lemma CopiesKeep(remote: seq<byte>, y: Sys, d: Debt)
    requires SysInv(remote, y, d)
    ensures var file := Grown(FileOf(y.phase), |remote|); var next := Debt({}, CopiesClipped(y, d));
      forall m | m in y.loads :: RowsOkBut(remote, file, m, next.Of(m))
  {
    forall m | m in y.loads
      ensures RowsOkBut(remote, Grown(FileOf(y.phase), |remote|), m, d.Of(m) + Clipped(m, FileOf(y.phase)))
    {
      GrownClaims(remote, FileOf(y.phase), m, d.Of(m));
    }
  }

  lemma ResumeKeeps(remote: seq<byte>, y: Sys, d: Debt, knobs: Knobs, loaded: seq<Segment>, layout: seq<Segment>)
    requires SysInv(remote, y, d) && Enabled(remote, y, Resume(knobs, loaded, layout)) && d.stale == {}
    ensures var e := Resume(knobs, loaded, layout); SysInv(remote, Step(remote, y, e), NextDebt(y, d, e))
  {
    var file := y.phase.file;
    var c := RunConfig(remote, knobs, layout);
    ResumeStartable(remote, file, y.rows, knobs, loaded, layout);
    P.InitInv(c, layout, Grown(file, |remote|));
    GrownClaims(remote, file, y.rows, {});
    CopiesKeep(remote, y, d);
  }

  lemma ReplanKeeps(remote: seq<byte>, y: Sys, d: Debt, knobs: Knobs, plan: seq<Segment>)
    requires SysInv(remote, y, d) && Enabled(remote, y, Replan(knobs, plan))
    ensures var e := Replan(knobs, plan); SysInv(remote, Step(remote, y, e), NextDebt(y, d, e))
  {
    var file := Grown(y.phase.file, |remote|);
    PlanStartable(remote, knobs, plan, file);
    P.InitInv(RunConfig(remote, knobs, plan), plan, file);
    PlanRows(remote, file, plan);
    CopiesKeep(remote, y, d);
  }

  lemma SnapshotKeeps(remote: seq<byte>, y: Sys, d: Debt, i: nat, end: int, n: int)
    requires SysInv(remote, y, d) && Enabled(remote, y, Snapshot(i, end, n))
    ensures SysInv(remote, Step(remote, y, Snapshot(i, end, n)), d)
  {
    assert 0 <= (i, end).1 < |remote|;
    SlotClaim(y.phase.c, y.phase.st, i, end, n);
  }

  /** The store's own events: upserts, whole records loaded and saved back. */
  lemma StoreKeeps(remote: seq<byte>, y: Sys, d: Debt, e: Event)
    requires SysInv(remote, y, d) && Enabled(remote, y, e) && (e.Persist? || e.LoadAll? || e.SaveAll?)
    ensures SysInv(remote, Step(remote, y, e), NextDebt(y, d, e))
  {
  }

  lemma TruncateKeeps(remote: seq<byte>, y: Sys, d: Debt, size: nat)
    requires SysInv(remote, y, d) && Enabled(remote, y, Truncate(size))
    ensures SysInv(remote, Step(remote, y, Truncate(size)), d)
  {
    StoreSurvives(remote, y, d, y.phase.file[..size]);
  }

  /** The events of a run, and those in which it ends. */
  predicate OfRun(e: Event) { e.Work? || e.LoadEnd? || e.Snapshot? || e.Resume? || e.Replan? }

  predicate EndsRun(e: Event) { e.Fail? || e.Gate? || e.Refuse? || e.SaveFinal? }

  lemma RunKeeps(remote: seq<byte>, y: Sys, d: Debt, e: Event)
    requires SysInv(remote, y, d) && Enabled(remote, y, e) && Pays(d, e) && OfRun(e)
    ensures SysInv(remote, Step(remote, y, e), NextDebt(y, d, e))
  {
    match e
    case Work(a) => WorkKeeps(remote, y, d, a);
    case LoadEnd(i) => EndsInside(y.phase.c, y.phase.st, i);
    case Snapshot(i, end, n) => SnapshotKeeps(remote, y, d, i, end, n);
    case Resume(knobs, loaded, layout) => ResumeKeeps(remote, y, d, knobs, loaded, layout);
    case Replan(knobs, plan) => ReplanKeeps(remote, y, d, knobs, plan);
  }

  lemma EndsKeep(remote: seq<byte>, y: Sys, d: Debt, e: Event)
    requires SysInv(remote, y, d) && Enabled(remote, y, e) && EndsRun(e)
    ensures SysInv(remote, Step(remote, y, e), NextDebt(y, d, e))
  {
    match e
    case Fail(saved) => FailKeeps(remote, y, d, saved);
    case Gate => GateKeeps(remote, y, d);
    case _ => FinalKeeps(remote, y, d, e);
  }

  lemma EventKeeps(remote: seq<byte>, y: Sys, d: Debt, e: Event)
    requires SysInv(remote, y, d) && Enabled(remote, y, e) && Pays(d, e)
    ensures SysInv(remote, Step(remote, y, e), NextDebt(y, d, e))
  {
    if OfRun(e) {
      RunKeeps(remote, y, d, e);
    } else if EndsRun(e) {
      EndsKeep(remote, y, d, e);
    } else {
      OutsideKeeps(remote, y, d, e);
    }
  }

  lemma OutsideKeeps(remote: seq<byte>, y: Sys, d: Debt, e: Event)
    requires SysInv(remote, y, d) && Enabled(remote, y, e) && !OfRun(e) && !EndsRun(e)
    ensures SysInv(remote, Step(remote, y, e), NextDebt(y, d, e))
  {
    match e
    case Kill =>
    case Truncate(size) => TruncateKeeps(remote, y, d, size);
    case Rename => GoneKeeps(remote, y, d, e);
    case Remove => GoneKeeps(remote, y, d, e);
    case Discard => GoneKeeps(remote, y, d, e);
    case _ => StoreKeeps(remote, y, d, e);
  }

  lemma BeginInv(remote: seq<byte>, y: Sys, knobs: Knobs, plan: seq<Segment>, file: seq<byte>)
    requires Begins(remote, y, knobs, plan, file) && |remote| > 0
    ensures SysInv(remote, y, NONE) && |FileOf(y.phase)| >= |remote|
  {
    var c := RunConfig(remote, knobs, plan);
    PlanStartable(remote, knobs, plan, file);
    P.InitInv(c, plan, file);
    PlanRows(remote, file, plan);
  }

  lemma PlanRows(remote: seq<byte>, file: seq<byte>, plan: seq<Segment>)
    requires |remote| > 0 && FreshLayout(|remote|, plan)
    ensures RowsOk(remote, file, RowsOf(plan))
  {
    PlanStarts(|remote|, plan);
    var rows := RowsOf(plan);
    forall k | k in rows ensures RecordOk(remote, file, k, rows[k]) {
    }
  }

  lemma PlanStartable(remote: seq<byte>, knobs: Knobs, plan: seq<Segment>, file: seq<byte>)
    requires |remote| > 0 && knobs.Valid() && FreshLayout(|remote|, plan) && |remote| <= |file|
    ensures P.Startable(RunConfig(remote, knobs, plan), plan, file)
  {
    ContiguousTiled(|remote|, Starts(plan), Ends(plan));
    PlanStarts(|remote|, plan);
  }

  lemma PlanStarts(total: int, plan: seq<Segment>)
    requires total > 0 && FreshLayout(total, plan)
    ensures forall i | 0 <= i < |plan| :: 0 <= plan[i].start <= plan[i].end < total
    ensures forall i | 1 <= i < |plan| :: plan[i].start > 0
  {
    ContiguousTiled(total, Starts(plan), Ends(plan));
    forall i | 0 <= i < |plan|
      ensures 0 <= plan[i].start <= plan[i].end < total && (i >= 1 ==> plan[i].start > 0)
    {
      assert 0 <= Starts(plan)[i] <= Ends(plan)[i] + 1 <= total;
      if i >= 1 { ContiguousOrder(total, Starts(plan), Ends(plan), 0, i); }
    }
  }

  // ----- whole histories

  /** Every debt that a run started over a short or missing part file runs up is paid. */
  ghost predicate DebtsPaid(remote: seq<byte>, y: Sys, d: Debt, es: seq<Event>)
    requires ValidHistory(remote, y, es)
    decreases |es|
  {
    es == [] || (Pays(d, es[0]) && DebtsPaid(remote, Step(remote, y, es[0]), NextDebt(y, d, es[0]), es[1..]))
  }

  ghost function DebtAfter(remote: seq<byte>, y: Sys, d: Debt, es: seq<Event>): Debt
    requires ValidHistory(remote, y, es)
    decreases |es|
  {
    if es == [] then d else DebtAfter(remote, Step(remote, y, es[0]), NextDebt(y, d, es[0]), es[1..])
  }

  lemma {:induction false} HistoryKeeps(remote: seq<byte>, y: Sys, d: Debt, es: seq<Event>)
    requires SysInv(remote, y, d) && ValidHistory(remote, y, es) && DebtsPaid(remote, y, d, es)
    ensures SysInv(remote, AfterAll(remote, y, es), DebtAfter(remote, y, d, es))
    decreases |es|
  {
    if es == [] {
    } else {
      EventKeeps(remote, y, d, es[0]);
      HistoryKeeps(remote, Step(remote, y, es[0]), NextDebt(y, d, es[0]), es[1..]);
    }
  }

  /** The history es leads from y to z. */
  ghost predicate Leads(remote: seq<byte>, y: Sys, es: seq<Event>, z: Sys) {
    ValidHistory(remote, y, es) && AfterAll(remote, y, es) == z
  }

  /** However often the process is killed, between any two steps, the renaming of the part file and the saving of the
      record included; however often the download is resumed, finished, found corrupt or restarted; however the part
      file is cut short between two runs, and however the rows were torn, stale, tentative, renumbered or saved back
      from an old copy: as long as debts are paid, every file put in place begins with the remote file. */
  lemma ResumedDownloadIsExact(remote: seq<byte>, knobs: Knobs, plan: seq<Segment>, file: seq<byte>, y: Sys,
                               es: seq<Event>, z: Sys, i: nat)
    requires |remote| > 0 && Begins(remote, y, knobs, plan, file)
    requires Leads(remote, y, es, z) && DebtsPaid(remote, y, NONE, es) && i < |z.outs|
    ensures remote <= z.outs[i]
  {
    BeginInv(remote, y, knobs, plan, file);
    HistoryKeeps(remote, y, NONE, es);
  }

  /** At every point of such a history each stored row, except the stale ones still to be overwritten, claims only
      bytes already fetched. */
  lemma RowsClaimOnlyFetched(remote: seq<byte>, knobs: Knobs, plan: seq<Segment>, file: seq<byte>, y: Sys,
                             es: seq<Event>, z: Sys, k: nat)
    requires |remote| > 0 && Begins(remote, y, knobs, plan, file)
    requires Leads(remote, y, es, z) && DebtsPaid(remote, y, NONE, es)
    requires k in z.rows && k !in DebtAfter(remote, y, NONE, es).stale
    ensures RecordOk(remote, FileOf(z.phase), k, z.rows[k])
  {
    BeginInv(remote, y, knobs, plan, file);
    HistoryKeeps(remote, y, NONE, es);
  }

  // ----- when no debt is run up

  /** Every run that starts finds the part file at its full size. */
  ghost predicate FoundWhole(remote: seq<byte>, y: Sys, es: seq<Event>)
    requires ValidHistory(remote, y, es)
    decreases |es|
  {
    es == [] ||
    ((StartsRun(es[0]) ==> |FileOf(y.phase)| >= |remote|) && FoundWhole(remote, Step(remote, y, es[0]), es[1..]))
  }

  predicate StartsRun(e: Event) { e.Resume? || e.Replan? }

  predicate NoDebt(d: Debt) { d.stale == {} && forall m | m in d.copies :: d.copies[m] == {} }

  lemma LongEnough(remote: seq<byte>, file: seq<byte>, rows: Rows, stale: set<nat>)
    requires RowsOkBut(remote, file, rows, stale) && |file| >= |remote|
    ensures Clipped(rows, file) == {}
  {
  }

  /** Over a file that is long enough no run starts with a debt. */
  lemma NoNewDebt(remote: seq<byte>, y: Sys, d: Debt, e: Event)
    requires SysInv(remote, y, d) && NoDebt(d) && Enabled(remote, y, e)
    requires StartsRun(e) ==> |FileOf(y.phase)| >= |remote|
    ensures NoDebt(NextDebt(y, d, e))
  {
    if StartsRun(e) {
      LongEnough(remote, FileOf(y.phase), y.rows, d.stale);
      forall m | m in y.loads ensures d.Of(m) + Clipped(m, FileOf(y.phase)) == {} {
        LongEnough(remote, FileOf(y.phase), m, d.Of(m));
      }
    }
  }

  lemma {:induction false} WholeRunsNoDebt(remote: seq<byte>, y: Sys, d: Debt, es: seq<Event>)
    requires SysInv(remote, y, d) && NoDebt(d) && ValidHistory(remote, y, es) && FoundWhole(remote, y, es)
    ensures DebtsPaid(remote, y, d, es)
    decreases |es|
  {
    if es == [] {
    } else {
      NoNewDebt(remote, y, d, es[0]);
      EventKeeps(remote, y, d, es[0]);
      WholeRunsNoDebt(remote, Step(remote, y, es[0]), NextDebt(y, d, es[0]), es[1..]);
    }
  }

  /** When every run finds the part file at its full size, no other condition is needed: kill the process between any
      two steps, any number of times. */
  lemma KilledDownloadIsExact(remote: seq<byte>, knobs: Knobs, plan: seq<Segment>, file: seq<byte>, y: Sys,
                              es: seq<Event>, z: Sys, i: nat)
    requires |remote| > 0 && Begins(remote, y, knobs, plan, file)
    requires Leads(remote, y, es, z) && FoundWhole(remote, y, es) && i < |z.outs|
    ensures remote <= z.outs[i]
  {
    BeginInv(remote, y, knobs, plan, file);
    WholeRunsNoDebt(remote, y, NONE, es);
    ResumedDownloadIsExact(remote, knobs, plan, file, y, es, z, i);
  }

  /** The events that take the part file away or cut it short. */
  predicate Shortens(e: Event) { e.Truncate? || e.Discard? || e.Remove? || e.Rename? }

  lemma FileStaysLong(remote: seq<byte>, y: Sys, e: Event)
    requires |FileOf(y.phase)| >= |remote| && !y.phase.Emptied? && Enabled(remote, y, e) && !Shortens(e)
    ensures var z := Step(remote, y, e); |FileOf(z.phase)| >= |remote| && !z.phase.Emptied?
  {
    if e.Work? { WorkKeepsLength(y.phase.c, y.phase.st, e.a); }
  }

  lemma WorkKeepsLength(c: Config, s: State, a: Action)
    requires Shape(s) && Protocol.Enabled(c, s, a)
    ensures |Protocol.Apply(c, s, a).file| == |s.file|
  {
  }

  lemma {:induction false} UntouchedIsWhole(remote: seq<byte>, y: Sys, es: seq<Event>)
    requires |FileOf(y.phase)| >= |remote| && !y.phase.Emptied? && ValidHistory(remote, y, es)
    requires forall e | e in es :: !Shortens(e)
    ensures FoundWhole(remote, y, es)
    decreases |es|
  {
    if es == [] {
    } else {
      assert es[0] in es;
      FileStaysLong(remote, y, es[0]);
      UntouchedIsWhole(remote, Step(remote, y, es[0]), es[1..]);
    }
  }

  /** That is so until the part file is first taken away or cut short: the first one to be put in place is exact. */
  lemma FirstFileIsExact(remote: seq<byte>, knobs: Knobs, plan: seq<Segment>, file: seq<byte>, y: Sys,
                         es: seq<Event>, z: Sys)
    requires |remote| > 0 && Begins(remote, y, knobs, plan, file)
    requires Leads(remote, y, es, z) && z.phase.Gated? && forall e | e in es :: !Shortens(e)
    ensures remote <= z.phase.file
  {
    BeginInv(remote, y, knobs, plan, file);
    UntouchedIsWhole(remote, y, es);
    WholeRunsNoDebt(remote, y, NONE, es);
    HistoryKeeps(remote, y, NONE, es);
  }
}
