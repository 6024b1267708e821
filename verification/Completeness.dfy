/** When a run whose workers all returned without an error is complete (internal/engine/segment.go:112-118). */
module Completeness {
  import opened Tiling
  import opened Layout
  import opened LayoutFacts
  import opened Protocol
  import opened ProtocolInv
  import opened ProtocolSteps
  import opened ProtocolFacts

  /** The body ended, and the unlocked read of the End took a tentative one for the real one. */
  predicate MisledEof(s: State, a: Action)
    requires Shape(s)
  {
    && a.Eof? && On(s, a.w) && s.workers[a.w].Stream?
    && IsDone(s, s.workers[a.w].slot) && InWindow(s, s.workers[a.w].slot)
  }

  ghost predicate NeverMisled(c: Config, s: State, run: seq<Action>)
    requires ValidRun(c, s, run)
    decreases |run|
  {
    run == [] || (!MisledEof(s, run[0]) && NeverMisled(c, Apply(c, s, run[0]), run[1..]))
  }

  // ----- what the invariant of the run leaves open

  /** A flush that does not clip leaves its slot short of the committed End. */
  predicate ShortOk(frontier: int, eff: int, w: Worker) {
    match w
    case Stream(_, _, _) => frontier <= eff
    case Loaded(_, _, _, len, end) => frontier + len <= end ==> frontier + len <= eff
    case Written(_, _, _, n, how, _) => how.More? ==> frontier + n <= eff
    case _ => true
  }

  predicate AllShort(starts: seq<int>, eff: seq<int>, completed: seq<int>, workers: seq<Worker>)
    requires |starts| == |eff| == |completed|
  {
    forall w | 0 <= w < |workers| && 0 <= SlotOf(workers[w]) < |starts| ::
      var k := SlotOf(workers[w]); ShortOk(starts[k] + completed[k], eff[k], workers[w])
  }

  /** A slot that has not been streamed still stands where the thief saw it. */
  predicate SeenOk(mu: Mutex, starts: seq<int>, completed: seq<int>, iters: seq<nat>)
    requires |starts| == |completed| == |iters|
  {
    match mu
    case Scanning(_, _, _, d, from, _) => 0 <= d < |iters| && iters[d] == 0 ==> from == starts[d] + completed[d]
    case Chosen(_, _, d, from, _) => d < |iters| && iters[d] == 0 ==> from == starts[d] + completed[d]
    case Shrunk(_, _, d, from, _, _) => d < |iters| && iters[d] == 0 ==> from == starts[d] + completed[d]
    case Undoing(_, _, d, _) => d < |iters| ==> iters[d] > 0
    case Free => true
  }

  predicate ExitsLate(c: Config, cursor: nat, workers: seq<Worker>) {
    forall w | 0 <= w < |workers| && workers[w].Exited? :: cursor >= c.initial
  }

  ghost predicate Fine(c: Config, s: State) {
    && Inv(c, s)
    && AllShort(s.starts, Eff(s.ends, s.mu), s.completed, s.workers)
    && SeenOk(s.mu, s.starts, s.completed, s.iters)
    && ExitsLate(c, s.cursor, s.workers)
  }

  lemma InitFine(c: Config, segs: seq<Segment>, file: seq<byte>)
    requires Startable(c, segs, file)
    ensures Fine(c, Init(c, segs, file))
  {
    InitInv(c, segs, file);
  }

  lemma ShortMove(starts: seq<int>, eff: seq<int>, completed: seq<int>, workers: seq<Worker>, w: nat, x: Worker)
    requires |starts| == |eff| == |completed| && AllShort(starts, eff, completed, workers) && w < |workers|
    requires 0 <= SlotOf(x) < |starts| ==> ShortOk(starts[SlotOf(x)] + completed[SlotOf(x)], eff[SlotOf(x)], x)
    ensures AllShort(starts, eff, completed, workers[w := x])
  {
  }

  /** A commit cuts behind the donor's in-flight buffer, so what was short stays short. */
  lemma ShortCommit(c: Config, s: State)
    requires Inv(c, s) && Enabled(c, s, Commit) && AllShort(s.starts, Eff(s.ends, s.mu), s.completed, s.workers)
    ensures var t := DoCommit(s); AllShort(t.starts, Eff(t.ends, t.mu), t.completed, t.workers)
  {
    CommitEff(c, s);
    CutIsBehind(c, s);
  }

  /** The donor's worker is short of the cut, too. */
  predicate ShortOf(starts: seq<int>, completed: seq<int>, workers: seq<Worker>, d: nat, mid: int)
    requires d < |starts| == |completed|
  {
    forall w | 0 <= w < |workers| :: SlotOf(workers[w]) < |starts| &&
      (SlotOf(workers[w]) == d ==> ShortOk(starts[d] + completed[d], mid, workers[w]))
  }

  lemma CutIsBehind(c: Config, s: State)
    requires Inv(c, s) && Enabled(c, s, Commit) && s.mu.donor < |s.starts|
    ensures ShortOf(s.starts, s.completed, s.workers, s.mu.donor, s.mu.mid)
  {
    forall w | 0 <= w < |s.workers|
      ensures SlotOf(s.workers[w]) < |s.starts|
      ensures SlotOf(s.workers[w]) == s.mu.donor ==>
        ShortOk(s.starts[s.mu.donor] + s.completed[s.mu.donor], s.mu.mid, s.workers[w])
    {
      assert WorkerOk(c, s, s.workers[w]);
    }
  }

  lemma ShortStep(c: Config, s: State, a: Action)
    requires Inv(c, s) && Enabled(c, s, a) && AllShort(s.starts, Eff(s.ends, s.mu), s.completed, s.workers)
    ensures var t := Apply(c, s, a); Shape(t) && AllShort(t.starts, Eff(t.ends, t.mu), t.completed, t.workers)
  {
    if a.Commit? {
      ShortCommit(c, s);
    } else if a.Publish? {
      ShortPublished(c, s, a.w);
    } else if WorkerActs(a) {
      ShortWorker(c, s, a);
    } else {
      ShortThief(c, s, a);
    }
  }

  lemma ShortThief(c: Config, s: State, a: Action)
    requires Inv(c, s) && Enabled(c, s, a) && AllShort(s.starts, Eff(s.ends, s.mu), s.completed, s.workers)
    requires !WorkerActs(a) && !a.Commit?
    ensures var t := Apply(c, s, a); Shape(t) && AllShort(t.starts, Eff(t.ends, t.mu), t.completed, t.workers)
  {
    OnlyCommitReshapes(c, s, a);
    ThiefFrame(c, s, a);
  }

  /** The thief moves no counter, and no worker into a slot's write. */
  lemma ThiefFrame(c: Config, s: State, a: Action)
    requires Shape(s) && Enabled(c, s, a) && !WorkerActs(a) && !a.Commit?
    ensures var t := Apply(c, s, a);
      && Shape(t) && t.completed == s.completed && |t.workers| == |s.workers|
      && forall v | 0 <= v < |t.workers| ::
           t.workers[v] == s.workers[v] || t.workers[v].Enter? || SlotOf(t.workers[v]) < 0
  {
  }

  lemma ShortPublished(c: Config, s: State, w: nat)
    requires Shape(s) && SlotsApart(s.workers, |s.handed|) && Enabled(c, s, Publish(w))
    requires AllShort(s.starts, Eff(s.ends, s.mu), s.completed, s.workers)
    ensures var t := DoPublish(c, s, w); AllShort(t.starts, Eff(t.ends, t.mu), t.completed, t.workers)
  {
    var k := s.workers[w].slot;
    var x := DoPublish(c, s, w).workers[w];
  }

  lemma ShortWorker(c: Config, s: State, a: Action)
    requires Inv(c, s) && Enabled(c, s, a) && AllShort(s.starts, Eff(s.ends, s.mu), s.completed, s.workers)
    requires WorkerActs(a) && !a.Publish?
    ensures var t := Apply(c, s, a); Shape(t) && AllShort(t.starts, Eff(t.ends, t.mu), t.completed, t.workers)
  {
    if a.Abort? {
      ShortAborted(c, s, a.w);
    } else {
      var k, r := OwnSlot(c, s, a.w);
      ShortMoved(c, s, a, k, r);
    }
  }

  lemma ShortAborted(c: Config, s: State, w: nat)
    requires Shape(s) && Enabled(c, s, Abort(w)) && AllShort(s.starts, Eff(s.ends, s.mu), s.completed, s.workers)
    ensures var t := Apply(c, s, Abort(w));
      Shape(t) && AllShort(t.starts, Eff(t.ends, t.mu), t.completed, t.workers)
  {
    ShortMove(s.starts, Eff(s.ends, s.mu), s.completed, s.workers, w, Failed);
  }

  lemma ShortMoved(c: Config, s: State, a: Action, k: nat, r: Row)
    requires Shape(s) && Enabled(c, s, a) && AllShort(s.starts, Eff(s.ends, s.mu), s.completed, s.workers)
    requires WorkerActs(a) && !a.Publish? && !a.Abort?
    requires k < |s.starts| && k == SlotOf(s.workers[a.w]) && r == RowOf(s, k) && r.end <= r.eff
    ensures var t := Apply(c, s, a); Shape(t) && AllShort(t.starts, Eff(t.ends, t.mu), t.completed, t.workers)
  {
    ShortMove(s.starts, Eff(s.ends, s.mu), s.completed, s.workers, a.w, Apply(c, s, a).workers[a.w]);
  }

  lemma SeenStep(c: Config, s: State, a: Action)
    requires Inv(c, s) && Enabled(c, s, a) && SeenOk(s.mu, s.starts, s.completed, s.iters)
    ensures var t := Apply(c, s, a); Shape(t) && SeenOk(t.mu, t.starts, t.completed, t.iters)
  {
    match a
    case Publish(w) =>
      var k, r := OwnSlot(c, s, w);
    case Recheck =>
    case ScanSlot =>
    case ScanDone =>
    case Shrink =>
    case _ => SeenElsewhere(c, s, a);
  }

  lemma SeenElsewhere(c: Config, s: State, a: Action)
    requires Shape(s) && Enabled(c, s, a) && SeenOk(s.mu, s.starts, s.completed, s.iters)
    requires !a.Publish? && !a.Recheck? && !a.ScanSlot? && !a.ScanDone? && !a.Shrink?
    ensures var t := Apply(c, s, a); Shape(t) && SeenOk(t.mu, t.starts, t.completed, t.iters)
  {
  }

  lemma StepFine(c: Config, s: State, a: Action)
    requires Fine(c, s) && Enabled(c, s, a)
    ensures Fine(c, Apply(c, s, a))
  {
    StepKeepsInv(c, s, a);
    ShortStep(c, s, a);
    SeenStep(c, s, a);
    LateStep(c, s, a);
  }

  lemma LateStep(c: Config, s: State, a: Action)
    requires Shape(s) && Enabled(c, s, a) && ExitsLate(c, s.cursor, s.workers)
    requires !s.mu.Free? ==> s.cursor >= c.initial
    ensures ExitsLate(c, Apply(c, s, a).cursor, Apply(c, s, a).workers)
  {
  }

  // ----- a slot is let go only when it is full

  ghost predicate Held(s: State, k: nat) {
    exists w :: 0 <= w < |s.workers| && SlotOf(s.workers[w]) == k
  }

  ghost predicate Safe(s: State, k: nat)
    requires Shape(s)
  {
    k < |s.starts| ==> Held(s, k) || Remaining(s, k) <= 0
  }

  ghost predicate AllSafe(s: State)
    requires Shape(s)
  {
    (exists w :: 0 <= w < |s.workers| && s.workers[w].Failed?) || forall k: nat | k < |s.handed| :: Safe(s, k)
  }

  /** isDone on entering a segment is never misled: the slot still stands where the thief saw it, short of the split. */
  lemma EnterTruth(c: Config, s: State, w: nat)
    requires Fine(c, s) && Enabled(c, s, EnterSegment(w)) && IsDone(s, s.workers[w].slot)
    ensures Remaining(s, s.workers[w].slot) <= 0
  {
    var k, r := OwnSlot(c, s, w);
  }

  /** Worker w fails, keeps its slot, or leaves it full. */
  predicate LetsGoFull(s: State, w: nat, x: Worker)
    requires Shape(s) && w < |s.workers|
  {
    var k := SlotOf(s.workers[w]);
    x.Failed? || SlotOf(x) == k || (0 <= k < |s.starts| && Remaining(s, k) <= 0) || k < 0
  }

  lemma SafeMove(s: State, t: State, w: nat)
    requires Shape(s) && Shape(t) && AllSafe(s) && w < |s.workers| == |t.workers|
    requires t.workers == s.workers[w := t.workers[w]] && !s.workers[w].Failed?
    requires t.handed == s.handed && |t.starts| == |s.starts|
    requires forall k: nat | k < |s.starts| :: Remaining(t, k) <= Remaining(s, k)
    requires LetsGoFull(s, w, t.workers[w])
    ensures AllSafe(t)
  {
    if f :| 0 <= f < |s.workers| && s.workers[f].Failed? {
      assert t.workers[f].Failed?;
    } else if !t.workers[w].Failed? {
      forall k: nat | k < |t.handed| ensures Safe(t, k) {
        assert Safe(s, k);
        if k < |s.starts| && Held(s, k) {
          var v :| 0 <= v < |s.workers| && SlotOf(s.workers[v]) == k;
          assert v != w ==> t.workers[v] == s.workers[v];
          assert SlotOf(t.workers[w]) == k ==> Held(t, k);
        }
      }
    }
  }

  /** A slot is handed to worker w, which held none. */
  lemma SafeHand(s: State, t: State, w: nat)
    requires Shape(s) && Shape(t) && AllSafe(s) && w < |s.workers| == |t.workers|
    requires t.workers == s.workers[w := t.workers[w]] && !s.workers[w].Failed? && SlotOf(s.workers[w]) < 0
    requires |t.handed| == |s.handed| + 1 && SlotOf(t.workers[w]) == |s.handed| && |t.starts| >= |s.starts|
    requires |t.starts| == |s.starts| || |s.starts| == |s.handed|
    requires forall k: nat | k < |s.starts| :: Remaining(t, k) <= Remaining(s, k)
    ensures AllSafe(t)
  {
    if f :| 0 <= f < |s.workers| && s.workers[f].Failed? {
      assert t.workers[f].Failed?;
    } else {
      forall k: nat | k < |t.handed| ensures Safe(t, k) {
        if k < |s.handed| {
          assert Safe(s, k);
          if k < |s.starts| && Held(s, k) {
            var v :| 0 <= v < |s.workers| && SlotOf(s.workers[v]) == k;
            assert t.workers[v] == s.workers[v];
          }
        } else {
          assert SlotOf(t.workers[w]) == k;
        }
      }
    }
  }

  lemma RemaindersOnce(c: Config, s: State, a: Action)
    requires Inv(c, s) && Enabled(c, s, a)
    ensures var t := Apply(c, s, a);
      Shape(t) && |t.starts| >= |s.starts| && forall k: nat | k < |s.starts| :: Remaining(t, k) <= Remaining(s, k)
  {
    var t := Apply(c, s, a);
    StepKeepsInv(c, s, a);
    EffShrinks(c, s, a);
    forall k: nat | k < |s.starts| ensures Remaining(t, k) <= Remaining(s, k) {
      RemaindersShrink(c, s, a, k);
    }
  }

  lemma WorkerFrame(c: Config, s: State, a: Action)
    requires Shape(s) && Enabled(c, s, a) && WorkerActs(a)
    ensures var t := Apply(c, s, a);
      && a.w < |s.workers| == |t.workers| && t.workers == s.workers[a.w := t.workers[a.w]]
      && !s.workers[a.w].Failed? && t.handed == s.handed && |t.starts| == |s.starts|
  {
  }

  /** The worker of a worker step, and what it lets go. */
  lemma WorkerLetsGoFull(c: Config, s: State, a: Action)
    requires Fine(c, s) && Enabled(c, s, a) && !MisledEof(s, a) && WorkerActs(a)
    ensures a.w < |s.workers| && LetsGoFull(s, a.w, Apply(c, s, a).workers[a.w])
  {
    match a
    case EnterSegment(w) =>
      if IsDone(s, s.workers[w].slot) { EnterTruth(c, s, w); }
    case Eof(w) => EofLetsGoFull(c, s, w);
    case Settle(w) =>
    case _ => WorkerKeepsSlot(c, s, a);
  }

  lemma EofLetsGoFull(c: Config, s: State, w: nat)
    requires Fine(c, s) && Enabled(c, s, Eof(w)) && !MisledEof(s, Eof(w))
    ensures LetsGoFull(s, w, Apply(c, s, Eof(w)).workers[w])
  {
  }

  lemma WorkerKeepsSlot(c: Config, s: State, a: Action)
    requires Shape(s) && Enabled(c, s, a) && WorkerActs(a) && !a.EnterSegment? && !a.Eof? && !a.Settle?
    ensures var x := Apply(c, s, a).workers[a.w]; x.Failed? || SlotOf(x) == SlotOf(s.workers[a.w])
  {
  }

  lemma SafeStep(c: Config, s: State, a: Action)
    requires Fine(c, s) && AllSafe(s) && Enabled(c, s, a) && !MisledEof(s, a)
    ensures Shape(Apply(c, s, a)) && AllSafe(Apply(c, s, a))
  {
    if WorkerActs(a) {
      SafeWorker(c, s, a);
    } else {
      SafeNext(c, s, a);
    }
  }

  lemma SafeNext(c: Config, s: State, a: Action)
    requires Inv(c, s) && AllSafe(s) && Enabled(c, s, a) && !WorkerActs(a)
    ensures Shape(Apply(c, s, a)) && AllSafe(Apply(c, s, a))
  {
    RemaindersOnce(c, s, a);
    match a
    case NextInitial(w) => SafeHand(s, Apply(c, s, a), w);
    case Commit =>
      HolderIsInNext(s.mu, s.workers);
      SafeHand(s, Apply(c, s, a), s.mu.who);
    case NextSteal(w) => SafeMove(s, Apply(c, s, a), w);
    case _ => SafeThief(c, s, a);
  }

  lemma SafeThief(c: Config, s: State, a: Action)
    requires Inv(c, s) && AllSafe(s) && Enabled(c, s, a)
    requires a.ScanSlot? || a.ScanDone? || a.Shrink? || a.Recheck? || a.Undo?
    ensures Shape(Apply(c, s, a)) && AllSafe(Apply(c, s, a))
  {
    RemaindersOnce(c, s, a);
    HolderIsInNext(s.mu, s.workers);
    SafeMove(s, Apply(c, s, a), s.mu.who);
  }

  lemma SafeWorker(c: Config, s: State, a: Action)
    requires Fine(c, s) && AllSafe(s) && Enabled(c, s, a) && !MisledEof(s, a)
    requires WorkerActs(a)
    ensures Shape(Apply(c, s, a)) && AllSafe(Apply(c, s, a))
  {
    RemaindersOnce(c, s, a);
    WorkerFrame(c, s, a);
    WorkerLetsGoFull(c, s, a);
    SafeMove(s, Apply(c, s, a), a.w);
  }

  // ----- a misled worker strands its slot

  /** Nobody will ever stream slot k again, and it is not full. */
  ghost predicate Stranded(s: State, k: nat)
    requires Shape(s)
  {
    k < |s.handed| && k < |s.starts| && !Held(s, k) && Remaining(s, k) >= 1
  }

  lemma MisledStrands(c: Config, s: State, a: Action)
    requires Fine(c, s) && Enabled(c, s, a) && MisledEof(s, a)
    ensures var t := Apply(c, s, a); Shape(t) && Stranded(t, s.workers[a.w].slot)
  {
    var t := Apply(c, s, a);
    var k, r := OwnSlot(c, s, a.w);
    forall v | 0 <= v < |t.workers| ensures SlotOf(t.workers[v]) != k {
    }
  }

  lemma StrandedStep(c: Config, s: State, a: Action, k: nat)
    requires Inv(c, s) && Enabled(c, s, a) && Stranded(s, k)
    ensures var t := Apply(c, s, a); Shape(t) && Stranded(t, k)
  {
    StaysUnheld(c, s, a, k);
    if a.Commit? {
      CommitEff(c, s);
    } else {
      StrandedElsewhere(c, s, a, k);
    }
  }

  lemma StrandedElsewhere(c: Config, s: State, a: Action, k: nat)
    requires Inv(c, s) && Enabled(c, s, a) && Stranded(s, k) && !a.Commit?
    ensures var t := Apply(c, s, a); Shape(t) && k < |t.starts| && Remaining(t, k) == Remaining(s, k)
  {
    StepKeepsInv(c, s, a);
    OnlyCommitReshapes(c, s, a);
    if a.Publish? {
      assert s.workers[a.w].slot != k;
    } else {
      CountersKept(c, s, a);
    }
  }

  lemma StaysUnheld(c: Config, s: State, a: Action, k: nat)
    requires Inv(c, s) && Enabled(c, s, a) && k < |s.handed| && !Held(s, k)
    ensures !Held(Apply(c, s, a), k) && k < |Apply(c, s, a).handed|
  {
    var t := Apply(c, s, a);
    forall v | 0 <= v < |t.workers| ensures SlotOf(t.workers[v]) != k {
      OnlyTheFirstHands(c, s, a, v);
    }
  }

  /** A worker comes to hold a slot only when next hands it the first one not handed yet. */
  lemma OnlyTheFirstHands(c: Config, s: State, a: Action, v: nat)
    requires Inv(c, s) && Enabled(c, s, a) && v < |Apply(c, s, a).workers|
    ensures var t := Apply(c, s, a);
      && |t.workers| == |s.workers| && |s.handed| <= |t.handed|
      && var k := SlotOf(t.workers[v]); k < 0 || k == SlotOf(s.workers[v]) || k == |s.handed|
  {
    if WorkerActs(a) {
      WorkerFrame(c, s, a);
      WorkerHoldsNoNew(c, s, a);
    }
  }

  lemma WorkerHoldsNoNew(c: Config, s: State, a: Action)
    requires Shape(s) && Enabled(c, s, a) && WorkerActs(a)
    ensures var x := Apply(c, s, a).workers[a.w]; SlotOf(x) < 0 || SlotOf(x) == SlotOf(s.workers[a.w])
  {
  }

  // ----- whole runs

  lemma {:induction false} SafeRun(c: Config, s: State, run: seq<Action>)
    requires Fine(c, s) && AllSafe(s) && ValidRun(c, s, run) && NeverMisled(c, s, run)
    ensures var t := After(c, s, run); Fine(c, t) && AllSafe(t)
    decreases |run|
  {
    if run == [] {
    } else {
      StepFine(c, s, run[0]);
      SafeStep(c, s, run[0]);
      SafeRun(c, Apply(c, s, run[0]), run[1..]);
    }
  }

  lemma {:induction false} StrandedRun(c: Config, s: State, run: seq<Action>, k: nat)
    requires Inv(c, s) && Stranded(s, k) && ValidRun(c, s, run)
    ensures var t := After(c, s, run); Shape(t) && Stranded(t, k)
    decreases |run|
  {
    if run == [] {
    } else {
      StepKeepsInv(c, s, run[0]);
      StrandedStep(c, s, run[0], k);
      StrandedRun(c, Apply(c, s, run[0]), run[1..], k);
    }
  }

  lemma {:induction false} MisledRun(c: Config, s: State, run: seq<Action>) returns (k: nat)
    requires Fine(c, s) && ValidRun(c, s, run) && !NeverMisled(c, s, run)
    ensures var t := After(c, s, run); Shape(t) && Stranded(t, k)
    decreases |run|
  {
    StepFine(c, s, run[0]);
    if MisledEof(s, run[0]) {
      k := s.workers[run[0].w].slot;
      MisledStrands(c, s, run[0]);
      StrandedRun(c, Apply(c, s, run[0]), run[1..], k);
    } else {
      k := MisledRun(c, Apply(c, s, run[0]), run[1..]);
    }
  }

  /** A stranded slot keeps the gate shut. */
  lemma StrandedIsRefused(c: Config, s: State, k: nat)
    requires Inv(c, s) && Quiet(s) && Stranded(s, k)
    ensures !GateOpen(|c.remote|, ActiveSegments(s), s.completed)
  {
    QuietIsFree(c, s);
    assert 0 <= s.starts[k];
    assert RowOk(c, RowOf(s, k), |s.starts| == 1, k < |s.handed|);
    assert ActiveSegments(s)[k].Size() > s.completed[k];
  }

  /** Workers that all exited over slots let go only when full leave a complete layout. */
  lemma SafeIsComplete(c: Config, s: State)
    requires Fine(c, s) && AllSafe(s) && c.cover == |c.remote| > 0
    requires forall w | 0 <= w < |s.workers| :: s.workers[w].Exited?
    ensures GateOpen(|c.remote|, ActiveSegments(s), s.completed)
  {
    QuietIsFree(c, s);
    assert s.workers[0].Exited?;
    forall k | 0 <= k < |s.starts| ensures s.completed[k] == s.ends[k] - s.starts[k] + 1 {
      assert Safe(s, k);
      FullRow(c, s, k);
    }
    var segs := ActiveSegments(s);
    assert Starts(segs) == s.starts && Ends(segs) == s.ends;
    GateExact(|c.remote|, segs, s.completed);
  }

  lemma FullRow(c: Config, s: State, k: nat)
    requires Inv(c, s) && s.mu.Free? && k < |s.starts| && c.cover == |c.remote| && Remaining(s, k) <= 0
    ensures 0 <= s.completed[k] == s.ends[k] - s.starts[k] + 1
  {
    assert RowOk(c, RowOf(s, k), |s.starts| == 1, k < |s.handed|);
    if |s.starts| == 1 {
      assert s.starts[..0] == [] && s.ends[..0] == [];
      assert SumSizes(s.starts, s.ends) == s.ends[0] - s.starts[0] + 1;
    }
  }

  /** A run over the whole file whose workers all exited without an error passes the gate if and only if no worker
      ever took a tentative End for the real one at the end of a body. */
  lemma NoErrorIsComplete(c: Config, segs: seq<Segment>, file: seq<byte>, run: seq<Action>)
    requires Startable(c, segs, file) && ValidRun(c, Init(c, segs, file), run) && c.cover == |c.remote|
    requires var t := After(c, Init(c, segs, file), run);
      Shape(t) && forall w | 0 <= w < |t.workers| :: t.workers[w].Exited?
    ensures var t := After(c, Init(c, segs, file), run);
      GateOpen(|c.remote|, ActiveSegments(t), t.completed) <==> NeverMisled(c, Init(c, segs, file), run)
  {
    var s := Init(c, segs, file);
    InitFine(c, segs, file);
    if NeverMisled(c, s, run) {
      SafeRun(c, s, run);
      SafeIsComplete(c, After(c, s, run));
    } else {
      var k := MisledRun(c, s, run);
      ReachableOk(c, segs, file, run);
      StrandedIsRefused(c, After(c, s, run), k);
    }
  }
}
