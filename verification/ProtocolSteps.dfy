/** Every step of the work-stealing run keeps the invariant. */
module ProtocolSteps {
  import opened Tiling
  import opened Protocol
  import opened ProtocolInv
  import opened ProtocolFrames

  /** A step that only moves one worker's program point. */
  lemma PcStep(c: Config, s: State, w: nat, x: Worker)
    requires Inv(c, s) && w < |s.workers|
    requires !s.workers[w].InNext? && !s.workers[w].Exited? && !x.InNext? && !x.Exited?
    requires SlotOf(x) < 0 || SlotOf(x) == SlotOf(s.workers[w])
    requires WorkerOk(c, s, x)
    ensures Inv(c, SetWorker(s, w, x))
  {
    var t := SetWorker(s, w, x);
    DispatchMove(c, |s.starts|, s.cursor, s.mu, s.workers, s.handed, s.calls, w, x);
    assert forall k: nat | k < |s.starts| :: RowOf(t, k) == RowOf(s, k);
    SameRows(c, s, t, w);
  }

  /** The slot of worker w and what the invariant says of it. */
  lemma OwnSlot(c: Config, s: State, w: nat) returns (k: nat, r: Row)
    requires Inv(c, s) && On(s, w)
    ensures k < |s.starts| && SlotOf(s.workers[w]) == k && r == RowOf(s, k)
    ensures k < |s.handed| && RowOk(c, r, |s.starts| == 1, true) && PcOk(c, r, s.workers[w])
    ensures r.end <= r.eff < |c.remote| && (!r.open ==> r.end == r.eff) && 0 <= r.start
  {
    k := SlotOf(s.workers[w]);
    r := RowOf(s, k);
    assert WorkerOk(c, s, s.workers[w]);
    assert RowOk(c, r, |s.starts| == 1, k < |s.handed|);
    EndOfRow(c, s, k);
  }

  // ----- handing out slots

  lemma StepNextInitial(c: Config, s: State, w: nat)
    requires Inv(c, s) && Enabled(c, s, NextInitial(w))
    ensures Inv(c, Apply(c, s, NextInitial(w)))
  {
    var t := Apply(c, s, NextInitial(w));
    DispatchInitial(c, |s.starts|, s.cursor, s.workers, s.handed, s.calls, w);
    InitialRows(c, s, t, w);
  }

  lemma InitialRows(c: Config, s: State, t: State, w: nat)
    requires Shape(s) && RowsOk(c, s) && WorkersOk(c, s) && w < |s.workers|
    requires s.cursor == |s.handed| < |s.starts|
    requires t == s.(cursor := s.cursor + 1, handed := s.handed + [s.cursor], calls := s.calls + 1,
                     workers := s.workers[w := Enter(s.cursor)])
    ensures RowsOk(c, t) && WorkersOk(c, t)
  {
    assert RowOk(c, RowOf(s, s.cursor), |s.starts| == 1, s.cursor < |s.handed|);
    forall j | 0 <= j < |t.starts|
      ensures RowOk(c, RowOf(t, j), |t.starts| == 1, j < |t.handed|)
    {
      assert RowOf(t, j) == RowOf(s, j);
      assert RowOk(c, RowOf(s, j), |s.starts| == 1, j < |s.handed|);
    }
    forall v | 0 <= v < |t.workers|
      ensures WorkerOk(c, t, t.workers[v])
    {
      var wk := t.workers[v];
      assert v != w ==> WorkerOk(c, s, wk);
      assert 0 <= SlotOf(wk) < |s.starts| ==> RowOf(t, SlotOf(wk)) == RowOf(s, SlotOf(wk));
    }
  }

  lemma StepNextSteal(c: Config, s: State, w: nat)
    requires Inv(c, s) && Enabled(c, s, NextSteal(w))
    ensures Inv(c, Apply(c, s, NextSteal(w)))
  {
    if |s.starts| < c.max {
      StealBegins(c, s, w);
    } else {
      CeilingReached(c, s, w);
    }
  }

  lemma CeilingReached(c: Config, s: State, w: nat)
    requires Inv(c, s) && Enabled(c, s, NextSteal(w))
    ensures Inv(c, s.(calls := s.calls + 1, workers := s.workers[w := Exited]))
  {
    DispatchExit(c, |s.starts|, s.cursor, s.workers, s.handed, s.calls, w);
    SameRows(c, s, s.(calls := s.calls + 1, workers := s.workers[w := Exited]), w);
  }

  lemma StealBegins(c: Config, s: State, w: nat)
    requires Inv(c, s) && Enabled(c, s, NextSteal(w)) && |s.starts| < c.max
    ensures Inv(c, s.(calls := s.calls + 1, mu := Scanning(w, {}, 0, -1, 0, 0), workers := s.workers[w := InNext]))
  {
    var mu := Scanning(w, {}, 0, -1, 0, 0);
    DispatchAcquire(c, |s.starts|, s.cursor, s.workers, s.handed, s.calls, w, mu);
    SameRows(c, s, s.(calls := s.calls + 1, mu := mu, workers := s.workers[w := InNext]), w);
  }

  // ----- the thief

  /** A step of the mutex holder that opens or closes no window. */
  lemma ThiefStep(c: Config, s: State, mu: Mutex)
    requires Inv(c, s) && !s.mu.Free? && !mu.Free? && mu.who == s.mu.who
    requires Eff(s.ends, mu) == Eff(s.ends, s.mu)
    requires forall k: nat | k < |s.starts| :: InWindow(s.(mu := mu), k) == InWindow(s, k)
    requires MuOk(c, mu, s.cursor, s.settled, s.starts, s.ends, s.completed) && CallsOk(mu, s.undos, s.calls)
    ensures Inv(c, s.(mu := mu))
  {
    DispatchSameHolder(c, |s.starts|, s.cursor, s.mu, mu, s.workers, s.handed, s.calls);
    SameRows(c, s, s.(mu := mu), s.mu.who);
  }

  lemma StepScanSlot(c: Config, s: State)
    requires Inv(c, s) && Enabled(c, s, ScanSlot)
    ensures Inv(c, DoScanSlot(s))
  {
    assert RowOk(c, RowOf(s, s.mu.i), |s.starts| == 1, s.mu.i < |s.handed|);
    ScanSlotMu(c, s);
    ThiefStep(c, s, DoScanSlot(s).mu);
  }

  lemma StepScanDone(c: Config, s: State)
    requires Inv(c, s) && Enabled(c, s, ScanDone)
    ensures Inv(c, Apply(c, s, ScanDone))
  {
    if s.mu.best < 0 || s.mu.rem < 2 * c.floor {
      ScanFails(c, s);
    } else {
      ThiefStep(c, s, Chosen(s.mu.who, s.mu.excluded, s.mu.best, s.mu.from, s.mu.rem));
    }
  }

  lemma ScanFails(c: Config, s: State)
    requires Inv(c, s) && s.mu.Scanning?
    ensures Inv(c, s.(mu := Free, workers := s.workers[s.mu.who := Exited]))
  {
    DispatchRelease(c, |s.starts|, s.cursor, s.mu, s.workers, s.handed, s.calls);
    SameRows(c, s, s.(mu := Free, workers := s.workers[s.mu.who := Exited]), s.mu.who);
  }

  lemma StepShrink(c: Config, s: State)
    requires Inv(c, s) && Enabled(c, s, Shrink)
    ensures Inv(c, Apply(c, s, Shrink))
  {
    var t := Apply(c, s, Shrink);
    assert Eff(t.ends, t.mu) == Eff(s.ends, s.mu);
    DispatchSameHolder(c, |s.starts|, s.cursor, s.mu, t.mu, s.workers, s.handed, s.calls);
    assert forall k: nat | k < |s.starts| && k != s.mu.donor :: RowOf(t, k) == RowOf(s, k);
    WindowRows(c, s, t);
  }

  lemma StepRecheck(c: Config, s: State)
    requires Inv(c, s) && Enabled(c, s, Recheck)
    ensures Inv(c, Apply(c, s, Recheck))
  {
    ThiefStep(c, s, Apply(c, s, Recheck).mu);
  }

  lemma StepUndo(c: Config, s: State)
    requires Inv(c, s) && Enabled(c, s, Undo)
    ensures Inv(c, Apply(c, s, Undo))
  {
    var t := Apply(c, s, Undo);
    assert Eff(t.ends, t.mu) == Eff(s.ends, s.mu);
    DispatchSameHolder(c, |s.starts|, s.cursor, s.mu, t.mu, s.workers, s.handed, s.calls);
    assert forall k: nat | k < |s.starts| && k != s.mu.donor :: RowOf(t, k) == RowOf(s, k);
    WindowRows(c, s, t);
  }

  lemma StepCommit(c: Config, s: State)
    requires Inv(c, s) && Enabled(c, s, Commit)
    ensures Inv(c, DoCommit(s))
  {
    CommitRows(c, s);
    assert RowOk(c, RowOf(s, s.mu.donor), |s.starts| == 1, s.mu.donor < |s.handed|);
    DispatchCommit(c, |s.starts|, s.cursor, s.mu, s.workers, s.handed, s.calls);
    CommitShared(c, s);
  }

  lemma CommitShared(c: Config, s: State)
    requires c.Valid() && Shape(s) && Enabled(c, s, Commit)
    requires MuOk(c, s.mu, s.cursor, s.settled, s.starts, s.ends, s.completed)
    requires LayoutOk(c, s.starts, Eff(s.ends, s.mu))
    requires ClaimsOk(c.remote, s.file, s.starts, s.wrote)
    requires OwnerOk(s.owner, s.starts, s.wrote, Eff(s.ends, s.mu))
    requires s.wrote[s.mu.donor] <= s.completed[s.mu.donor] + c.margin
    ensures var t := DoCommit(s);
      && LayoutOk(c, t.starts, Eff(t.ends, t.mu))
      && ClaimsOk(c.remote, t.file, t.starts, t.wrote)
      && OwnerOk(t.owner, t.starts, t.wrote, Eff(t.ends, t.mu))
  {
    var m := s.mu;
    CommitEff(c, s);
    SplitTiled(c.cover, s.starts, Eff(s.ends, s.mu), m.donor, m.mid);
  }

  lemma CommitEff(c: Config, s: State)
    requires Shape(s) && Enabled(c, s, Commit) && MuOk(c, s.mu, s.cursor, s.settled, s.starts, s.ends, s.completed)
    ensures var t := DoCommit(s);
      Shape(t) && Eff(t.ends, t.mu) == Eff(s.ends, s.mu)[s.mu.donor := s.mu.mid] + [s.mu.oldEnd]
    ensures forall j: nat | j < |s.starts| ::
      RowOf(DoCommit(s), j) == if j == s.mu.donor then RowOf(s, j).(eff := s.mu.mid, open := false) else RowOf(s, j)
  {
  }

  lemma CommitRows(c: Config, s: State)
    requires c.Valid() && Shape(s) && Enabled(c, s, Commit)
    requires MuOk(c, s.mu, s.cursor, s.settled, s.starts, s.ends, s.completed)
    requires RowsOk(c, s) && WorkersOk(c, s) && |s.handed| == |s.starts| >= 1
    ensures Shape(DoCommit(s)) && RowsOk(c, DoCommit(s)) && WorkersOk(c, DoCommit(s))
  {
    var t := DoCommit(s);
    var n, d := |s.starts|, s.mu.donor;
    CommitEff(c, s);
    assert RowOk(c, RowOf(s, d), n == 1, d < |s.handed|);
    forall j | 0 <= j < |t.starts|
      ensures RowOk(c, RowOf(t, j), |t.starts| == 1, j < |t.handed|)
    {
      if j < n {
        assert RowOk(c, RowOf(s, j), n == 1, j < |s.handed|);
        if j == d { CommitPc(c, RowOf(s, d), Idle, s.mu.oldEnd, n == 1, true); }
      }
    }
    forall v | 0 <= v < |t.workers|
      ensures WorkerOk(c, t, t.workers[v])
    {
      if v != s.mu.who {
        var w := s.workers[v];
        assert WorkerOk(c, s, w);
        if SlotOf(w) == d { CommitPc(c, RowOf(s, d), w, s.mu.oldEnd, n == 1, true); }
      }
    }
  }

  // ----- the workers

  lemma StepEnterSegment(c: Config, s: State, w: nat)
    requires Inv(c, s) && Enabled(c, s, EnterSegment(w))
    ensures Inv(c, Apply(c, s, EnterSegment(w)))
  {
    var k, r := OwnSlot(c, s, w);
    PcStep(c, s, w, Apply(c, s, EnterSegment(w)).workers[w]);
  }

  lemma StepRetry(c: Config, s: State, w: nat)
    requires Inv(c, s) && Enabled(c, s, Retry(w))
    ensures Inv(c, Apply(c, s, Retry(w)))
  {
    var k, r := OwnSlot(c, s, w);
    PcStep(c, s, w, Apply(c, s, Retry(w)).workers[w]);
  }

  lemma StepEof(c: Config, s: State, w: nat)
    requires Inv(c, s) && Enabled(c, s, Eof(w))
    ensures Inv(c, Apply(c, s, Eof(w)))
  {
    var k, r := OwnSlot(c, s, w);
    PcStep(c, s, w, Apply(c, s, Eof(w)).workers[w]);
  }

  lemma StepLoad(c: Config, s: State, w: nat, len: int)
    requires Inv(c, s) && Enabled(c, s, Load(w, len))
    ensures Inv(c, Apply(c, s, Load(w, len)))
  {
    var k, r := OwnSlot(c, s, w);
    LoadPc(c, r, k, s.workers[w].attempt, s.workers[w].reqEnd, len, |s.starts| == 1);
    PcStep(c, s, w, DoLoad(s, w, len).workers[w]);
  }

  lemma StepAbort(c: Config, s: State, w: nat)
    requires Inv(c, s) && Enabled(c, s, Abort(w))
    ensures Inv(c, Apply(c, s, Abort(w)))
  {
    PcStep(c, s, w, Failed);
  }

  lemma StepOpen(c: Config, s: State, w: nat)
    requires Inv(c, s) && Enabled(c, s, Open(w))
    ensures Inv(c, DoOpen(s, w))
  {
    var k, r := OwnSlot(c, s, w);
    OpenRow(c, s, w, k, r);
    if Frontier(s, k) > s.ends[k] {
      PcStep(c, s, w, Failed);
    } else {
      OwnStep(c, s, DoOpen(s, w), k, w);
    }
  }

  lemma OpenRow(c: Config, s: State, w: nat, k: nat, r: Row)
    requires Shape(s) && Enabled(c, s, Open(w)) && k == SlotOf(s.workers[w]) && r == RowOf(s, k)
    requires RowOk(c, r, |s.starts| == 1, true) && PcOk(c, r, s.workers[w]) && r.end <= r.eff < |c.remote|
    ensures var t := DoOpen(s, w);
      r.Frontier() <= r.end ==>
        && Shape(t) && OwnChange(s, t, k, w) && RowOk(c, RowOf(t, k), |t.starts| == 1, true)
        && WorkerOk(c, t, t.workers[w]) && t.workers[w].Stream? && SlotOf(t.workers[w]) == k
  {
  }

  /** What a step of worker w on its own slot k may change. */
  ghost predicate OwnChange(s: State, t: State, k: nat, w: nat)
    requires Shape(s) && Shape(t)
  {
    && t.starts == s.starts && t.ends == s.ends && t.mu == s.mu && t.cursor == s.cursor
    && t.handed == s.handed && t.calls == s.calls && t.undos == s.undos
    && w < |s.workers| && k < |s.starts| && SlotOf(s.workers[w]) == k
    && |t.workers| == |s.workers| && t.workers == s.workers[w := t.workers[w]]
    && t.completed == s.completed[k := t.completed[k]] && t.wrote == s.wrote[k := t.wrote[k]]
    && t.frees == s.frees[k := t.frees[k]] && t.iters == s.iters[k := t.iters[k]]
  }

  lemma OwnRows(c: Config, s: State, t: State, k: nat, w: nat)
    requires Shape(s) && RowsOk(c, s) && WorkersOk(c, s) && SlotsApart(s.workers, |s.handed|)
    requires Shape(t) && OwnChange(s, t, k, w)
    requires RowOk(c, RowOf(t, k), |t.starts| == 1, true) && WorkerOk(c, t, t.workers[w])
    ensures RowsOk(c, t) && WorkersOk(c, t)
  {
    assert forall j: nat | j < |s.starts| && j != k :: RowOf(t, j) == RowOf(s, j);
  }

  /** A step of worker w that changes no byte, only its slot's counters. */
  lemma OwnStep(c: Config, s: State, t: State, k: nat, w: nat)
    requires Inv(c, s) && Shape(t) && OwnChange(s, t, k, w)
    requires RowOk(c, RowOf(t, k), |t.starts| == 1, true) && WorkerOk(c, t, t.workers[w])
    requires !s.workers[w].InNext? && !s.workers[w].Exited? && !t.workers[w].InNext? && !t.workers[w].Exited?
    requires SlotOf(t.workers[w]) < 0 || SlotOf(t.workers[w]) == k
    requires ClaimsOk(c.remote, t.file, t.starts, t.wrote)
    requires OwnerOk(t.owner, t.starts, t.wrote, Eff(t.ends, t.mu))
    requires MuOk(c, t.mu, t.cursor, t.settled, t.starts, t.ends, t.completed)
    requires SettledOk(t.settled, t.starts, t.ends, t.completed)
    ensures Inv(c, t)
  {
    DispatchMove(c, |s.starts|, s.cursor, s.mu, s.workers, s.handed, s.calls, w, t.workers[w]);
    OwnRows(c, s, t, k, w);
  }

  lemma StepPublish(c: Config, s: State, w: nat)
    requires Inv(c, s) && Enabled(c, s, Publish(w))
    ensures Inv(c, DoPublish(c, s, w))
  {
    var k, r := OwnSlot(c, s, w);
    PublishRow(c, s, w, k, r);
    PublishShared(c, s, w, k, r);
    OwnStep(c, s, DoPublish(c, s, w), k, w);
  }

  lemma PublishRow(c: Config, s: State, w: nat, k: nat, r: Row)
    requires c.Valid() && Shape(s) && Enabled(c, s, Publish(w)) && k == SlotOf(s.workers[w]) && r == RowOf(s, k)
    requires RowOk(c, r, |s.starts| == 1, true) && PcOk(c, r, s.workers[w])
    ensures var t := DoPublish(c, s, w);
      && Shape(t) && OwnChange(s, t, k, w) && RowOk(c, RowOf(t, k), |t.starts| == 1, true)
      && WorkerOk(c, t, t.workers[w]) && (SlotOf(t.workers[w]) < 0 || SlotOf(t.workers[w]) == k)
      && !t.workers[w].InNext? && !t.workers[w].Exited?
  {
  }

  lemma PublishShared(c: Config, s: State, w: nat, k: nat, r: Row)
    requires Shape(s) && Enabled(c, s, Publish(w)) && k == SlotOf(s.workers[w]) && r == RowOf(s, k)
    requires PcOk(c, r, s.workers[w])
    requires MuOk(c, s.mu, s.cursor, s.settled, s.starts, s.ends, s.completed)
    requires SettledOk(s.settled, s.starts, s.ends, s.completed)
    ensures var t := DoPublish(c, s, w);
      && MuOk(c, t.mu, t.cursor, t.settled, t.starts, t.ends, t.completed)
      && SettledOk(t.settled, t.starts, t.ends, t.completed)
  {
  }

  lemma StepSettle(c: Config, s: State, w: nat)
    requires Inv(c, s) && Enabled(c, s, Settle(w))
    ensures Inv(c, DoSettle(s, w))
  {
    var k, r := OwnSlot(c, s, w);
    SettleRow(c, s, w, k, r);
    OwnStep(c, s, DoSettle(s, w), k, w);
  }

  lemma SettleRow(c: Config, s: State, w: nat, k: nat, r: Row)
    requires Shape(s) && Enabled(c, s, Settle(w)) && k == SlotOf(s.workers[w]) && r == RowOf(s, k)
    requires RowOk(c, r, |s.starts| == 1, true) && PcOk(c, r, s.workers[w]) && !r.open && r.end == r.eff
    requires SettledOk(s.settled, s.starts, s.ends, s.completed)
    ensures var t := DoSettle(s, w);
      && Shape(t) && OwnChange(s, t, k, w) && RowOk(c, RowOf(t, k), |t.starts| == 1, true)
      && WorkerOk(c, t, t.workers[w]) && (t.workers[w].Idle? || t.workers[w].Attempt?)
      && (SlotOf(t.workers[w]) < 0 || SlotOf(t.workers[w]) == k)
      && SettledOk(t.settled, t.starts, t.ends, t.completed)
  {
  }

  lemma StepWriteBytes(c: Config, s: State, w: nat, n: int)
    requires Inv(c, s) && Enabled(c, s, WriteBytes(w, n))
    ensures Inv(c, DoWrite(c, s, w, n))
  {
    var k, r := OwnSlot(c, s, w);
    WriteRow(c, s, w, n, k, r);
    WriteShared(c, s, w, n, k, r);
    OwnStep(c, s, DoWrite(c, s, w, n), k, w);
  }

  lemma WriteShared(c: Config, s: State, w: nat, n: int, k: nat, r: Row)
    requires Shape(s) && Enabled(c, s, WriteBytes(w, n)) && k == SlotOf(s.workers[w]) && r == RowOf(s, k)
    requires 0 <= r.start && 0 <= r.completed == r.wrote && r.Frontier() + n <= r.eff + 1
    requires ClaimsOk(c.remote, s.file, s.starts, s.wrote)
    requires OwnerOk(s.owner, s.starts, s.wrote, Eff(s.ends, s.mu))
    ensures var t := DoWrite(c, s, w, n);
      && ClaimsOk(c.remote, t.file, t.starts, t.wrote)
      && OwnerOk(t.owner, t.starts, t.wrote, Eff(t.ends, t.mu))
  {
  }

  lemma WriteRow(c: Config, s: State, w: nat, n: int, k: nat, r: Row)
    requires Shape(s) && Enabled(c, s, WriteBytes(w, n)) && k == SlotOf(s.workers[w]) && r == RowOf(s, k)
    requires RowOk(c, r, |s.starts| == 1, true) && PcOk(c, r, s.workers[w]) && 0 <= r.start
    ensures var t := DoWrite(c, s, w, n);
      && Shape(t) && OwnChange(s, t, k, w) && RowOk(c, RowOf(t, k), |t.starts| == 1, true)
      && WorkerOk(c, t, t.workers[w]) && t.workers[w].Written? && SlotOf(t.workers[w]) == k
      && t.completed == s.completed && t.settled == s.settled
      && r.wrote == r.completed && r.Frontier() + n <= r.eff + 1
  {
  }

  lemma NextKeepsInv(c: Config, s: State, a: Action)
    requires Inv(c, s) && Enabled(c, s, a) && !WorkerActs(a)
    ensures Inv(c, Apply(c, s, a))
  {
    match a
    case NextInitial(w) => StepNextInitial(c, s, w);
    case NextSteal(w) => StepNextSteal(c, s, w);
    case ScanSlot => StepScanSlot(c, s);
    case ScanDone => StepScanDone(c, s);
    case Shrink => StepShrink(c, s);
    case Recheck => StepRecheck(c, s);
    case Undo => StepUndo(c, s);
    case Commit => StepCommit(c, s);
  }

  lemma WorkerKeepsInv(c: Config, s: State, a: Action)
    requires Inv(c, s) && Enabled(c, s, a) && WorkerActs(a)
    ensures Inv(c, Apply(c, s, a))
  {
    match a
    case EnterSegment(w) => StepEnterSegment(c, s, w);
    case Open(w) => StepOpen(c, s, w);
    case Retry(w) => StepRetry(c, s, w);
    case Eof(w) => StepEof(c, s, w);
    case Load(w, len) => StepLoad(c, s, w, len);
    case WriteBytes(w, n) => StepWriteBytes(c, s, w, n);
    case Publish(w) => StepPublish(c, s, w);
    case Settle(w) => StepSettle(c, s, w);
    case Abort(w) => StepAbort(c, s, w);
  }

  /** One step of any goroutine, in any interleaving, keeps the invariant. */
  lemma StepKeepsInv(c: Config, s: State, a: Action)
    requires Inv(c, s) && Enabled(c, s, a)
    ensures Inv(c, Apply(c, s, a))
  {
    if WorkerActs(a) {
      WorkerKeepsInv(c, s, a);
    } else {
      NextKeepsInv(c, s, a);
    }
  }
}
