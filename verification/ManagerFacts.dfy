/** Single flight and the stop handshake. */
module ManagerFacts {
  import opened Manager

  // ----- the invariant

  /** Every registered worker owns the cancel entry of its id, and no two own the same. */
  predicate OwnersOk(workers: seq<Worker>, cancels: map<Id, Ctx>, nextCtx: Ctx) {
    && (forall w | 0 <= w < |workers| && Registered(workers[w]) ::
          workers[w].id in cancels && cancels[workers[w].id] == workers[w].ctx < nextCtx)
    && (forall v, w | 0 <= v < w < |workers| && Registered(workers[v]) && Registered(workers[w]) ::
          workers[v].ctx != workers[w].ctx)
  }

  /** Every cancel entry is owned by some registered worker. */
  ghost predicate EntriesOwned(workers: seq<Worker>, cancels: map<Id, Ctx>) {
    forall id | id in cancels :: Owned(workers, id)
  }

  ghost predicate Owned(workers: seq<Worker>, id: Id) {
    exists w :: 0 <= w < |workers| && Registered(workers[w]) && workers[w].id == id
  }

  predicate Going(w: Worker) { w.Activating? || w.InRun? }

  /** The job's context is cancelled, or the call that recorded the stop is just about to cancel it. */
  ghost predicate Doomed(ctx: Ctx, cancelled: set<Ctx>, calls: seq<Call>) {
    ctx in cancelled || exists o :: 0 <= o < |calls| && calls[o].StopCancel? && calls[o].ctx == ctx
  }

  /** No job the operator has stopped keeps a live context. */
  ghost predicate StopsReach(workers: seq<Worker>, intents: map<Id, Status>, cancelled: set<Ctx>, calls: seq<Call>) {
    forall w | 0 <= w < |workers| && Going(workers[w]) && workers[w].id in intents ::
      Doomed(workers[w].ctx, cancelled, calls)
  }

  ghost predicate IntentsOk(s: State) {
    && (forall id | id in s.intents :: Stopping(s.intents[id]))
    && (forall w | 0 <= w < |s.workers| && s.workers[w].Skipping? :: Stopping(s.workers[w].intent))
    && (forall o | 0 <= o < |s.calls| && (s.calls[o].StopLock? || s.calls[o].StopSave?) :: Stopping(s.calls[o].target))
  }

  ghost predicate Inv(s: State) {
    && OwnersOk(s.workers, s.cancels, s.nextCtx)
    && EntriesOwned(s.workers, s.cancels)
    && StopsReach(s.workers, s.intents, s.cancelled, s.calls)
    && IntentsOk(s)
  }

  // ----- single events

  lemma OwnersMove(workers: seq<Worker>, cancels: map<Id, Ctx>, nextCtx: Ctx, w: nat, x: Worker)
    requires OwnersOk(workers, cancels, nextCtx) && EntriesOwned(workers, cancels) && w < |workers|
    requires Registered(x) == Registered(workers[w])
    requires Registered(x) ==> x.id == workers[w].id && x.ctx == workers[w].ctx
    ensures OwnersOk(workers[w := x], cancels, nextCtx) && EntriesOwned(workers[w := x], cancels)
  {
    forall id | id in cancels ensures Owned(workers[w := x], id) {
      assert Owned(workers, id);
      var v :| 0 <= v < |workers| && Registered(workers[v]) && workers[v].id == id;
      assert Registered(workers[w := x][v]);
    }
  }

  lemma OwnersJoin(workers: seq<Worker>, cancels: map<Id, Ctx>, nextCtx: Ctx, w: nat, x: Worker)
    requires OwnersOk(workers, cancels, nextCtx) && EntriesOwned(workers, cancels) && w < |workers|
    requires !Registered(workers[w]) && Registered(x) && x.id !in cancels && x.ctx == nextCtx
    ensures OwnersOk(workers[w := x], cancels[x.id := nextCtx], nextCtx + 1)
    ensures EntriesOwned(workers[w := x], cancels[x.id := nextCtx])
  {
    var after := workers[w := x];
    forall id | id in cancels[x.id := nextCtx] ensures Owned(after, id) {
      if id == x.id {
        assert Registered(after[w]);
      } else {
        assert Owned(workers, id);
        var v :| 0 <= v < |workers| && Registered(workers[v]) && workers[v].id == id;
        assert Registered(after[v]);
      }
    }
  }

  lemma OwnersLeave(workers: seq<Worker>, cancels: map<Id, Ctx>, nextCtx: Ctx, w: nat, x: Worker)
    requires OwnersOk(workers, cancels, nextCtx) && EntriesOwned(workers, cancels) && w < |workers|
    requires Registered(workers[w]) && !Registered(x)
    ensures OwnersOk(workers[w := x], cancels - {workers[w].id}, nextCtx)
    ensures EntriesOwned(workers[w := x], cancels - {workers[w].id})
  {
    var after := workers[w := x];
    forall id | id in cancels - {workers[w].id} ensures Owned(after, id) {
      assert Owned(workers, id);
      var v :| 0 <= v < |workers| && Registered(workers[v]) && workers[v].id == id;
      assert Registered(after[v]);
    }
  }

  /** A call moves on without undoing a cancellation that was due. */
  lemma CallMoves(s: State, o: nat, x: Call, cancelled: set<Ctx>, intents: map<Id, Status>)
    requires o < |s.calls| && StopsReach(s.workers, s.intents, s.cancelled, s.calls)
    requires s.cancelled <= cancelled
    requires s.calls[o].StopCancel? ==> s.calls[o].ctx in cancelled
    requires forall id | id in intents :: id in s.intents
    ensures StopsReach(s.workers, intents, cancelled, s.calls[o := x])
  {
    forall w | 0 <= w < |s.workers| && Going(s.workers[w]) && s.workers[w].id in intents
      ensures Doomed(s.workers[w].ctx, cancelled, s.calls[o := x])
    {
      var ctx := s.workers[w].ctx;
      assert Doomed(ctx, s.cancelled, s.calls);
      if ctx !in s.cancelled {
        var p :| 0 <= p < |s.calls| && s.calls[p].StopCancel? && s.calls[p].ctx == ctx;
        if p != o { assert s.calls[o := x][p].StopCancel?; }
      }
    }
  }

  /** The critical section of stop: whoever is registered at that moment is the job whose context it will cancel. */
  lemma StopMoves(s: State, o: nat)
    requires Inv(s) && o < |s.calls| && s.calls[o].StopLock?
    ensures var t := DoAdvance(s, o); StopsReach(t.workers, t.intents, t.cancelled, t.calls)
  {
    var t := DoAdvance(s, o);
    var id := s.calls[o].id;
    forall w | 0 <= w < |s.workers| && Going(s.workers[w]) && s.workers[w].id in t.intents
      ensures Doomed(s.workers[w].ctx, t.cancelled, t.calls)
    {
      assert Registered(s.workers[w]);
      if s.workers[w].id == id {
        assert t.calls[o].StopCancel? && t.calls[o].ctx == s.workers[w].ctx;
      } else {
        assert Doomed(s.workers[w].ctx, s.cancelled, s.calls);
        if s.workers[w].ctx !in s.cancelled {
          var p :| 0 <= p < |s.calls| && s.calls[p].StopCancel? && s.calls[p].ctx == s.workers[w].ctx;
          assert t.calls[p].StopCancel?;
        }
      }
    }
  }

  /** What an API call's next operation cannot touch. */
  lemma AdvanceFrame(s: State, c: Call)
    ensures var t := Effect(s, c); t.workers == s.workers && t.cancels == s.cancels && t.nextCtx == s.nextCtx
  {
  }

  lemma AdvanceCalls(s: State, o: nat)
    requires Enabled(s, Advance(o))
    ensures var t := DoAdvance(s, o); o < |t.calls| && t.calls == s.calls[o := t.calls[o]] && !t.calls[o].StopLock?
    ensures var t := DoAdvance(s, o);
      o < |t.calls| && t.calls[o].StopSave? ==> s.calls[o].StopLock? && t.calls[o].target == s.calls[o].target
  {
  }

  /** Only the critical section of stop records an intent. */
  lemma AdvanceIntents(s: State, o: nat, id: Id)
    requires Enabled(s, Advance(o)) && id in DoAdvance(s, o).intents
    ensures var t := DoAdvance(s, o);
      if s.calls[o].StopLock? && s.calls[o].id == id then t.intents[id] == s.calls[o].target
      else id in s.intents && t.intents[id] == s.intents[id]
  {
  }

  lemma AdvanceKeeps(s: State, o: nat)
    requires Inv(s) && Enabled(s, Advance(o))
    ensures Inv(DoAdvance(s, o))
  {
    var t := DoAdvance(s, o);
    AdvanceFrame(s, s.calls[o]);
    AdvanceCalls(s, o);
    forall id | id in t.intents
      ensures Stopping(t.intents[id]) && (s.calls[o].StopLock? || id in s.intents)
    {
      AdvanceIntents(s, o, id);
    }
    if s.calls[o].StopLock? {
      StopMoves(s, o);
    } else {
      CallMoves(s, o, t.calls[o], t.cancelled, t.intents);
    }
  }

  lemma CallStarts(s: State, o: nat, x: Call)
    requires Inv(s) && o < |s.calls| && s.calls[o].Ready? && !x.StopSave? && (x.StopLock? ==> Stopping(x.target))
    ensures Inv(SetC(s, o, x))
  {
    CallMoves(s, o, x, s.cancelled, s.intents);
  }

  lemma WorkerMoves(s: State, w: nat, x: Worker)
    requires Inv(s) && w < |s.workers| && !x.Skipping?
    requires Registered(x) == Registered(s.workers[w])
    requires Registered(x) ==> x.id == s.workers[w].id && x.ctx == s.workers[w].ctx
    requires Going(x) ==> Going(s.workers[w])
    ensures Inv(SetW(s, w, x))
  {
    OwnersMove(s.workers, s.cancels, s.nextCtx, w, x);
  }

  lemma RegisterKeeps(s: State, w: nat)
    requires Inv(s) && Enabled(s, Register(w))
    ensures Inv(DoRegister(s, w))
  {
    var t := DoRegister(s, w);
    if s.closed || s.workers[w].id in s.cancels {
      WorkerMoves(s, w, Idle);
    } else {
      OwnersJoin(s.workers, s.cancels, s.nextCtx, w, t.workers[w]);
    }
  }

  lemma FinishKeeps(s: State, w: nat)
    requires Inv(s) && Enabled(s, FinishLock(w))
    ensures Inv(DoFinish(s, w))
  {
    var t := DoFinish(s, w);
    OwnersLeave(s.workers, s.cancels, s.nextCtx, w, t.workers[w]);
  }

  lemma SettleKeeps(s: State, w: nat)
    requires Inv(s) && Enabled(s, Settle(w))
    ensures Inv(Step(s, Settle(w)))
  {
    var id := s.workers[w].id;
    if s.workers[w].Removing? {
      WorkerMoves(s, w, Idle);
    } else {
      ResetKeeps(s, id, s.workers[w].stage);
      WorkerMoves(ResetStage(s, id, s.workers[w].stage), w, Step(s, Settle(w)).workers[w]);
    }
  }

  lemma ResetKeeps(s: State, id: Id, stage: nat)
    requires Inv(s)
    ensures Inv(ResetStage(s, id, stage)) && ResetStage(s, id, stage).workers == s.workers
  {
  }

  /** The events in which a worker acts. */
  lemma WorkerStepKeeps(s: State, e: Event)
    requires Inv(s) && Enabled(s, e)
    requires e.LoadRecord? || e.Activate? || e.Return? || e.Classify? || e.SettleFails?
    ensures Inv(Step(s, e))
  {
    WorkerMoves(s, e.w, Step(s, e).workers[e.w]);
  }

  /** The events in which an API call starts. */
  lemma CallStepKeeps(s: State, e: Event)
    requires Inv(s) && Enabled(s, e)
    requires e.Submit? || e.Stop? || e.Resume? || e.Restart? || e.Delete? || e.Edit?
    ensures Inv(Step(s, e))
  {
    CallStarts(s, e.o, Step(s, e).calls[e.o]);
  }

  lemma StepKeepsInv(s: State, e: Event)
    requires Inv(s) && Enabled(s, e)
    ensures Inv(Step(s, e))
  {
    match e
    case Pop(w, id) => WorkerMoves(s, w, Popped(id));
    case Register(w) => RegisterKeeps(s, w);
    case RunSaves(w, status) =>
    case FinishLock(w) => FinishKeeps(s, w);
    case Settle(w) => SettleKeeps(s, w);
    case Recover(id) =>
    case Advance(o) => AdvanceKeeps(s, o);
    case CallFails(o) => CallMoves(s, o, Ready, s.cancelled, s.intents);
    case Shutdown =>
    case Submit(_, _) => CallStepKeeps(s, e);
    case Stop(_, _, _) => CallStepKeeps(s, e);
    case Resume(_, _) => CallStepKeeps(s, e);
    case Restart(_, _) => CallStepKeeps(s, e);
    case Delete(_, _) => CallStepKeeps(s, e);
    case Edit(_, _) => CallStepKeeps(s, e);
    case _ => WorkerStepKeeps(s, e);
  }

  lemma {:induction false} HistoryKeepsInv(s: State, es: seq<Event>)
    requires Inv(s) && ValidHistory(s, es)
    ensures Inv(AfterAll(s, es))
    decreases |es|
  {
    if es == [] {
    } else {
      StepKeepsInv(s, es[0]);
      HistoryKeepsInv(Step(s, es[0]), es[1..]);
    }
  }

  lemma {:induction false} HistoryThen(s: State, first: seq<Event>, second: seq<Event>)
    requires ValidHistory(s, first) && ValidHistory(AfterAll(s, first), second)
    ensures ValidHistory(s, first + second) && AfterAll(s, first + second) == AfterAll(AfterAll(s, first), second)
    decreases |first|
  {
    var all := first + second;
    if first == [] {
      assert all == second;
    } else {
      assert all[0] == first[0] && all[1..] == first[1..] + second;
      HistoryThen(Step(s, first[0]), first[1..], second);
    }
  }

  /** One more event at the end of a history. */
  lemma Then(s: State, es: seq<Event>, e: Event) returns (more: seq<Event>)
    requires ValidHistory(s, es) && Enabled(AfterAll(s, es), e)
    ensures ValidHistory(s, more) && AfterAll(s, more) == Step(AfterAll(s, es), e) && more == es + [e]
  {
    assert [e][1..] == [];
    assert ValidHistory(Step(AfterAll(s, es), e), []);
    HistoryThen(s, es, [e]);
    more := es + [e];
  }

  lemma FreshInv(s: State)
    requires Fresh(s)
    ensures Inv(s)
  {
  }

  // ----- single flight

  /** Whatever submits, resumes, restarts, recoveries and duplicate enqueues interleave, two workers are never inside
      engine.Run for the same download. */
  lemma SingleFlight(s: State, es: seq<Event>, v: nat, w: nat)
    requires Fresh(s) && ValidHistory(s, es)
    requires var t := AfterAll(s, es);
      && v < |t.workers| && w < |t.workers| && t.workers[v].InRun? && t.workers[w].InRun?
      && t.workers[v].id == t.workers[w].id
    ensures v == w
  {
    FreshInv(s);
    HistoryKeepsInv(s, es);
  }

  predicate MovesWorker(e: Event) {
    || e.Pop? || e.LoadRecord? || e.Register? || e.Activate? || e.Return? || e.FinishLock? || e.Classify?
    || e.Settle? || e.SettleFails?
  }

  /** A worker moves only in events of its own; the pool neither grows nor shrinks. */
  lemma WorkersMove(s: State, e: Event)
    requires Enabled(s, e)
    ensures var t := Step(s, e);
      if MovesWorker(e) then e.w < |s.workers| && t.workers == s.workers[e.w := t.workers[e.w]]
      else t.workers == s.workers
  {
    match e
    case Advance(o) => AdvanceFrame(s, s.calls[o]);
    case _ =>
  }

  lemma {:induction false} PoolIsFixed(s: State, es: seq<Event>)
    requires ValidHistory(s, es)
    ensures |AfterAll(s, es).workers| == |s.workers|
    decreases |es|
  {
    if es == [] {
    } else {
      WorkersMove(s, es[0]);
      PoolIsFixed(Step(s, es[0]), es[1..]);
    }
  }

  /** The ids some worker is running engine.Run for. */
  function Running(ws: seq<Worker>): set<Id> {
    set w | 0 <= w < |ws| && ws[w].InRun? :: ws[w].id
  }

  lemma {:induction false} RunningAtMost(ws: seq<Worker>)
    ensures |Running(ws)| <= |ws|
  {
    if ws == [] {
      assert Running(ws) == {};
    } else {
      var n := |ws| - 1;
      RunningAtMost(ws[..n]);
      var one: set<Id> := if ws[n].InRun? then {ws[n].id} else {};
      assert Running(ws) == Running(ws[..n]) + one;
    }
  }

  /** At most as many downloads are active at once as the pool has workers. */
  lemma BoundedConcurrency(s: State, es: seq<Event>)
    requires ValidHistory(s, es)
    ensures |Running(AfterAll(s, es).workers)| <= |s.workers|
  {
    PoolIsFixed(s, es);
    RunningAtMost(AfterAll(s, es).workers);
  }

  /** A worker that settles removes its own cancel entry and nobody else's. */
  lemma SettlingClearsOwnEntry(s: State, es: seq<Event>, w: nat, id: Id)
    requires Fresh(s) && ValidHistory(s, es) && Enabled(AfterAll(s, es), FinishLock(w))
    ensures var t := AfterAll(s, es); var u := Step(t, FinishLock(w));
      && (id in t.cancels && id !in u.cancels ==> id == t.workers[w].id && t.cancels[id] == t.workers[w].ctx)
      && (id in u.cancels ==> id in t.cancels && u.cancels[id] == t.cancels[id])
  {
    FreshInv(s);
    HistoryKeepsInv(s, es);
  }

  // ----- the stop handshake

  /** The events that forget an operator's stop of id, or replace it: Resume, a Restart's reset, another stop. */
  predicate Disturbs(s: State, e: Event, id: Id)
    requires Enabled(s, e)
  {
    match e
    case Advance(o) =>
      (match s.calls[o]
       case StopLock(k, _) => k == id
       case ResumeLock(k) => k == id
       case RestartReset(k, stage) => k == id && stage == 1
       case _ => false)
    case Settle(w) => s.workers[w].Resetting? && s.workers[w].id == id && s.workers[w].stage == 1
    case _ => false
  }

  /** Worker w enters finishJob's critical section for id. */
  predicate Settles(s: State, e: Event, id: Id)
    requires Enabled(s, e)
  {
    e.FinishLock? && s.workers[e.w].id == id
  }

  /** No event of the run disturbs the stop, and nobody settles id. */
  ghost predicate Undisturbed(s: State, es: seq<Event>, id: Id)
    requires ValidHistory(s, es)
    decreases |es|
  {
    es == [] || (!Disturbs(s, es[0], id) && !Settles(s, es[0], id) && Undisturbed(Step(s, es[0]), es[1..], id))
  }

  lemma IntentStays(s: State, e: Event, id: Id)
    requires Enabled(s, e) && !Disturbs(s, e, id) && !Settles(s, e, id) && id in s.intents
    ensures var t := Step(s, e); id in t.intents && t.intents[id] == s.intents[id]
  {
    match e
    case Advance(o) => EffectKeepsIntent(s, s.calls[o], id);
    case _ =>
  }

  lemma EffectKeepsIntent(s: State, c: Call, id: Id)
    requires id in s.intents && !(c.StopLock? && c.id == id) && !(c.ResumeLock? && c.id == id)
    requires !(c.RestartReset? && c.id == id && c.stage == 1)
    ensures var t := Effect(s, c); id in t.intents && t.intents[id] == s.intents[id]
  {
  }

  lemma {:induction false} IntentStaysOverRun(s: State, es: seq<Event>, id: Id)
    requires ValidHistory(s, es) && Undisturbed(s, es, id) && id in s.intents
    ensures var t := AfterAll(s, es); id in t.intents && t.intents[id] == s.intents[id]
    decreases |es|
  {
    if es == [] {
    } else {
      IntentStays(s, es[0], id);
      IntentStaysOverRun(Step(s, es[0]), es[1..], id);
    }
  }

  /** While the stop of id stands: a job of id that is going has its own context cancelled, or about to be by the very
      call that stopped it; a worker that registers skips the transfer; a worker that settles classifies with the
      operator's status, unless a Delete or Restart took the job over, and that status is what it stores. */
  ghost predicate StopStands(t: State, w: nat, id: Id, target: Status) {
    w < |t.workers| && Stopping(target) && !t.workers[w].Idle? && t.workers[w].id == id ==>
      && (Going(t.workers[w]) ==> Doomed(t.workers[w].ctx, t.cancelled, t.calls))
      && (Enabled(t, Register(w)) ==> !Going(Step(t, Register(w)).workers[w]))
      && (Enabled(t, FinishLock(w)) && id !in t.deleting && id !in t.restarting ==>
            SettlesAs(Step(t, FinishLock(w)), w, id, target))
  }

  /** Worker w is about to classify id, and will store the target. */
  predicate SettlesAs(u: State, w: nat, id: Id, target: Status) {
    && w < |u.workers| && u.workers[w].Classifying? && u.workers[w].id == id
    && (id in u.store ==> DoClassify(u, w, true).store[id] == target)
  }

  lemma IntentStops(t: State, w: nat, id: Id)
    requires Inv(t) && id in t.intents
    ensures StopStands(t, w, id, t.intents[id])
  {
  }

  /** A stop that took the lock stands, however long ago that was, as long as nothing forgot it and nobody settled the
      job yet. */
  lemma StopIsHonoured(s0: State, es0: seq<Event>, o: nat, es: seq<Event>, w: nat)
    requires Fresh(s0) && ValidHistory(s0, es0)
    requires var s := AfterAll(s0, es0);
      && o < |s.calls| && s.calls[o].StopLock? && ValidHistory(Step(s, Advance(o)), es)
      && Undisturbed(Step(s, Advance(o)), es, s.calls[o].id)
    ensures var s := AfterAll(s0, es0);
      StopStands(AfterAll(Step(s, Advance(o)), es), w, s.calls[o].id, s.calls[o].target)
  {
    FreshInv(s0);
    HistoryKeepsInv(s0, es0);
    var s := AfterAll(s0, es0);
    StepKeepsInv(s, Advance(o));
    HistoryKeepsInv(Step(s, Advance(o)), es);
    IntentStaysOverRun(Step(s, Advance(o)), es, s.calls[o].id);
    IntentStops(AfterAll(Step(s, Advance(o)), es), w, s.calls[o].id);
  }

  /** A worker that skipped the transfer settles with the stop it saw at registration, even when a Resume has since
      cleared it. */
  lemma SkipSettles(s: State, es: seq<Event>, w: nat)
    requires Fresh(s) && ValidHistory(s, es) && Enabled(AfterAll(s, es), FinishLock(w))
    requires AfterAll(s, es).workers[w].Skipping?
    ensures var t := AfterAll(s, es); var next := Step(t, FinishLock(w)).workers[w];
      next.Classifying? ==>
        exists st :: Stopping(st) && Override(next.ok, next.seen, next.down) == Some(st)
  {
    FreshInv(s);
    HistoryKeepsInv(s, es);
    var t := AfterAll(s, es);
    var next := Step(t, FinishLock(w)).workers[w];
    if next.Classifying? {
      assert next.seen.Some? && Stopping(next.seen.value);
    }
  }
}
