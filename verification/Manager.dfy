/** The Manager's workers and API calls as one state machine (internal/engine/manager.go).

    Every event is one critical section under the Manager's mutex, one store access, or one call of a cancel function;
    between any two of them any other goroutine may act. Priorities are the business of PendingQueue, so here a worker
    may pop any pending id. */
module Manager {

  type Id = nat
  type Ctx = nat     // one per registered job: the context its cancel function aborts

  datatype Status = Queued | Active | Paused | Completed | FailedS | Canceled

  datatype Option<T> = None | Some(value: T)

  /** A worker goroutine between two atomic operations of worker, run, finishJob and classify. */
  datatype Worker =
    | Idle
    | Popped(id: Id)
    | Starting(id: Id)                                       // record loaded, not yet registered
    | Skipping(id: Id, ctx: Ctx, intent: Status)             // registered; stopped before it began
    | Activating(id: Id, ctx: Ctx)                           // registered; about to persist active
    | InRun(id: Id, ctx: Ctx)                                // inside engine.Run
    | Returned(id: Id, ctx: Ctx, ok: bool, down: bool)       // Run returned (or was not entered); finishJob next
    | Classifying(id: Id, ok: bool, seen: Option<Status>, down: bool)
    | Removing(id: Id)                                       // settling a Delete
    | Resetting(id: Id, stage: nat)                          // settling a Restart

  /** An API call between two atomic operations. */
  datatype Call =
    | Ready
    | StopLock(id: Id, target: Status)
    | StopCancel(id: Id, ctx: Ctx)
    | StopSave(id: Id, target: Status)
    | ResumeLock(id: Id)
    | ResumeSave(id: Id)
    | Enqueue(id: Id)
    | RestartLock(id: Id)
    | RestartCancel(ctx: Ctx)
    | RestartReset(id: Id, stage: nat)
    | DeleteLock(id: Id)
    | DeleteCancel(ctx: Ctx)
    | DeleteRemove(id: Id)
    | SaveBack(id: Id, status: Status)                       // a setting changed in a loaded copy of the record

  datatype State = State(
    store: map<Id, Status>,
    pending: multiset<Id>,
    cancels: map<Id, Ctx>,
    intents: map<Id, Status>,
    deleting: set<Id>,
    restarting: set<Id>,
    cancelled: set<Ctx>,
    nextCtx: Ctx,
    closed: bool,
    workers: seq<Worker>,
    calls: seq<Call>)

  datatype Event =
    | Pop(w: nat, id: Id)
    | LoadRecord(w: nat, loaded: bool)
    | Register(w: nat)
    | Activate(w: nat, saved: bool)
    | RunSaves(w: nat, status: Status)      // engine.Run persists a status
    | Return(w: nat, ok: bool)
    | FinishLock(w: nat)
    | Classify(w: nat, saved: bool)
    | Settle(w: nat)                        // one step of a delete or restart on the settle path
    | Submit(o: nat, id: Id)
    | Recover(id: Id)                       // recovery, or any redundant enqueue
    | Stop(o: nat, id: Id, target: Status)
    | Resume(o: nat, id: Id)
    | Restart(o: nat, id: Id)
    | Delete(o: nat, id: Id)
    | Edit(o: nat, id: Id)                  // SetPriority, SetAuth or SetRate loads the record
    | Advance(o: nat)                       // the next atomic operation of a call in progress
    | CallFails(o: nat)                     // the store refuses that operation and the call returns its error
    | SettleFails(w: nat)                   // the store refuses a delete or restart on the settle path
    | Shutdown

  predicate Stopping(st: Status) { st.Paused? || st.Canceled? }

  predicate Registered(w: Worker) { w.Skipping? || w.Activating? || w.InRun? || w.Returned? }

  /** The three atomic operations of resetAndEnqueue: save as queued, clear the intent, enqueue. */
  function ResetStage(s: State, id: Id, stage: nat): State {
    if stage == 0 then (if id in s.store then s.(store := s.store[id := Queued]) else s)
    else if stage == 1 then s.(intents := s.intents - {id})
    else if s.closed then s else s.(pending := s.pending + multiset{id})
  }

  /** Nothing is left to do after this stage: it was the last, or the record has been deleted meanwhile. */
  predicate ResetEnds(s: State, id: Id, stage: nat) {
    stage >= 2 || (stage == 0 && id !in s.store)
  }

  function DoRegister(s: State, w: nat): State
    requires w < |s.workers| && s.workers[w].Starting?
  {
    var id := s.workers[w].id;
    if s.closed || id in s.cancels then s.(workers := s.workers[w := Idle])
    else
      var ctx := s.nextCtx;
      var next :=
        if id in s.intents && Stopping(s.intents[id]) then Skipping(id, ctx, s.intents[id]) else Activating(id, ctx);
      s.(cancels := s.cancels[id := ctx], nextCtx := ctx + 1, workers := s.workers[w := next])
  }

  /** finishJob's critical section. */
  function DoFinish(s: State, w: nat): State
    requires w < |s.workers| && (s.workers[w].Skipping? || s.workers[w].Returned?)
  {
    var wk := s.workers[w];
    var id := wk.id;
    var intent := if id in s.intents then Some(s.intents[id]) else if wk.Skipping? then Some(wk.intent) else None;
    var next :=
      if id in s.deleting then Removing(id)
      else if id in s.restarting then Resetting(id, 0)
      else Classifying(id, wk.Skipping? || wk.ok, intent, wk.Returned? && wk.down);
    s.(intents := s.intents - {id}, cancels := s.cancels - {id},
       deleting := s.deleting - {id}, restarting := s.restarting - {id}, workers := s.workers[w := next])
  }

  /** The status classify forces, if any. */
  function Override(ok: bool, intent: Option<Status>, down: bool): Option<Status> {
    if intent.Some? && Stopping(intent.value) then intent
    else if ok then None
    else if down then Some(Queued)
    else None
  }

  function DoClassify(s: State, w: nat, saved: bool): State
    requires w < |s.workers| && s.workers[w].Classifying?
  {
    var Classifying(id, ok, intent, down) := s.workers[w];
    var o := Override(ok, intent, down);
    s.(store := if o.Some? && saved && id in s.store then s.store[id := o.value] else s.store,
       workers := s.workers[w := Idle])
  }

  /** Where the call's next operation leaves the call. */
  function NextCall(s: State, c: Call): Call {
    match c
    case StopLock(id, target) => if id in s.cancels then StopCancel(id, s.cancels[id]) else StopSave(id, target)
    case ResumeLock(id) => ResumeSave(id)
    case ResumeSave(id) => Enqueue(id)
    case RestartLock(id) => if id in s.cancels then RestartCancel(s.cancels[id]) else RestartReset(id, 0)
    case RestartReset(id, stage) => if ResetEnds(s, id, stage) then Ready else RestartReset(id, stage + 1)
    case DeleteLock(id) => if id in s.cancels then DeleteCancel(s.cancels[id]) else DeleteRemove(id)
    case _ => Ready
  }

  /** What the call's next operation does to the rest of the state. */
  function Effect(s: State, c: Call): State {
    match c
    case StopLock(id, target) => s.(intents := s.intents[id := target])
    case StopCancel(id, ctx) => s.(cancelled := s.cancelled + {ctx})
    case StopSave(id, target) => s.(store := s.store[id := target])
    case ResumeLock(id) => s.(intents := s.intents - {id})
    case ResumeSave(id) => s.(store := s.store[id := Queued])
    case Enqueue(id) => if s.closed then s else s.(pending := s.pending + multiset{id})
    case RestartLock(id) => if id in s.cancels then s.(restarting := s.restarting + {id}) else s
    case RestartCancel(ctx) => s.(cancelled := s.cancelled + {ctx})
    case RestartReset(id, stage) => ResetStage(s, id, stage)
    case DeleteLock(id) => if id in s.cancels then s.(deleting := s.deleting + {id}) else s
    case DeleteCancel(ctx) => s.(cancelled := s.cancelled + {ctx})
    case DeleteRemove(id) => s.(store := s.store - {id})
    case SaveBack(id, status) => s.(store := s.store[id := status])
    case Ready => s
  }

  function DoAdvance(s: State, o: nat): State
    requires o < |s.calls|
  {
    Effect(s, s.calls[o]).(calls := s.calls[o := NextCall(s, s.calls[o])])
  }

  /** The next operation of the call is a store access, which may fail. */
  predicate UsesStore(c: Call) {
    c.StopSave? || c.ResumeSave? || c.DeleteRemove? || c.SaveBack? || (c.RestartReset? && c.stage == 0)
  }

  predicate Enabled(s: State, e: Event) {
    match e
    case Pop(w, id) => w < |s.workers| && s.workers[w].Idle? && !s.closed && id in s.pending
    case LoadRecord(w, _) => w < |s.workers| && s.workers[w].Popped?
    case Register(w) => w < |s.workers| && s.workers[w].Starting?
    case Activate(w, _) => w < |s.workers| && s.workers[w].Activating?
    case RunSaves(w, status) =>
      w < |s.workers| && s.workers[w].InRun? && (status.Active? || status.Completed? || status.FailedS?)
    case Return(w, _) => w < |s.workers| && s.workers[w].InRun?
    case FinishLock(w) => w < |s.workers| && (s.workers[w].Skipping? || s.workers[w].Returned?)
    case Classify(w, _) => w < |s.workers| && s.workers[w].Classifying?
    case Settle(w) => w < |s.workers| && (s.workers[w].Removing? || s.workers[w].Resetting?)
    case Submit(o, id) => o < |s.calls| && s.calls[o].Ready? && id !in s.store
    case Recover(id) => !s.closed
    case Stop(o, id, target) =>
      o < |s.calls| && s.calls[o].Ready? && id in s.store && Stopping(target)
    case Resume(o, id) =>
      && o < |s.calls| && s.calls[o].Ready? && id in s.store
      && (s.store[id].Paused? || s.store[id].Canceled? || s.store[id].FailedS? || s.store[id].Completed?)
    case Restart(o, id) => o < |s.calls| && s.calls[o].Ready? && id in s.store
    case Delete(o, id) => o < |s.calls| && s.calls[o].Ready? && id in s.store
    case Edit(o, id) => o < |s.calls| && s.calls[o].Ready? && id in s.store
    case Advance(o) => o < |s.calls| && !s.calls[o].Ready?
    case CallFails(o) => o < |s.calls| && UsesStore(s.calls[o])
    case SettleFails(w) =>
      w < |s.workers| && (s.workers[w].Removing? || (s.workers[w].Resetting? && s.workers[w].stage == 0))
    case Shutdown => true
  }

  function SetW(s: State, w: nat, x: Worker): State
    requires w < |s.workers|
  {
    s.(workers := s.workers[w := x])
  }

  function SetC(s: State, o: nat, x: Call): State
    requires o < |s.calls|
  {
    s.(calls := s.calls[o := x])
  }

  function Step(s: State, e: Event): State
    requires Enabled(s, e)
  {
    match e
    case Pop(w, id) => SetW(s.(pending := s.pending - multiset{id}), w, Popped(id))
    case LoadRecord(w, loaded) =>
      var id := s.workers[w].id;
      SetW(s, w, if !loaded || id !in s.store || s.store[id].Completed? then Idle else Starting(id))
    case Register(w) => DoRegister(s, w)
    case Activate(w, saved) =>
      var Activating(id, ctx) := s.workers[w];
      if saved then SetW(s.(store := s.store[id := Active]), w, InRun(id, ctx))
      else SetW(s, w, Returned(id, ctx, false, true))
    case RunSaves(w, status) => s.(store := s.store[s.workers[w].id := status])
    case Return(w, ok) => SetW(s, w, Returned(s.workers[w].id, s.workers[w].ctx, ok, s.closed))
    case FinishLock(w) => DoFinish(s, w)
    case Classify(w, saved) => DoClassify(s, w, saved)
    case Settle(w) =>
      var id := s.workers[w].id;
      if s.workers[w].Removing? then SetW(s.(store := s.store - {id}), w, Idle)
      else
        var stage := s.workers[w].stage;
        SetW(ResetStage(s, id, stage), w, if ResetEnds(s, id, stage) then Idle else Resetting(id, stage + 1))
    case Submit(o, id) => SetC(s.(store := s.store[id := Queued]), o, Enqueue(id))
    case Recover(id) => s.(pending := s.pending + multiset{id})
    case Stop(o, id, target) => SetC(s, o, StopLock(id, target))
    case Resume(o, id) => SetC(s, o, ResumeLock(id))
    case Restart(o, id) => SetC(s, o, RestartLock(id))
    case Delete(o, id) => SetC(s, o, DeleteLock(id))
    case Edit(o, id) => SetC(s, o, SaveBack(id, s.store[id]))
    case Advance(o) => DoAdvance(s, o)
    case CallFails(o) => SetC(s, o, Ready)
    case SettleFails(w) => SetW(s, w, Idle)
    case Shutdown => s.(closed := true)
  }

  /** The Manager just started: nothing in flight, everything recovered still to be enqueued. */
  predicate Fresh(s: State) {
    && s.cancels == map[] && s.intents == map[] && s.deleting == {} && s.restarting == {}
    && s.cancelled == {} && s.nextCtx == 0 && !s.closed
    && (forall w | 0 <= w < |s.workers| :: s.workers[w].Idle?)
    && (forall o | 0 <= o < |s.calls| :: s.calls[o].Ready?)
  }

  predicate ValidHistory(s: State, es: seq<Event>)
    decreases |es|
  {
    es == [] || (Enabled(s, es[0]) && ValidHistory(Step(s, es[0]), es[1..]))
  }

  function AfterAll(s: State, es: seq<Event>): State
    requires ValidHistory(s, es)
    decreases |es|
  {
    if es == [] then s else AfterAll(Step(s, es[0]), es[1..])
  }
}
