/** The Manager as the object its goroutines share: worker jobs and operator calls as methods over its fields, with
    other goroutines running between any two of their operations (internal/engine/manager.go). */
module ManagerJobs {
  import opened Manager
  import opened ManagerFacts

  class Jobs {
    var store: map<Id, Status>
    var cancels: map<Id, Ctx>
    var intents: map<Id, Status>
    var deleting: set<Id>
    var restarting: set<Id>
    var closed: bool
    var nextCtx: Ctx
    var rest: State             // what the other goroutines are doing: their program points, entries and contexts
    ghost var start: State
    ghost var past: seq<Event>
    ghost var refusals: nat     // accesses of this goroutine that the store has refused

    /** The state of the machine this object stands for. */
    function View(): State
      reads this
    {
      State(store, rest.pending, cancels, intents, deleting, restarting, rest.cancelled, nextCtx, closed,
            rest.workers, rest.calls)
    }

    /** Everything that has happened is a history of the machine. */
    ghost predicate Valid()
      reads this
    {
      ValidHistory(start, past) && AfterAll(start, past) == View()
    }

    /** The machine's step e has been taken, and not been recorded yet. */
    twostate predicate Took(e: Event)
      reads this
    {
      Enabled(old(View()), e) && View() == Step(old(View()), e) && start == old(start) && past == old(past)
    }

    /** The state is now t, by a step that has not been recorded yet. */
    twostate predicate Became(t: State)
      reads this
    {
      View() == t && start == old(start) && past == old(past)
    }

    /** Some events have happened. */
    twostate predicate Onward()
      reads this
    {
      start == old(start) && old(past) <= past
    }

    /** The first thing that has happened since is e. */
    twostate predicate Began(e: Event)
      reads this
    {
      |old(past)| < |past| && past[|old(past)|] == e
    }

    /** The last thing that has happened is e. */
    ghost predicate Ended(e: Event)
      reads this
    {
      past != [] && past[|past| - 1] == e
    }

    /** The store has refused something; if it has not, no step of worker w since is one that it refuses. */
    twostate predicate Granted(w: int)
      reads this
    {
      && old(refusals) <= refusals && |old(past)| <= |past|
      && (refusals == old(refusals) ==> forall k | |old(past)| <= k < |past| :: !Denied(past[k], w))
    }

    /** There is no record of the download, or it has not settled. */
    predicate Unresumable(id: Id)
      reads this
    {
      id !in store || store[id].Queued? || store[id].Active?
    }

    constructor (s: State)
      ensures Valid() && View() == s && start == s && past == []
    {
      store, cancels, intents, deleting, restarting := s.store, s.cancels, s.intents, s.deleting, s.restarting;
      closed, nextCtx, rest := s.closed, s.nextCtx, s;
      start, past, refusals := s, [], 0;
    }

    /** One access to the store, which succeeds or fails. */
    method Ask() returns (ok: bool)
      modifies this`refusals
      ensures refusals == if ok then old(refusals) else old(refusals) + 1
    {
      ok := *;
      refusals := if ok then refusals else refusals + 1;
    }

    /** Records the step that led here from state s. */
    ghost method Record(s: State, e: Event)
      requires ValidHistory(start, past) && AfterAll(start, past) == s && Enabled(s, e) && View() == Step(s, e)
      modifies this`past
      ensures Valid() && past == old(past) + [e]
    {
      var more := Then(start, past, e);
      past := past + [e];
    }

    method Adopt(s: State)
      modifies this
      ensures View() == s && start == old(start) && past == old(past) && refusals == old(refusals)
    {
      store, cancels, intents, deleting, restarting := s.store, s.cancels, s.intents, s.deleting, s.restarting;
      closed, nextCtx, rest := s.closed, s.nextCtx, s;
    }

    /** What other goroutines do meanwhile: any events, in any order, except those of worker w and of call o. */
    method Interfere(w: int, o: int)
      requires Valid()
      modifies this
      ensures Valid() && Onward() && |rest.workers| == |old(rest.workers)| && |rest.calls| == |old(rest.calls)|
      ensures refusals == old(refusals) && Granted(w)
      ensures 0 <= w < |rest.workers| ==> rest.workers[w] == old(rest.workers[w])
      ensures 0 <= o < |rest.calls| ==> rest.calls[o] == old(rest.calls[o])
    {
      var es: seq<Event> := *;
      for i := 0 to |es|
        invariant Valid() && Onward() && |rest.workers| == |old(rest.workers)| && |rest.calls| == |old(rest.calls)|
        invariant refusals == old(refusals) && Granted(w)
        invariant 0 <= w < |rest.workers| ==> rest.workers[w] == old(rest.workers[w])
        invariant 0 <= o < |rest.calls| ==> rest.calls[o] == old(rest.calls[o])
      {
        if Enabled(View(), es[i]) && !(MovesWorker(es[i]) && es[i].w == w) && !MovesCall(es[i], o) {
          OtherStep(es[i], w, o);
        }
      }
    }

    method OtherStep(e: Event, w: int, o: int)
      requires Valid() && Enabled(View(), e) && !(MovesWorker(e) && e.w == w) && !MovesCall(e, o)
      modifies this
      ensures Valid() && start == old(start) && past == old(past) + [e] && refusals == old(refusals)
      ensures |rest.workers| == |old(rest.workers)| && |rest.calls| == |old(rest.calls)|
      ensures 0 <= w < |rest.workers| ==> rest.workers[w] == old(rest.workers[w])
      ensures 0 <= o < |rest.calls| ==> rest.calls[o] == old(rest.calls[o])
    {
      ghost var s := View();
      OthersMove(s, e, w, o);
      Adopt(Step(View(), e));
      Record(s, e);
    }

    // ----- the operations of run, finishJob and classify

    /** Loads the record; a missing or completed one is nothing to run. */
    method LoadJob(w: nat, id: Id) returns (found: bool, loaded: bool)
      requires w < |rest.workers| && rest.workers[w] == Popped(id)
      modifies this
      ensures Took(LoadRecord(w, loaded)) && rest.workers[w] == if found then Starting(id) else Idle
      ensures refusals == if loaded then old(refusals) else old(refusals) + 1
      ensures found <==> loaded && id in old(store) && old(store)[id] != Completed
    {
      loaded := Ask();
      found := loaded && id in store && !store[id].Completed?;
      rest := rest.(workers := rest.workers[w := if found then Starting(id) else Idle]);
    }

    /** Registers the job's context and reads the intent, in one critical section; without a context the job is
        dropped. */
    method Register(w: nat, id: Id) returns (ctx: Option<Ctx>, intent: Option<Status>)
      requires w < |rest.workers| && rest.workers[w] == Starting(id)
      modifies this
      ensures Took(Event.Register(w)) && refusals == old(refusals)
      ensures ctx == if old(closed) || id in old(cancels) then None else Some(old(nextCtx))
      ensures ctx.Some? ==> intent == if id in old(intents) then Some(old(intents)[id]) else None
      ensures rest.workers[w] ==
        if ctx.None? then Idle
        else if intent.Some? && Stopping(intent.value) then Skipping(id, ctx.value, intent.value)
        else Activating(id, ctx.value)
    {
      if closed || id in cancels {
        rest := rest.(workers := rest.workers[w := Idle]);
        return None, None;
      }
      ctx := Some(nextCtx);
      cancels := cancels[id := nextCtx];
      intent := if id in intents then Some(intents[id]) else None;
      var next := if intent.Some? && Stopping(intent.value) then Skipping(id, nextCtx, intent.value)
                  else Activating(id, nextCtx);
      nextCtx := nextCtx + 1;
      rest := rest.(workers := rest.workers[w := next]);
    }

    /** Marks the record active, or fails to. */
    method PersistActive(w: nat, id: Id, ctx: Ctx) returns (saved: bool)
      requires w < |rest.workers| && rest.workers[w] == Activating(id, ctx)
      modifies this
      ensures Took(Activate(w, saved)) && refusals == if saved then old(refusals) else old(refusals) + 1
      ensures rest.workers[w] == if saved then InRun(id, ctx) else Returned(id, ctx, false, true)
    {
      saved := Ask();
      if saved {
        store := store[id := Active];
      }
      rest := rest.(workers := rest.workers[w := if saved then InRun(id, ctx) else Returned(id, ctx, false, true)]);
    }

    /** The engine returns, and the worker looks whether the Manager is shutting down. */
    method EngineReturns(w: nat, id: Id, ctx: Ctx) returns (ok: bool, down: bool)
      requires w < |rest.workers| && rest.workers[w] == InRun(id, ctx)
      modifies this
      ensures Took(Return(w, ok)) && rest.workers[w] == Returned(id, ctx, ok, down)
      ensures down == old(closed) && refusals == old(refusals)
    {
      ok := *;
      down := closed;
      rest := rest.(workers := rest.workers[w := Returned(id, ctx, ok, down)]);
    }

    /** finishJob's critical section: the entries of the job go, and say how it settles. */
    method TakeOut(w: nat, id: Id, startIntent: Option<Status>, ok: bool, down: bool)
      returns (intent: Option<Status>, del: bool, res: bool)
      requires w < |rest.workers| && Finishing(rest.workers[w], id, startIntent, ok, down)
      modifies this
      ensures Became(Taken(old(View()), w, id, startIntent, ok, down)) && refusals == old(refusals)
      ensures intent == if id in old(intents) then Some(old(intents)[id]) else startIntent
      ensures del == (id in old(deleting)) && res == (id in old(restarting))
      ensures rest.workers[w] ==
        if del then Removing(id) else if res then Resetting(id, 0) else Classifying(id, ok, intent, down)
    {
      intent, del, res := TakeEntries(id);
      if intent.None? {
        intent := startIntent;
      }
      var next := if del then Removing(id) else if res then Resetting(id, 0) else Classifying(id, ok, intent, down);
      rest := rest.(workers := rest.workers[w := next]);
    }

    method TakeEntries(id: Id) returns (intent: Option<Status>, del: bool, res: bool)
      modifies this`intents, this`cancels, this`deleting, this`restarting
      ensures intent == if id in old(intents) then Some(old(intents[id])) else None
      ensures del == (id in old(deleting)) && res == (id in old(restarting))
      ensures intents == old(intents) - {id} && cancels == old(cancels) - {id}
      ensures deleting == old(deleting) - {id} && restarting == old(restarting) - {id}
    {
      intent := if id in intents then Some(intents[id]) else None;
      intents := intents - {id};
      cancels := cancels - {id};
      del := id in deleting;
      deleting := deleting - {id};
      res := id in restarting;
      restarting := restarting - {id};
    }

    /** classify: a stop overrides whatever the run reported, a shutdown puts the job back, and the rest is as the
        engine left it. The override is tried three times. */
    method SettleStatus(w: nat, id: Id, ok: bool, intent: Option<Status>, down: bool) returns (saved: bool)
      requires w < |rest.workers| && rest.workers[w] == Classifying(id, ok, intent, down)
      modifies this
      ensures Became(Forced(old(View()), w, ForcedBy(ok, intent, down), saved)) && rest.workers[w] == Idle
      ensures !saved ==> refusals == old(refusals) + 3
      ensures saved ==> old(refusals) <= refusals <= old(refusals) + 2
      ensures intent != Some(Paused) && intent != Some(Canceled) && (ok || !down) ==>
        store == old(store) && refusals == old(refusals)
    {
      var forced: Option<Status> := None;
      if intent.Some? && Stopping(intent.value) {
        forced := intent;
      } else if !ok && down {
        forced := Some(Queued);
      }
      saved := true;
      if forced.Some? {
        saved := PersistOverride(id, forced.value);
      }
      rest := rest.(workers := rest.workers[w := Idle]);
    }

    /** persistOverride, which leaves a deleted record alone. */
    method PersistOverride(id: Id, status: Status) returns (saved: bool)
      modifies this`store, this`refusals
      ensures store == if saved && id in old(store) then old(store)[id := status] else old(store)
      ensures !saved ==> refusals == old(refusals) + 3
      ensures saved ==> old(refusals) <= refusals <= old(refusals) + 2
    {
      for attempt := 0 to 3
        invariant store == old(store) && refusals == old(refusals) + attempt
      {
        saved := Ask();
        if saved {
          if id in store {
            store := store[id := status];
          }
          return;
        }
      }
      saved := false;
    }

    /** One step of a Delete or a Restart that the worker carries out as it settles. */
    method SettleStep(w: nat) returns (done: bool, failed: bool)
      requires w < |rest.workers| && (rest.workers[w].Removing? || rest.workers[w].Resetting?)
      modifies this
      ensures Took(if failed then SettleFails(w) else Settle(w))
      ensures refusals == if failed then old(refusals) + 1 else old(refusals)
      ensures done ==> rest.workers[w].Idle?
      ensures !done ==> old(rest.workers[w]).Resetting? && old(rest.workers[w]).stage < 2
      ensures !done ==> rest.workers[w] == old(rest.workers[w]).(stage := old(rest.workers[w]).stage + 1)
    {
      var job := rest.workers[w];
      failed := false;
      if job.Removing? || job.stage == 0 {
        var granted := Ask();
        failed := !granted;
      }
      if failed {
        rest := rest.(workers := rest.workers[w := Idle]);
        return true, true;
      }
      if job.Removing? {
        RemoveRecord(w, job.id);
        return true, false;
      }
      done := ResetStep(w, job.id, job.stage);
    }

    method RemoveRecord(w: nat, id: Id)
      requires w < |rest.workers| && rest.workers[w] == Removing(id)
      modifies this`store, this`rest
      ensures Took(Settle(w)) && rest.workers[w].Idle?
    {
      store := store - {id};
      rest := rest.(workers := rest.workers[w := Idle]);
    }

    /** One step of resetAndEnqueue. */
    method ResetStep(w: nat, id: Id, stage: nat) returns (done: bool)
      requires w < |rest.workers| && rest.workers[w] == Resetting(id, stage)
      modifies this`store, this`intents, this`rest
      ensures Took(Settle(w)) && done == (stage >= 2 || (stage == 0 && id !in old(store)))
      ensures rest.workers[w] == if done then Idle else Resetting(id, stage + 1)
    {
      done := stage >= 2 || (stage == 0 && id !in store);
      if stage == 0 {
        if id in store {
          store := store[id := Queued];
        }
      } else if stage == 1 {
        intents := intents - {id};
      } else if !closed {
        rest := rest.(pending := rest.pending + multiset{id});
      }
      rest := rest.(workers := rest.workers[w := if done then Idle else Resetting(id, stage + 1)]);
    }

    // ----- the whole job

    /** finishJob and what it leads to, with other goroutines running in between. */
    method FinishJob(w: nat, id: Id, startIntent: Option<Status>, ok: bool, down: bool)
      requires Valid() && w < |rest.workers| && Finishing(rest.workers[w], id, startIntent, ok, down)
      modifies this
      ensures Valid() && Onward() && |rest.workers| == |old(rest.workers)| && rest.workers[w].Idle?
      ensures Granted(w)
    {
      ghost var s := View();
      FinishTakes(s, w, id, startIntent, ok, down);
      var intent, del, res := TakeOut(w, id, startIntent, ok, down);
      Record(s, FinishLock(w));
      if del || res {
        SettleRequest(w);
      } else {
        ClassifyJob(w, id, ok, intent, down);
      }
    }

    method ClassifyJob(w: nat, id: Id, ok: bool, intent: Option<Status>, down: bool)
      requires Valid() && w < |rest.workers| && rest.workers[w] == Classifying(id, ok, intent, down)
      modifies this
      ensures Valid() && Onward() && |rest.workers| == |old(rest.workers)| && rest.workers[w].Idle?
      ensures Granted(w)
    {
      Interfere(w, -1);
      ghost var s := View();
      ClassifyMoves(s, w);
      var saved := SettleStatus(w, id, ok, intent, down);
      Record(s, Classify(w, saved));
    }

    method SettleRequest(w: nat)
      requires Valid() && w < |rest.workers|
      requires rest.workers[w].Removing? || (rest.workers[w].Resetting? && rest.workers[w].stage == 0)
      modifies this
      ensures Valid() && Onward() && |rest.workers| == |old(rest.workers)| && rest.workers[w].Idle?
      ensures Granted(w)
    {
      var stage := 0;
      while true
        invariant Valid() && Onward() && |rest.workers| == |old(rest.workers)| && stage <= 2 && Granted(w)
        invariant rest.workers[w].Removing? || (rest.workers[w].Resetting? && rest.workers[w].stage == stage)
        decreases 2 - stage
      {
        var done := SettleOnce(w);
        if done {
          return;
        }
        stage := stage + 1;
      }
    }

    method SettleOnce(w: nat) returns (done: bool)
      requires Valid() && w < |rest.workers| && (rest.workers[w].Removing? || rest.workers[w].Resetting?)
      modifies this
      ensures Valid() && Onward() && |rest.workers| == |old(rest.workers)| && Granted(w)
      ensures done ==> rest.workers[w].Idle?
      ensures !done ==> old(rest.workers[w]).Resetting? && old(rest.workers[w]).stage < 2
      ensures !done ==> rest.workers[w] == old(rest.workers[w]).(stage := old(rest.workers[w]).stage + 1)
    {
      Interfere(w, -1);
      ghost var s := View();
      var failed;
      done, failed := SettleStep(w);
      if failed {
        Record(s, SettleFails(w));
      } else {
        Record(s, Settle(w));
      }
    }

    /** run: from a dequeued id to a worker that is free again. Whatever the store, the engine and the other goroutines
        do, all that happens is a history of the machine, so everything proved of its histories holds of the program. */
    method Run(w: nat, id: Id)
      requires Valid() && w < |rest.workers| && rest.workers[w] == Popped(id)
      modifies this
      ensures Valid() && Onward() && |rest.workers| == |old(rest.workers)| && rest.workers[w].Idle?
      ensures Granted(w)
    {
      ghost var s := View();
      var found, loaded := LoadJob(w, id);
      Record(s, LoadRecord(w, loaded));
      if !found {
        return;
      }
      Interfere(w, -1);
      RunLoaded(w, id);
    }

    method RunLoaded(w: nat, id: Id)
      requires Valid() && w < |rest.workers| && rest.workers[w] == Starting(id)
      modifies this
      ensures Valid() && Onward() && |rest.workers| == |old(rest.workers)| && rest.workers[w].Idle?
      ensures Granted(w)
    {
      ghost var s := View();
      var ctx, intent := Register(w, id);
      Record(s, Event.Register(w));
      if ctx.None? {
        return;
      }
      RunRegistered(w, id, ctx.value, intent);
    }

    /** A job stopped before it could begin settles at once; any other goes on to the engine. */
    method RunRegistered(w: nat, id: Id, ctx: Ctx, intent: Option<Status>)
      requires Valid() && w < |rest.workers|
      requires rest.workers[w] == if intent.Some? && Stopping(intent.value) then Skipping(id, ctx, intent.value)
                                  else Activating(id, ctx)
      modifies this
      ensures Valid() && Onward() && |rest.workers| == |old(rest.workers)| && rest.workers[w].Idle?
      ensures Granted(w)
    {
      Interfere(w, -1);
      if intent.Some? && Stopping(intent.value) {
        FinishJob(w, id, intent, true, false);
        return;
      }
      RunEngine(w, id, ctx);
    }

    /** From the active marker to the end of the job. */
    method RunEngine(w: nat, id: Id, ctx: Ctx)
      requires Valid() && w < |rest.workers| && rest.workers[w] == Activating(id, ctx)
      modifies this
      ensures Valid() && Onward() && |rest.workers| == |old(rest.workers)| && rest.workers[w].Idle?
      ensures Granted(w)
    {
      ghost var s := View();
      var saved := PersistActive(w, id, ctx);
      Record(s, Activate(w, saved));
      Interfere(w, -1);
      if !saved {
        FinishJob(w, id, None, false, true);
        return;
      }
      LeaveEngine(w, id, ctx);
    }

    method LeaveEngine(w: nat, id: Id, ctx: Ctx)
      requires Valid() && w < |rest.workers| && rest.workers[w] == InRun(id, ctx)
      modifies this
      ensures Valid() && Onward() && |rest.workers| == |old(rest.workers)| && rest.workers[w].Idle?
      ensures Granted(w)
    {
      ghost var s := View();
      var ok, down := EngineReturns(w, id, ctx);
      Record(s, Return(w, ok));
      Interfere(w, -1);
      FinishJob(w, id, None, ok, down);
    }

    // ----- the operator's calls

    /** The record has been loaded; the call goes on as `next`. */
    method CallStarts(o: nat, next: Call, ghost e: Event)
      requires o < |rest.calls| && rest.calls[o].Ready?
      requires Enabled(View(), e) && Step(View(), e) == SetC(View(), o, next)
      modifies this
      ensures Took(e) && |rest.calls| == |old(rest.calls)| && rest.calls[o] == next && refusals == old(refusals)
    {
      rest := rest.(calls := rest.calls[o := next]);
    }

    /** The same, with what the others do before the call goes on. */
    method BeginCall(o: nat, next: Call, ghost e: Event)
      requires Valid() && o < |rest.calls| && rest.calls[o].Ready?
      requires Enabled(View(), e) && Step(View(), e) == SetC(View(), o, next)
      modifies this
      ensures Valid() && Onward() && Began(e) && o < |rest.calls| && rest.calls[o] == next
      ensures refusals == old(refusals)
    {
      ghost var s := View();
      CallStarts(o, next, e);
      Record(s, e);
      Interfere(-1, o);
    }

    /** stop's critical section: the intent, and the context to cancel if a worker has registered the job. */
    method RecordStop(o: nat, id: Id, target: Status) returns (cancel: Option<Ctx>)
      requires o < |rest.calls| && rest.calls[o] == StopLock(id, target)
      modifies this
      ensures Took(Advance(o)) && |rest.calls| == |old(rest.calls)| && refusals == old(refusals)
      ensures cancel == if id in old(cancels) then Some(old(cancels)[id]) else None
      ensures rest.calls[o] == if cancel.Some? then StopCancel(id, cancel.value) else StopSave(id, target)
    {
      intents := intents[id := target];
      cancel := if id in cancels then Some(cancels[id]) else None;
      rest := rest.(calls :=
        rest.calls[o := if cancel.Some? then StopCancel(id, cancel.value) else StopSave(id, target)]);
    }

    method CancelJob(o: nat, id: Id, ctx: Ctx)
      requires o < |rest.calls| && rest.calls[o] == StopCancel(id, ctx)
      modifies this
      ensures Took(Advance(o)) && |rest.calls| == |old(rest.calls)| && rest.calls[o].Ready?
      ensures refusals == old(refusals) && ctx in rest.cancelled
    {
      rest := rest.(cancelled := rest.cancelled + {ctx}, calls := rest.calls[o := Ready]);
    }

    /** Saves a status on the call's behalf, or fails and ends it. */
    method SaveStatus(o: nat, id: Id, status: Status, next: Call) returns (saved: bool)
      requires o < |rest.calls|
      requires ((rest.calls[o] == StopSave(id, status) || rest.calls[o] == SaveBack(id, status)) && next.Ready?)
            || (rest.calls[o] == ResumeSave(id) && status == Queued && next == Enqueue(id))
      modifies this
      ensures Took(if saved then Advance(o) else CallFails(o)) && |rest.calls| == |old(rest.calls)|
      ensures refusals == if saved then old(refusals) else old(refusals) + 1
      ensures rest.calls[o] == (if saved then next else Ready) && (saved ==> id in store && store[id] == status)
    {
      SaveMoves(View(), o, id, status, next);
      saved := Ask();
      if saved {
        store := store[id := status];
      }
      rest := rest.(calls := rest.calls[o := if saved then next else Ready]);
    }

    /** Pause and Cancel: unless the download is unknown, the stop is recorded, and either the job's context is
        cancelled or the status saved. */
    method StopJob(o: nat, id: Id, target: Status) returns (done: bool)
      requires Valid() && o < |rest.calls| && rest.calls[o].Ready? && Stopping(target)
      modifies this
      ensures Valid() && Onward() && o < |rest.calls| && rest.calls[o].Ready?
      ensures done <==> old(id in store) && refusals == old(refusals)
      ensures past == old(past) || (Began(Stop(o, id, target)) && Ended(if done then Advance(o) else CallFails(o)))
      ensures done ==> past != old(past)
    {
      var loaded := Ask();
      if !loaded || id !in store {
        return false;
      }
      BeginCall(o, StopLock(id, target), Stop(o, id, target));
      done := StopNow(o, id, target);
    }

    method StopNow(o: nat, id: Id, target: Status) returns (done: bool)
      requires Valid() && o < |rest.calls| && rest.calls[o] == StopLock(id, target)
      modifies this
      ensures Valid() && Onward() && o < |rest.calls| && rest.calls[o].Ready?
      ensures Ended(if done then Advance(o) else CallFails(o)) && (done <==> refusals == old(refusals))
    {
      ghost var s := View();
      var cancel := RecordStop(o, id, target);
      Record(s, Advance(o));
      Interfere(-1, o);
      done := StopLands(o, id, target, cancel);
    }

    method StopLands(o: nat, id: Id, target: Status, cancel: Option<Ctx>) returns (done: bool)
      requires Valid() && o < |rest.calls|
      requires rest.calls[o] == if cancel.Some? then StopCancel(id, cancel.value) else StopSave(id, target)
      modifies this
      ensures Valid() && Onward() && o < |rest.calls| && rest.calls[o].Ready?
      ensures Ended(if done then Advance(o) else CallFails(o)) && (done <==> refusals == old(refusals))
      ensures done ==> if cancel.Some? then cancel.value in rest.cancelled else id in store && store[id] == target
    {
      ghost var s := View();
      if cancel.Some? {
        CancelJob(o, id, cancel.value);
        Record(s, Advance(o));
        return true;
      }
      done := SaveStatus(o, id, target, Ready);
      Record(s, if done then Advance(o) else CallFails(o));
    }

    /** The critical section of Resume. */
    method ClearIntent(o: nat, id: Id)
      requires o < |rest.calls| && rest.calls[o] == ResumeLock(id)
      modifies this
      ensures Took(Advance(o)) && |rest.calls| == |old(rest.calls)| && rest.calls[o] == ResumeSave(id)
      ensures refusals == old(refusals)
    {
      intents := intents - {id};
      rest := rest.(calls := rest.calls[o := ResumeSave(id)]);
    }

    /** enqueue, which a closed Manager refuses. */
    method AddEntry(o: nat, id: Id) returns (added: bool)
      requires o < |rest.calls| && rest.calls[o] == Enqueue(id)
      modifies this
      ensures Took(Advance(o)) && |rest.calls| == |old(rest.calls)| && rest.calls[o].Ready?
      ensures added == !closed && (added ==> id in rest.pending) && refusals == old(refusals)
    {
      added := !closed;
      rest := rest.(pending := if closed then rest.pending else rest.pending + multiset{id},
                    calls := rest.calls[o := Ready]);
    }

    /** Resume: from a settled status only, the stop is forgotten, the record queued, and the download enqueued. */
    method ResumeJob(o: nat, id: Id) returns (done: bool)
      requires Valid() && o < |rest.calls| && rest.calls[o].Ready?
      modifies this
      ensures Valid() && Onward() && o < |rest.calls| && rest.calls[o].Ready?
      ensures done ==> refusals == old(refusals) && id in rest.pending
      ensures done ==> id in old(store) && old(store)[id] in {Paused, Canceled, FailedS, Completed}
      ensures id in old(store) && old(store)[id] in {Paused, Canceled, FailedS, Completed} ==>
        done || refusals > old(refusals) || closed
      ensures past == old(past) || Began(Resume(o, id))
      ensures done ==> past != old(past)
    {
      var loaded := Ask();
      if !loaded || Unresumable(id) {
        return false;
      }
      BeginCall(o, ResumeLock(id), Resume(o, id));
      done := ResumeNow(o, id);
    }

    method ResumeNow(o: nat, id: Id) returns (done: bool)
      requires Valid() && o < |rest.calls| && rest.calls[o] == ResumeLock(id)
      modifies this
      ensures Valid() && Onward() && o < |rest.calls| && rest.calls[o].Ready?
      ensures if done then id in rest.pending && refusals == old(refusals) else closed || refusals > old(refusals)
    {
      ghost var s := View();
      ClearIntent(o, id);
      Record(s, Advance(o));
      Interfere(-1, o);
      done := ResumeLands(o, id);
    }

    method ResumeLands(o: nat, id: Id) returns (done: bool)
      requires Valid() && o < |rest.calls| && rest.calls[o] == ResumeSave(id)
      modifies this
      ensures Valid() && Onward() && o < |rest.calls| && rest.calls[o].Ready?
      ensures if done then id in rest.pending && refusals == old(refusals) else closed || refusals > old(refusals)
    {
      ghost var s := View();
      var saved := SaveStatus(o, id, Queued, Enqueue(id));
      Record(s, if saved then Advance(o) else CallFails(o));
      if !saved {
        return false;
      }
      done := EnqueueSaved(o, id);
    }

    method EnqueueSaved(o: nat, id: Id) returns (done: bool)
      requires Valid() && o < |rest.calls| && rest.calls[o] == Enqueue(id)
      modifies this
      ensures Valid() && Onward() && o < |rest.calls| && rest.calls[o].Ready?
      ensures refusals == old(refusals) && if done then id in rest.pending else closed
    {
      Interfere(-1, o);
      ghost var s := View();
      done := AddEntry(o, id);
      Record(s, Advance(o));
    }

    /** SetPriority, SetAuth and SetRate: the record is loaded, changed and saved back whole, with the status it had. */
    method EditJob(o: nat, id: Id) returns (done: bool)
      requires Valid() && o < |rest.calls| && rest.calls[o].Ready?
      modifies this
      ensures Valid() && Onward() && o < |rest.calls| && rest.calls[o].Ready?
      ensures done <==> old(id in store) && refusals == old(refusals)
      ensures past == old(past) || (Began(Edit(o, id)) && Ended(if done then Advance(o) else CallFails(o)))
      ensures done ==> past != old(past) && id in store && store[id] == old(store[id])
    {
      var loaded := Ask();
      if !loaded || id !in store {
        return false;
      }
      var status := store[id];
      BeginCall(o, SaveBack(id, status), Edit(o, id));
      done := EditLands(o, id, status);
    }

    method EditLands(o: nat, id: Id, status: Status) returns (done: bool)
      requires Valid() && o < |rest.calls| && rest.calls[o] == SaveBack(id, status)
      modifies this
      ensures Valid() && Onward() && o < |rest.calls| && rest.calls[o].Ready?
      ensures Ended(if done then Advance(o) else CallFails(o)) && (done <==> refusals == old(refusals))
      ensures past != old(past) && (done ==> id in store && store[id] == status)
    {
      ghost var s := View();
      done := SaveStatus(o, id, status, Ready);
      Record(s, if done then Advance(o) else CallFails(o));
    }
  }

  /** The worker is about to call finishJob with these arguments. */
  predicate Finishing(x: Worker, id: Id, startIntent: Option<Status>, ok: bool, down: bool) {
    if startIntent.Some? then
      x.Skipping? && x.id == id && x.intent == startIntent.value && ok && !down
    else
      x.Returned? && x.id == id && x.ok == ok && x.down == down
  }

  /** finishJob's critical section, by the arguments it is called with. */
  function Taken(s: State, w: nat, id: Id, startIntent: Option<Status>, ok: bool, down: bool): State
    requires w < |s.workers|
  {
    var intent := if id in s.intents then Some(s.intents[id]) else startIntent;
    var next :=
      if id in s.deleting then Removing(id)
      else if id in s.restarting then Resetting(id, 0)
      else Classifying(id, ok, intent, down);
    State(s.store, s.pending, s.cancels - {id}, s.intents - {id}, s.deleting - {id}, s.restarting - {id},
          s.cancelled, s.nextCtx, s.closed, s.workers[w := next], s.calls)
  }

  lemma FinishTakes(s: State, w: nat, id: Id, startIntent: Option<Status>, ok: bool, down: bool)
    requires w < |s.workers| && Finishing(s.workers[w], id, startIntent, ok, down)
    ensures Enabled(s, FinishLock(w)) && Step(s, FinishLock(w)) == Taken(s, w, id, startIntent, ok, down)
  {
  }

  /** The status that settling forces on the record. */
  function ForcedBy(ok: bool, intent: Option<Status>, down: bool): Option<Status> {
    if intent == Some(Paused) || intent == Some(Canceled) then intent else if !ok && down then Some(Queued) else None
  }

  function Forced(s: State, w: nat, forced: Option<Status>, saved: bool): State
    requires w < |s.workers| && s.workers[w].Classifying?
  {
    var id := s.workers[w].id;
    var store := if forced.Some? && saved && id in s.store then s.store[id := forced.value] else s.store;
    s.(store := store, workers := s.workers[w := Idle])
  }

  lemma ClassifyMoves(s: State, w: nat)
    requires w < |s.workers| && s.workers[w].Classifying?
    ensures forall saved :: Enabled(s, Classify(w, saved))
    ensures var x := s.workers[w]; var forced := ForcedBy(x.ok, x.seen, x.down);
      forall saved :: Step(s, Classify(w, saved)) == Forced(s, w, forced, saved)
  {
  }

  lemma SaveMoves(s: State, o: nat, id: Id, status: Status, next: Call)
    requires o < |s.calls|
    requires ((s.calls[o] == StopSave(id, status) || s.calls[o] == SaveBack(id, status)) && next.Ready?)
          || (s.calls[o] == ResumeSave(id) && status == Queued && next == Enqueue(id))
    ensures Enabled(s, Advance(o))
    ensures Step(s, Advance(o)) == s.(store := s.store[id := status], calls := s.calls[o := next])
    ensures Enabled(s, CallFails(o)) && Step(s, CallFails(o)) == s.(calls := s.calls[o := Ready])
  {
  }

  /** The store refuses what worker w's step asks of it. */
  predicate Denied(e: Event, w: int) {
    || (e.LoadRecord? && e.w == w && !e.loaded) || (e.Activate? && e.w == w && !e.saved)
    || (e.Classify? && e.w == w && !e.saved) || (e.SettleFails? && e.w == w)
  }

  predicate MovesCall(e: Event, o: int) {
    && (e.Submit? || e.Stop? || e.Resume? || e.Restart? || e.Delete? || e.Edit? || e.Advance? || e.CallFails?)
    && e.o == o
  }

  lemma OthersMove(s: State, e: Event, w: int, o: int)
    requires Enabled(s, e) && !(MovesWorker(e) && e.w == w) && !MovesCall(e, o)
    ensures var t := Step(s, e);
      && |t.workers| == |s.workers| && |t.calls| == |s.calls|
      && (0 <= w < |s.workers| ==> t.workers[w] == s.workers[w])
      && (0 <= o < |s.calls| ==> t.calls[o] == s.calls[o])
  {
    WorkersMove(s, e);
    match e
    case Advance(p) => AdvanceCalls(s, p);
    case _ =>
  }
}
