/** What the Manager's events leave in the record and the queue, in plain fields, and that a finished download stays
    finished (internal/engine/manager.go). */
module ManagerLaws {
  import opened Manager
  import opened ManagerFacts

  // ----- settling

  /** classify: with a stop seen, a save that lands stores that stop. Without one, a success and an error outside a
      shutdown leave the record as the engine left it, and an error in a shutdown puts the job back if the save lands.
      Nothing else changes, and the worker is free. */
  lemma ClassifyStores(s: State, w: nat, saved: bool)
    requires Enabled(s, Classify(w, saved))
    ensures var x := s.workers[w]; var t := Step(s, Classify(w, saved));
      && t == s.(store := t.store, workers := s.workers[w := Idle])
      && t.store ==
         (if x.seen == Some(Paused) && saved && x.id in s.store then s.store[x.id := Paused]
          else if x.seen == Some(Canceled) && saved && x.id in s.store then s.store[x.id := Canceled]
          else if x.seen != Some(Paused) && x.seen != Some(Canceled) && !x.ok && x.down && saved && x.id in s.store
          then s.store[x.id := Queued]
          else s.store)
  {
  }

  /** finishJob: the intent recorded during the job goes before the one the worker started with; a Delete goes before a
      Restart, and both before classifying; all entries of the job are gone. */
  lemma FinishTakesAll(s: State, w: nat)
    requires Enabled(s, FinishLock(w))
    ensures var x := s.workers[w]; var t := Step(s, FinishLock(w)); var id := x.id;
      && t.store == s.store && t.pending == s.pending && t.calls == s.calls && t.cancelled == s.cancelled
      && id !in t.intents && id !in t.cancels && id !in t.deleting && id !in t.restarting
      && |t.workers| == |s.workers|
      && (id in s.deleting ==> t.workers[w] == Removing(id))
      && (id !in s.deleting && id in s.restarting ==> t.workers[w] == Resetting(id, 0))
      && (id !in s.deleting && id !in s.restarting ==>
            && t.workers[w].Classifying? && t.workers[w].id == id
            && (t.workers[w].ok <==> x.Skipping? || x.ok) && (t.workers[w].down <==> x.Returned? && x.down)
            && (id in s.intents ==> t.workers[w].seen == Some(s.intents[id]))
            && (id !in s.intents && x.Skipping? ==> t.workers[w].seen == Some(x.intent))
            && (id !in s.intents && x.Returned? ==> t.workers[w].seen == None))
  {
  }

  // ----- starting

  /** run drops a job whose record cannot be loaded, is gone, or is completed, and goes on with every other. */
  lemma LoadTakesUnfinished(s: State, w: nat, loaded: bool)
    requires Enabled(s, LoadRecord(w, loaded))
    ensures var id := s.workers[w].id; var t := Step(s, LoadRecord(w, loaded));
      t == s.(workers := s.workers[w :=
        if loaded && id in s.store && s.store[id] != Completed then Starting(id) else Idle])
  {
  }

  /** Registering: a closed Manager and a job somebody has registered drop it; a recorded Pause or Cancel makes it skip
      the transfer; everything else goes on to the engine under a context of its own, never used before. */
  lemma RegisterDecides(s: State, w: nat)
    requires Enabled(s, Register(w))
    ensures var id := s.workers[w].id; var t := Step(s, Register(w));
      if s.closed || id in s.cancels then t == s.(workers := s.workers[w := Idle])
      else
        && t.cancels == s.cancels[id := s.nextCtx] && t.nextCtx == s.nextCtx + 1 && t.intents == s.intents
        && t.store == s.store && t.pending == s.pending && t.calls == s.calls
        && t.workers == s.workers[w :=
             if id in s.intents && s.intents[id] == Paused then Skipping(id, s.nextCtx, Paused)
             else if id in s.intents && s.intents[id] == Canceled then Skipping(id, s.nextCtx, Canceled)
             else Activating(id, s.nextCtx)]
  {
  }

  /** The active marker: if it lands the engine runs, if not the job settles as in a shutdown. */
  lemma ActivateRuns(s: State, w: nat, saved: bool)
    requires Enabled(s, Activate(w, saved))
    ensures var x := s.workers[w]; var t := Step(s, Activate(w, saved));
      if saved then t == s.(store := s.store[x.id := Active], workers := s.workers[w := InRun(x.id, x.ctx)])
      else t == s.(workers := s.workers[w := Returned(x.id, x.ctx, false, true)])
  {
  }

  lemma ReturnSeesShutdown(s: State, w: nat, ok: bool)
    requires Enabled(s, Return(w, ok))
    ensures var x := s.workers[w];
      Step(s, Return(w, ok)) == s.(workers := s.workers[w := Returned(x.id, x.ctx, ok, s.closed)])
  {
  }

  /** A worker takes up any pending download when it is free, as long as the Manager is open; the entry goes, one of
      several. */
  lemma PopTakesOne(s: State, w: nat, id: Id)
    requires w < |s.workers|
    ensures Enabled(s, Pop(w, id)) <==> s.workers[w] == Idle && !s.closed && id in s.pending
    ensures Enabled(s, Pop(w, id)) ==>
      Step(s, Pop(w, id)) == s.(pending := s.pending - multiset{id}, workers := s.workers[w := Popped(id)])
  {
  }

  // ----- whole calls

  /** What a free call slot may be used for: a Submit of a new id; a Resume of a settled download; a Pause or Cancel, a
      Restart, a Delete or a changed setting of any that is on record. */
  lemma CallsAccepted(s: State, o: nat, id: Id, target: Status)
    requires o < |s.calls| && s.calls[o].Ready?
    ensures Enabled(s, Submit(o, id)) <==> id !in s.store
    ensures Enabled(s, Stop(o, id, target)) <==> id in s.store && target in {Paused, Canceled}
    ensures Enabled(s, Resume(o, id)) <==> id in s.store && s.store[id] in {Paused, Canceled, FailedS, Completed}
    ensures Enabled(s, Restart(o, id)) <==> id in s.store
    ensures Enabled(s, Delete(o, id)) <==> id in s.store
    ensures Enabled(s, Edit(o, id)) <==> id in s.store
  {
  }

  /** The store may refuse whatever a call asks of it, and the call then ends with nothing done. */
  lemma StoreMayRefuse(s: State, o: nat)
    requires o < |s.calls|
    requires s.calls[o].StopSave? || s.calls[o].ResumeSave? || s.calls[o].DeleteRemove? || s.calls[o].SaveBack?
          || (s.calls[o].RestartReset? && s.calls[o].stage == 0)
    ensures Enabled(s, CallFails(o)) && Step(s, CallFails(o)) == s.(calls := s.calls[o := Ready])
  {
  }

  /** So it may what a worker asks of it to carry out a Delete or a Restart, and the worker is then free. */
  lemma SettlingMayFail(s: State, w: nat)
    requires w < |s.workers|
    requires s.workers[w].Removing? || (s.workers[w].Resetting? && s.workers[w].stage == 0)
    ensures Enabled(s, SettleFails(w)) && Step(s, SettleFails(w)) == s.(workers := s.workers[w := Idle])
  {
  }

  /** A changed setting ends with the status that was loaded put back. */
  lemma EditPutsBack(s: State, o: nat, id: Id)
    requires Enabled(s, Edit(o, id))
    ensures Step(s, Edit(o, id)) == s.(calls := s.calls[o := SaveBack(id, s.store[id])])
    ensures forall t: State, status | o < |t.calls| && t.calls[o] == SaveBack(id, status) ::
      Enabled(t, Advance(o)) && Step(t, Advance(o)) == t.(store := t.store[id := status], calls := t.calls[o := Ready])
  {
  }

  /** What a call does when its next operations are taken one after the other. */
  function Advanced(s: State, o: nat, n: nat): State
    requires o < |s.calls|
    ensures |Advanced(s, o, n).calls| == |s.calls|
    decreases n
  {
    if n == 0 || s.calls[o].Ready? then s
    else
      AdvanceCalls(s, o);
      Advanced(DoAdvance(s, o), o, n - 1)
  }

  /** A Restart of a download that nobody runs ends with the record queued, no stop recorded, and the download pending,
      unless the Manager is closed. */
  lemma RestartRequeues(s: State, o: nat, id: Id)
    requires Enabled(s, Restart(o, id)) && id !in s.cancels
    ensures var t := Advanced(Step(s, Restart(o, id)), o, 4);
      && t.calls[o].Ready? && t.store == s.store[id := Queued] && t.intents == s.intents - {id}
      && t.pending == if s.closed then s.pending else s.pending + multiset{id}
  {
    var a := Step(s, Restart(o, id));
    var b := DoAdvance(a, o);
    var c := DoAdvance(b, o);
    var d := DoAdvance(c, o);
    assert a.calls[o] == RestartLock(id) && b.calls[o] == RestartReset(id, 0);
    assert c.calls[o] == RestartReset(id, 1) && d.calls[o] == RestartReset(id, 2);
    assert Advanced(a, o, 4) == Advanced(b, o, 3) == Advanced(c, o, 2) == Advanced(d, o, 1);
    assert Advanced(DoAdvance(d, o), o, 0) == DoAdvance(d, o);
  }

  /** A Delete of a download that nobody runs ends with no record of it. */
  lemma DeleteRemoves(s: State, o: nat, id: Id)
    requires Enabled(s, Delete(o, id)) && id !in s.cancels
    ensures var t := Advanced(Step(s, Delete(o, id)), o, 2); t.calls[o].Ready? && t.store == s.store - {id}
  {
    var a := Step(s, Delete(o, id));
    var b := DoAdvance(a, o);
    assert a.calls[o] == DeleteLock(id) && b.calls[o] == DeleteRemove(id);
    assert Advanced(a, o, 2) == Advanced(b, o, 1) == Advanced(DoAdvance(b, o), o, 0);
  }

  /** Restarting or deleting one that a worker runs cancels the job's context and leaves the rest to that worker. */
  lemma HandedToWorker(s: State, o: nat, id: Id, restart: bool)
    requires Enabled(s, if restart then Restart(o, id) else Delete(o, id)) && id in s.cancels
    ensures var t := Advanced(Step(s, if restart then Restart(o, id) else Delete(o, id)), o, 2);
      && t.calls[o].Ready? && t.store == s.store && t.cancelled == s.cancelled + {s.cancels[id]}
      && t.restarting == (if restart then s.restarting + {id} else s.restarting)
      && t.deleting == (if restart then s.deleting else s.deleting + {id})
  {
    var a := Step(s, if restart then Restart(o, id) else Delete(o, id));
    var b := DoAdvance(a, o);
    assert b.calls[o] == if restart then RestartCancel(s.cancels[id]) else DeleteCancel(s.cancels[id]);
    assert Advanced(a, o, 2) == Advanced(b, o, 1) == Advanced(DoAdvance(b, o), o, 0);
  }

  /** The worker that settles a Delete removes the record; one that settles a Restart leaves it queued, without a stop,
      and pending, and stops short if the record is gone. */
  lemma SettleCarriesOut(s: State, w: nat)
    requires Enabled(s, Settle(w))
    ensures var x := s.workers[w]; var t := Step(s, Settle(w));
      && (x.Removing? ==> t == s.(store := s.store - {x.id}, workers := s.workers[w := Idle]))
      && (x.Resetting? && x.stage == 0 && x.id in s.store ==>
            t == s.(store := s.store[x.id := Queued], workers := s.workers[w := Resetting(x.id, 1)]))
      && (x.Resetting? && x.stage == 0 && x.id !in s.store ==> t == s.(workers := s.workers[w := Idle]))
      && (x.Resetting? && x.stage == 1 ==>
            t == s.(intents := s.intents - {x.id}, workers := s.workers[w := Resetting(x.id, 2)]))
      && (x.Resetting? && x.stage >= 2 ==>
            t == s.(pending := if s.closed then s.pending else s.pending + multiset{x.id},
                    workers := s.workers[w := Idle]))
  {
  }

  /** The Manager can be shut down at any time, and that is for good: over any continuation nothing is enqueued any more
      and no worker takes up anything. */
  lemma ShutdownIsForGood(s: State, es: seq<Event>, w: nat, id: Id)
    requires ValidHistory(s.(closed := true), es)
    ensures Enabled(s, Shutdown) && Step(s, Shutdown) == s.(closed := true)
    ensures var t := AfterAll(Step(s, Shutdown), es);
      t.closed && t.pending == s.pending && !Enabled(t, Pop(w, id)) && !Enabled(t, Recover(id))
  {
    ClosedRun(s.(closed := true), es);
  }

  lemma {:induction false} ClosedRun(s: State, es: seq<Event>)
    requires s.closed && ValidHistory(s, es)
    ensures AfterAll(s, es).closed && AfterAll(s, es).pending == s.pending
    decreases |es|
  {
    if es != [] {
      ClosedStep(s, es[0]);
      ClosedRun(Step(s, es[0]), es[1..]);
    }
  }

  lemma ClosedStep(s: State, e: Event)
    requires s.closed && Enabled(s, e)
    ensures Step(s, e).closed && Step(s, e).pending == s.pending
  {
    match e
    case FinishLock(w) =>
    case Advance(o) => ClosedCall(s, s.calls[o]);
    case _ =>
  }

  lemma ClosedCall(s: State, c: Call)
    requires s.closed
    ensures Effect(s, c).closed && Effect(s, c).pending == s.pending
  {
  }

  /** A Submit ends with a new record, queued, and the download pending. */
  lemma SubmitQueues(s: State, o: nat, id: Id)
    requires Enabled(s, Submit(o, id))
    ensures var t := Advanced(Step(s, Submit(o, id)), o, 1);
      && t.calls[o].Ready? && t.store == s.store[id := Queued]
      && t.pending == if s.closed then s.pending else s.pending + multiset{id}
  {
    var a := Step(s, Submit(o, id));
    assert a.calls[o] == Enqueue(id);
    assert Advanced(a, o, 1) == Advanced(DoAdvance(a, o), o, 0);
  }

  /** A Resume ends with the stop forgotten, the record queued, and the download pending. */
  lemma ResumeQueues(s: State, o: nat, id: Id)
    requires Enabled(s, Resume(o, id))
    ensures var t := Advanced(Step(s, Resume(o, id)), o, 3);
      && t.calls[o].Ready? && t.store == s.store[id := Queued] && t.intents == s.intents - {id}
      && t.pending == if s.closed then s.pending else s.pending + multiset{id}
  {
    var a := Step(s, Resume(o, id));
    var b := DoAdvance(a, o);
    var c := DoAdvance(b, o);
    assert a.calls[o] == ResumeLock(id) && b.calls[o] == ResumeSave(id) && c.calls[o] == Enqueue(id);
    assert Advanced(a, o, 3) == Advanced(b, o, 2) == Advanced(c, o, 1) == Advanced(DoAdvance(c, o), o, 0);
  }

  /** A stop ends with itself recorded, and either the running job's context cancelled or the status stored. */
  lemma StopStops(s: State, o: nat, id: Id, target: Status)
    requires Enabled(s, Stop(o, id, target))
    ensures var t := Advanced(Step(s, Stop(o, id, target)), o, 2);
      && t.calls[o].Ready? && t.intents == s.intents[id := target]
      && (if id in s.cancels then t.cancelled == s.cancelled + {s.cancels[id]} && t.store == s.store
          else t.cancelled == s.cancelled && t.store == s.store[id := target])
  {
    var a := Step(s, Stop(o, id, target));
    var b := DoAdvance(a, o);
    assert b.calls[o] == if id in s.cancels then StopCancel(id, s.cancels[id]) else StopSave(id, target);
    assert Advanced(a, o, 2) == Advanced(b, o, 1) == Advanced(DoAdvance(b, o), o, 0);
  }

  // ----- a finished download stays finished

  predicate About(c: Call, id: Id) {
    !c.Ready? && !c.StopCancel? && !c.RestartCancel? && !c.DeleteCancel? && c.id == id
  }

  /** A worker that can only leave a completed record alone: it has not loaded it yet, or its engine run has nothing
      left to report but success. */
  predicate Harmless(w: Worker, id: Id) {
    match w
    case Idle => true
    case Popped(k) => true
    case InRun(k, _) => true
    case Returned(k, _, ok, _) => k == id ==> ok
    case Classifying(k, ok, seen, _) => k == id ==> ok && seen == None
    case _ => w.id != id
  }

  ghost predicate Finished(s: State, id: Id) {
    && id in s.store && s.store[id] == Completed && id !in s.intents && id !in s.deleting && id !in s.restarting
    && (forall o | 0 <= o < |s.calls| :: !About(s.calls[o], id))
    && (forall w | 0 <= w < |s.workers| :: Harmless(s.workers[w], id))
  }

  /** The operator asks something of the download, or the engine reports something else than completion. */
  predicate Touches(s: State, e: Event, id: Id)
    requires Enabled(s, e)
  {
    match e
    case Stop(_, k, _) => k == id
    case Resume(_, k) => k == id
    case Restart(_, k) => k == id
    case Delete(_, k) => k == id
    case Edit(_, k) => k == id
    case RunSaves(w, status) => s.workers[w].id == id && status != Completed
    case Return(w, ok) => s.workers[w].id == id && !ok
    case _ => false
  }

  ghost predicate LeftAlone(s: State, es: seq<Event>, id: Id)
    requires ValidHistory(s, es)
    decreases |es|
  {
    es == [] || (!Touches(s, es[0], id) && LeftAlone(Step(s, es[0]), es[1..], id))
  }

  lemma FinishedCall(s: State, o: nat, id: Id)
    requires Finished(s, id) && Enabled(s, Advance(o))
    ensures Finished(DoAdvance(s, o), id)
  {
    AdvanceFrame(s, s.calls[o]);
    AdvanceCalls(s, o);
    FinishedEffect(s, s.calls[o], id);
  }

  lemma FinishedEffect(s: State, c: Call, id: Id)
    requires !c.Ready? && !About(c, id) && id in s.store && s.store[id] == Completed
    requires id !in s.intents && id !in s.deleting && id !in s.restarting
    ensures var t := Effect(s, c);
      && id in t.store && t.store[id] == Completed && id !in t.intents && id !in t.deleting && id !in t.restarting
      && !About(NextCall(s, c), id)
  {
  }

  lemma FinishedStep(s: State, e: Event, id: Id)
    requires Finished(s, id) && Enabled(s, e) && !Touches(s, e, id)
    ensures Finished(Step(s, e), id)
  {
    if e.Advance? {
      FinishedCall(s, e.o, id);
    } else if MovesWorker(e) || e.RunSaves? {
      FinishedWorker(s, e, id);
    } else {
      FinishedElsewhere(s, e, id);
    }
  }

  lemma FinishedWorker(s: State, e: Event, id: Id)
    requires Finished(s, id) && Enabled(s, e) && !Touches(s, e, id) && (MovesWorker(e) || e.RunSaves?)
    ensures Finished(Step(s, e), id)
  {
    match e
    case FinishLock(w) => FinishedFinish(s, w, id);
    case Classify(w, saved) => FinishedClassify(s, w, saved, id);
    case Settle(w) => FinishedSettle(s, w, id);
    case _ =>
  }

  lemma FinishedFinish(s: State, w: nat, id: Id)
    requires Finished(s, id) && Enabled(s, FinishLock(w))
    ensures Finished(DoFinish(s, w), id)
  {
  }

  lemma FinishedClassify(s: State, w: nat, saved: bool, id: Id)
    requires Finished(s, id) && Enabled(s, Classify(w, saved))
    ensures Finished(DoClassify(s, w, saved), id)
  {
  }

  lemma FinishedSettle(s: State, w: nat, id: Id)
    requires Finished(s, id) && Enabled(s, Settle(w))
    ensures Finished(Step(s, Settle(w)), id)
  {
  }

  lemma FinishedElsewhere(s: State, e: Event, id: Id)
    requires Finished(s, id) && Enabled(s, e) && !Touches(s, e, id)
    requires !e.Advance? && !MovesWorker(e) && !e.RunSaves?
    ensures Finished(Step(s, e), id)
  {
  }

  lemma {:induction false} FinishedRun(s: State, es: seq<Event>, id: Id)
    requires Finished(s, id) && ValidHistory(s, es) && LeftAlone(s, es, id)
    ensures Finished(AfterAll(s, es), id)
    decreases |es|
  {
    if es == [] {
    } else {
      FinishedStep(s, es[0], id);
      FinishedRun(Step(s, es[0]), es[1..], id);
    }
  }

  /** A download that the engine records as completed, with no request about it under way and no other worker past
      loading it, is still recorded as completed after its worker has settled and ever after, whatever else happens,
      until the operator asks something of it: a second entry that is still pending does not run it again. */
  lemma CompletedStays(s: State, w: nat, es: seq<Event>)
    requires Enabled(s, RunSaves(w, Completed))
    requires var id := s.workers[w].id;
      && id !in s.intents && id !in s.deleting && id !in s.restarting
      && (forall o | 0 <= o < |s.calls| :: !About(s.calls[o], id))
      && (forall v | 0 <= v < |s.workers| && v != w :: s.workers[v].Idle? || s.workers[v].Popped?
                                                      || s.workers[v].id != id)
      && ValidHistory(Step(s, RunSaves(w, Completed)), es)
      && LeftAlone(Step(s, RunSaves(w, Completed)), es, id)
    ensures var id := s.workers[w].id; var t := AfterAll(Step(s, RunSaves(w, Completed)), es);
      id in t.store && t.store[id] == Completed
  {
    FinishedRun(Step(s, RunSaves(w, Completed)), es, s.workers[w].id);
  }
}
