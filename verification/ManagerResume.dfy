/** When an accepted Resume is carried out (internal/engine/manager.go:431-453). */
module ManagerResume {
  import opened Manager
  import opened ManagerFacts
  import opened ManagerTickets

  /** The job of this worker is past the point where a Resume could reach it: it was skipped, or the engine has it. */
  predicate Spent(w: Worker) { w.Skipping? || w.InRun? || w.Returned? }

  /** A worker on its way into the engine. */
  predicate Coming(w: Worker, id: Id) {
    (w.Popped? || w.Starting? || w.Activating?) && w.id == id
  }

  ghost predicate SomeSpent(s: State, id: Id) {
    exists w :: 0 <= w < |s.workers| && Spent(s.workers[w]) && s.workers[w].id == id
  }

  ghost predicate SomeComing(s: State, id: Id) {
    exists w :: 0 <= w < |s.workers| && Coming(s.workers[w], id)
  }

  predicate Finished(s: State, id: Id) { id in s.store && s.store[id].Completed? }

  /** A call that changes a setting has loaded the record as completed, and will save it back as such. */
  ghost predicate HoldsFinished(s: State, id: Id) {
    exists o :: 0 <= o < |s.calls| && s.calls[o] == SaveBack(id, Completed)
  }

  /** Such a call loads it now. */
  predicate TakesFinished(s: State, e: Event, id: Id) {
    e.Edit? && e.id == id && Finished(s, id)
  }

  /** No call does so in es. */
  ghost predicate Spared(s: State, es: seq<Event>, id: Id)
    decreases |es|
  {
    es == [] ||
    (Enabled(s, es[0]) ==> !TakesFinished(s, es[0], id) && Spared(Step(s, es[0]), es[1..], id))
  }

  /** The Resume of call o is still going on, or the download is pending or on its way into the engine. */
  ghost predicate Kept(s: State, o: nat, id: Id) {
    || (o < |s.calls| && (s.calls[o] == ResumeSave(id) || s.calls[o] == Enqueue(id)))
    || id in s.pending
    || SomeComing(s, id)
  }

  /** The download enters the engine. */
  predicate Enters(s: State, e: Event, id: Id)
    requires Enabled(s, e)
  {
    e.Activate? && e.saved && s.workers[e.w].id == id
  }

  /** A stop or a removal of the download, a shutdown, or a store failure on the Resume's way. */
  predicate Thwarts(s: State, e: Event, o: nat, id: Id)
    requires Enabled(s, e)
  {
    match e
    case Shutdown => true
    case Advance(p) =>
      (match s.calls[p]
       case StopLock(k, _) => k == id
       case DeleteRemove(k) => k == id
       case _ => false)
    case CallFails(p) => p == o
    case LoadRecord(w, loaded) => !loaded && s.workers[w].id == id
    case Activate(w, saved) => !saved && s.workers[w].id == id
    case Settle(w) => s.workers[w].Removing? && s.workers[w].id == id
    case _ => false
  }

  /** es leads from s to t without thwarting the Resume, and the download has not entered the engine yet. */
  ghost predicate Leads(s: State, es: seq<Event>, o: nat, id: Id, t: State)
    decreases |es|
  {
    if es == [] then s == t
    else
      && Enabled(s, es[0]) && !Thwarts(s, es[0], o, id) && !Enters(s, es[0], id)
      && Leads(Step(s, es[0]), es[1..], o, id, t)
  }

  // ----- the Resume is kept

  ghost predicate Underway(s: State, o: nat, id: Id) {
    && !s.closed && id !in s.intents && !SomeSpent(s, id) && !HoldsFinished(s, id)
    && (|| (o < |s.calls| && s.calls[o] == ResumeSave(id))
        || (Loadable(s, id)
            && ((o < |s.calls| && s.calls[o] == Enqueue(id)) || id in s.pending || SomeComing(s, id))))
  }

  lemma SpentStep(s: State, e: Event, o: nat, id: Id)
    requires Enabled(s, e) && id !in s.intents && !SomeSpent(s, id)
    requires !Thwarts(s, e, o, id) && !Enters(s, e, id)
    ensures !SomeSpent(Step(s, e), id)
  {
    var t := Step(s, e);
    WorkersMove(s, e);
    forall w | 0 <= w < |t.workers| && t.workers[w] != Idle && t.workers[w].id == id ensures !Spent(t.workers[w]) {
      assert t.workers[w] == s.workers[w] || (MovesWorker(e) && e.w == w);
    }
  }

  lemma LoadableStep(s: State, e: Event, o: nat, id: Id)
    requires Inv(s) && Enabled(s, e) && Loadable(s, id) && !SomeSpent(s, id) && !HoldsFinished(s, id)
    requires !Thwarts(s, e, o, id) && !Enters(s, e, id)
    ensures Loadable(Step(s, e), id)
  {
    UnfinishedStep(s, e, id);
    match e
    case Advance(p) => CallKeepsRecord(s, s.calls[p], id);
    case _ =>
  }

  lemma CallKeepsRecord(s: State, c: Call, id: Id)
    requires id in s.store && !(c.DeleteRemove? && c.id == id)
    ensures id in Effect(s, c).store
  {
  }

  /** Only the engine, or a call with an old copy, records a download as completed. */
  lemma UnfinishedStep(s: State, e: Event, id: Id)
    requires Inv(s) && Enabled(s, e) && !Finished(s, id) && !SomeSpent(s, id) && !HoldsFinished(s, id)
    ensures !Finished(Step(s, e), id)
  {
    match e
    case Advance(p) => UnfinishedCall(s, s.calls[p], id);
    case Classify(w, saved) => UnfinishedClassify(s, w, saved, id);
    case RunSaves(w, status) => assert s.workers[w].id != id;
    case _ =>
  }

  lemma UnfinishedClassify(s: State, w: nat, saved: bool, id: Id)
    requires Enabled(s, Classify(w, saved)) && !Finished(s, id)
    ensures !Finished(DoClassify(s, w, saved), id)
  {
  }

  lemma UnfinishedCall(s: State, c: Call, id: Id)
    requires !Finished(s, id) && c != SaveBack(id, Completed) && (c.StopSave? ==> Stopping(c.target))
    ensures !Finished(Effect(s, c), id)
  {
  }

  lemma HeldStep(s: State, e: Event, id: Id)
    requires Enabled(s, e) && !HoldsFinished(s, id) && !TakesFinished(s, e, id)
    ensures !HoldsFinished(Step(s, e), id)
  {
    var t := Step(s, e);
    match e
    case Advance(p) => AdvanceCalls(s, p);
    case _ =>
  }

  /** What is pending or coming stays so, except that the call itself may be what brings it there. */
  lemma ComingStep(s: State, e: Event, o: nat, id: Id)
    requires Inv(s) && Enabled(s, e) && Loadable(s, id) && !s.closed && id !in s.intents && !SomeSpent(s, id)
    requires !Thwarts(s, e, o, id) && !Enters(s, e, id)
    requires id in s.pending || SomeComing(s, id)
    ensures id in Step(s, e).pending || SomeComing(Step(s, e), id)
  {
    var t := Step(s, e);
    WorkersMove(s, e);
    if id in s.pending {
      PendingStep(s, e, id);
    } else {
      var w :| 0 <= w < |s.workers| && Coming(s.workers[w], id);
      if !(MovesWorker(e) && e.w == w) {
        assert t.workers[w] == s.workers[w];
      } else if e.Register? && id in s.cancels {
        assert Owned(s.workers, id);
        var v :| 0 <= v < |s.workers| && Registered(s.workers[v]) && s.workers[v].id == id;
        assert Coming(s.workers[v], id) && t.workers[v] == s.workers[v];
      } else {
        assert Coming(t.workers[w], id);
      }
    }
  }

  lemma PendingStep(s: State, e: Event, id: Id)
    requires Enabled(s, e) && id in s.pending
    ensures id in Step(s, e).pending || SomeComing(Step(s, e), id)
  {
    match e
    case Pop(w, k) => assert k == id ==> Coming(Step(s, e).workers[w], id);
    case Advance(p) =>
    case _ =>
  }

  lemma CallStays(s: State, e: Event, o: nat)
    requires Enabled(s, e) && o < |s.calls| && !s.calls[o].Ready?
    requires !(e.Advance? && e.o == o) && !(e.CallFails? && e.o == o)
    ensures var t := Step(s, e); o < |t.calls| && t.calls[o] == s.calls[o]
  {
    match e
    case Advance(p) => AdvanceCalls(s, p);
    case _ =>
  }

  lemma UnderwayStep(s: State, e: Event, o: nat, id: Id)
    requires Inv(s) && Enabled(s, e) && Underway(s, o, id) && !Thwarts(s, e, o, id) && !Enters(s, e, id)
    requires !TakesFinished(s, e, id)
    ensures Underway(Step(s, e), o, id)
  {
    var t := Step(s, e);
    SpentStep(s, e, o, id);
    HeldStep(s, e, id);
    StaysOpen(s, e, o, id);
    if o < |s.calls| && s.calls[o] == ResumeSave(id) {
      if e != Advance(o) { CallStays(s, e, o); }
    } else {
      LoadableStep(s, e, o, id);
      if o < |s.calls| && s.calls[o] == Enqueue(id) {
        if e != Advance(o) { CallStays(s, e, o); }
      } else {
        ComingStep(s, e, o, id);
      }
    }
  }

  lemma StaysOpen(s: State, e: Event, o: nat, id: Id)
    requires Enabled(s, e) && !s.closed && id !in s.intents && !Thwarts(s, e, o, id)
    ensures !Step(s, e).closed && id !in Step(s, e).intents
  {
    match e
    case Advance(p) =>
      if id in DoAdvance(s, p).intents { AdvanceIntents(s, p, id); }
    case _ =>
  }

  lemma {:induction false} UnderwayRun(s: State, es: seq<Event>, o: nat, id: Id, t: State)
    requires Inv(s) && Underway(s, o, id) && Leads(s, es, o, id, t) && Spared(s, es, id)
    ensures Kept(t, o, id)
    decreases |es|
  {
    if es == [] {
    } else {
      StepKeepsInv(s, es[0]);
      UnderwayStep(s, es[0], o, id);
      UnderwayRun(Step(s, es[0]), es[1..], o, id, t);
    }
  }

  /** A Resume that takes the lock while no job of the download has been skipped or is in the engine, and no call holds
      it or later takes it as completed, is carried out: until the download enters the engine, and unless it is
      thwarted, it is always on its way there. */
  lemma ResumeIsKept(s0: State, es0: seq<Event>, o: nat, id: Id, es: seq<Event>, t: State)
    requires Fresh(s0) && ValidHistory(s0, es0)
    requires var s := AfterAll(s0, es0);
      && o < |s.calls| && s.calls[o] == ResumeLock(id) && !s.closed && !SomeSpent(s, id) && !HoldsFinished(s, id)
      && Leads(Step(s, Advance(o)), es, o, id, t) && Spared(Step(s, Advance(o)), es, id)
    ensures Kept(t, o, id)
  {
    FreshInv(s0);
    HistoryKeepsInv(s0, es0);
    var s := AfterAll(s0, es0);
    StepKeepsInv(s, Advance(o));
    HeldStep(s, Advance(o), id);
    UnderwayRun(Step(s, Advance(o)), es, o, id, t);
  }

  /** Unless the download was completed when it was resumed, nobody can take it as completed. */
  lemma {:induction false} UnfinishedIsSpared(s: State, es: seq<Event>, o: nat, id: Id, t: State)
    requires Inv(s) && !Finished(s, id) && !SomeSpent(s, id) && !HoldsFinished(s, id) && id !in s.intents
    requires !s.closed && Leads(s, es, o, id, t)
    ensures Spared(s, es, id)
    decreases |es|
  {
    if es == [] {
    } else {
      StepKeepsInv(s, es[0]);
      UnfinishedStep(s, es[0], id);
      SpentStep(s, es[0], o, id);
      HeldStep(s, es[0], id);
      StaysOpen(s, es[0], o, id);
      UnfinishedIsSpared(Step(s, es[0]), es[1..], o, id, t);
    }
  }

  // ----- and not otherwise

  lemma {:induction false} LeadsThen(s: State, es: seq<Event>, o: nat, id: Id, t: State, e: Event)
    requires Leads(s, es, o, id, t) && Enabled(t, e) && !Thwarts(t, e, o, id) && !Enters(t, e, id)
    ensures Leads(s, es + [e], o, id, Step(t, e))
    decreases |es|
  {
    var all := es + [e];
    if es == [] {
      assert all[1..] == [];
    } else {
      assert all[0] == es[0] && all[1..] == es[1..] + [e];
      LeadsThen(Step(s, es[0]), es[1..], o, id, t, e);
    }
  }

  /** The Resume goes through. */
  lemma Enqueued(b: State, es: seq<Event>, o: nat, id: Id, s: State) returns (more: seq<Event>, t: State)
    requires Leads(b, es, o, id, s) && o < |s.calls| && s.calls[o] == ResumeSave(id) && !s.closed
    ensures Leads(b, more, o, id, t)
    ensures t == s.(store := s.store[id := Queued], pending := s.pending + multiset{id}, calls := s.calls[o := Ready])
  {
    var e := Advance(o);
    LeadsThen(b, es, o, id, s, e);
    t := s.(store := s.store[id := Queued], calls := s.calls[o := Enqueue(id)]);
    assert Step(s, e) == t;
    LeadsThen(b, es + [e], o, id, t, e);
    more, t := es + [e] + [e], Step(t, e);
  }

  /** Idle worker w dequeues the download and drops it, since another is still registered for it. */
  lemma DequeuedAndDropped(s: State, es: seq<Event>, o: nat, id: Id, t: State, w: nat)
    returns (more: seq<Event>, u: State)
    requires Leads(s, es, o, id, t) && id in t.cancels && !t.closed && id in t.pending && Loadable(t, id)
    requires w < |t.workers| && t.workers[w].Idle?
    ensures Leads(s, more, o, id, u) && u == t.(pending := t.pending - multiset{id})
  {
    LeadsThen(s, es, o, id, t, Pop(w, id));
    more, u := es + [Pop(w, id)], Step(t, Pop(w, id));
    LeadsThen(s, more, o, id, u, LoadRecord(w, true));
    more, u := more + [LoadRecord(w, true)], Step(u, LoadRecord(w, true));
    LeadsThen(s, more, o, id, u, Register(w));
    more, u := more + [Register(w)], Step(u, Register(w));
    assert u.workers == t.workers;
  }

  /** Nothing carries the download towards the engine. */
  ghost predicate Nothing(t: State, o: nat, id: Id) {
    && o < |t.calls| && t.calls[o].Ready? && id !in t.pending && !SomeComing(t, id)
    && id !in t.deleting && id !in t.restarting
  }

  /** Worker v, back from the engine or skipped, settles; it has nothing to do with the Resume. */
  lemma SettlesAway(s: State, es: seq<Event>, o: nat, id: Id, t: State, v: nat) returns (more: seq<Event>, u: State)
    requires Leads(s, es, o, id, t) && Nothing(t, o, id)
    requires v < |t.workers| && (t.workers[v].Skipping? || t.workers[v].Returned?) && t.workers[v].id == id
    ensures Leads(s, more, o, id, u) && !Kept(u, o, id)
  {
    LeadsThen(s, es, o, id, t, FinishLock(v));
    more, u := es + [FinishLock(v)], Step(t, FinishLock(v));
    forall x | 0 <= x < |u.workers| ensures !Coming(u.workers[x], id) {
      assert x != v ==> u.workers[x] == t.workers[x];
    }
  }

  lemma LeavesAway(s: State, es: seq<Event>, o: nat, id: Id, t: State, v: nat) returns (more: seq<Event>, u: State)
    requires Leads(s, es, o, id, t) && v < |t.workers| && Spent(t.workers[v]) && t.workers[v].id == id
    requires Nothing(t, o, id)
    ensures Leads(s, more, o, id, u) && !Kept(u, o, id)
  {
    if t.workers[v].InRun? {
      LeadsThen(s, es, o, id, t, Return(v, false));
      var back := Step(t, Return(v, false));
      assert back.workers == t.workers[v := back.workers[v]];
      forall x | 0 <= x < |back.workers| ensures !Coming(back.workers[x], id) {
        assert x != v ==> back.workers[x] == t.workers[x];
      }
      more, u := SettlesAway(s, es + [Return(v, false)], o, id, back, v);
    } else {
      more, u := SettlesAway(s, es, o, id, t, v);
    }
  }

  /** No continuation loses the Resume. */
  ghost predicate NeverLost(b: State, o: nat, id: Id) {
    forall es, t | Leads(b, es, o, id, t) :: Kept(t, o, id)
  }

  lemma LostToOwner(b: State, o: nat, id: Id, v: nat, w: nat)
    requires Inv(b) && o < |b.calls| && b.calls[o] == ResumeSave(id) && !b.closed
    requires v < |b.workers| && Spent(b.workers[v]) && b.workers[v].id == id && w < |b.workers| && b.workers[w].Idle?
    requires id !in b.pending && !SomeComing(b, id) && id !in b.deleting && id !in b.restarting
    ensures !NeverLost(b, o, id)
  {
    assert id in b.cancels by { assert Registered(b.workers[v]); }
    var es, t := Enqueued(b, [], o, id, b);
    es, t := DequeuedAndDropped(b, es, o, id, t, w);
    assert t.workers == b.workers && t.pending == b.pending;
    es, t := LeavesAway(b, es, o, id, t, v);
  }

  /** The worker that dequeues the download takes it for done. */
  lemma DroppedAsDone(b: State, es: seq<Event>, o: nat, id: Id, t: State, w: nat) returns (more: seq<Event>, u: State)
    requires Leads(b, es, o, id, t) && !t.closed && t.pending[id] == 1 && !SomeComing(t, id) && Finished(t, id)
    requires o < |t.calls| && t.calls[o].Ready? && w < |t.workers| && t.workers[w].Idle?
    ensures Leads(b, more, o, id, u) && !Kept(u, o, id)
  {
    LeadsThen(b, es, o, id, t, Pop(w, id));
    more, u := es + [Pop(w, id)], Step(t, Pop(w, id));
    LeadsThen(b, more, o, id, u, LoadRecord(w, true));
    more, u := more + [LoadRecord(w, true)], Step(u, LoadRecord(w, true));
    assert u.workers == t.workers;
  }

  /** A call saves the record back as completed, and then the download is dropped. */
  lemma OverwrittenAndDropped(b: State, es: seq<Event>, o: nat, id: Id, t: State, q: nat, w: nat)
    requires Leads(b, es, o, id, t) && !t.closed && t.pending[id] == 1 && !SomeComing(t, id)
    requires o < |t.calls| && t.calls[o].Ready? && q < |t.calls| && t.calls[q] == SaveBack(id, Completed)
    requires w < |t.workers| && t.workers[w].Idle?
    ensures !NeverLost(b, o, id)
  {
    LeadsThen(b, es, o, id, t, Advance(q));
    var more, u := DroppedAsDone(b, es + [Advance(q)], o, id, Step(t, Advance(q)), w);
  }

  lemma LostToCopy(b: State, o: nat, id: Id, q: nat, w: nat)
    requires o < |b.calls| && b.calls[o] == ResumeSave(id) && !b.closed
    requires q < |b.calls| && b.calls[q] == SaveBack(id, Completed) && w < |b.workers| && b.workers[w].Idle?
    requires id !in b.pending && !SomeComing(b, id)
    ensures !NeverLost(b, o, id)
  {
    var es, t := Enqueued(b, [], o, id, b);
    OverwrittenAndDropped(b, es, o, id, t, q, w);
  }

  /** A call takes the download as completed before the Resume has saved it as queued. */
  lemma LostToEdit(b: State, o: nat, id: Id, p: nat, w: nat)
    requires o < |b.calls| && b.calls[o] == ResumeSave(id) && !b.closed && Finished(b, id)
    requires p < |b.calls| && b.calls[p].Ready? && w < |b.workers| && b.workers[w].Idle?
    requires id !in b.pending && !SomeComing(b, id)
    ensures !NeverLost(b, o, id)
  {
    LeadsThen(b, [], o, id, b, Edit(p, id));
    var es, t := [] + [Edit(p, id)], Step(b, Edit(p, id));
    es, t := Enqueued(b, es, o, id, t);
    OverwrittenAndDropped(b, es, o, id, t, p, w);
  }

  /** Exactly: with a worker idle and a call free, and the download otherwise left alone, an accepted Resume is never
      lost if and only if, when it took the lock, no job of the download had been skipped or was in the engine, no call
      held it as completed, and it was not completed. */
  lemma ResumeIsKeptExactly(s0: State, es0: seq<Event>, o: nat, id: Id, w: nat, p: nat)
    requires Fresh(s0) && ValidHistory(s0, es0)
    requires var s := AfterAll(s0, es0);
      && o < |s.calls| && s.calls[o] == ResumeLock(id) && !s.closed
      && w < |s.workers| && s.workers[w].Idle? && p < |s.calls| && s.calls[p].Ready?
      && id !in s.pending && !SomeComing(s, id) && id !in s.deleting && id !in s.restarting
    ensures var s := AfterAll(s0, es0);
      NeverLost(Step(s, Advance(o)), o, id) <==> !SomeSpent(s, id) && !HoldsFinished(s, id) && !Finished(s, id)
  {
    FreshInv(s0);
    HistoryKeepsInv(s0, es0);
    var s := AfterAll(s0, es0);
    var b := Step(s, Advance(o));
    StepKeepsInv(s, Advance(o));
    assert b == s.(intents := s.intents - {id}, calls := s.calls[o := ResumeSave(id)]);
    if v :| 0 <= v < |s.workers| && Spent(s.workers[v]) && s.workers[v].id == id {
      LostToOwner(b, o, id, v, w);
    } else if q :| 0 <= q < |s.calls| && s.calls[q] == SaveBack(id, Completed) {
      LostToCopy(b, o, id, q, w);
    } else if Finished(s, id) {
      LostToEdit(b, o, id, p, w);
    } else {
      HeldStep(s, Advance(o), id);
      forall es, t | Leads(b, es, o, id, t) ensures Kept(t, o, id) {
        UnfinishedIsSpared(b, es, o, id, t);
        ResumeIsKept(s0, es0, o, id, es, t);
      }
    }
  }

  // ----- the store

  /** Nothing brings the download to the engine. */
  ghost predicate Gone(s: State, id: Id) { id !in s.pending && !SomeComing(s, id) }

  lemma GoneStep(s: State, e: Event, id: Id)
    requires Enabled(s, e) && Gone(s, id) && !Requeues(s, e, id)
    ensures Gone(Step(s, e), id) && !Enters(s, e, id)
  {
    var t := Step(s, e);
    PendingFalls(s, e, id);
    WorkersMove(s, e);
    assert e.Activate? ==> !Coming(s.workers[e.w], id);
    if MovesWorker(e) { NoneComes(s, e, id); }
  }

  lemma NoneComes(s: State, e: Event, id: Id)
    requires Enabled(s, e) && MovesWorker(e) && id !in s.pending && !Coming(s.workers[e.w], id)
    ensures !Coming(Step(s, e).workers[e.w], id)
  {
    if e.FinishLock? {
    } else if e.Settle? {
      SettleComesNot(s, e.w, id);
    }
  }

  lemma SettleComesNot(s: State, w: nat, id: Id)
    requires Enabled(s, Settle(w))
    ensures !Coming(Step(s, Settle(w)).workers[w], id)
  {
  }

  lemma {:induction false} GoneRun(s: State, es: seq<Event>, id: Id)
    requires ValidHistory(s, es) && NeverRequeued(s, es, id) && Gone(s, id)
    ensures Gone(AfterAll(s, es), id)
    decreases |es|
  {
    if es == [] {
    } else {
      GoneStep(s, es[0], id);
      GoneRun(Step(s, es[0]), es[1..], id);
    }
  }

  /** The store loses a download for good: when the one worker on its way with it, nothing else being pending, cannot
      load the record or mark it active, then over every continuation that does not requeue the download nothing is
      pending for it and no worker is on its way into the engine with it. */
  lemma StoreFailureLoses(s: State, e: Event, id: Id, es: seq<Event>)
    requires Enabled(s, e) && ((e.LoadRecord? && !e.loaded) || (e.Activate? && !e.saved)) && s.workers[e.w].id == id
    requires id !in s.pending && forall x | 0 <= x < |s.workers| && x != e.w :: !Coming(s.workers[x], id)
    requires ValidHistory(Step(s, e), es) && NeverRequeued(Step(s, e), es, id)
    ensures Gone(AfterAll(Step(s, e), es), id)
  {
    var t := Step(s, e);
    forall x | 0 <= x < |t.workers| ensures !Coming(t.workers[x], id) {
      assert x != e.w ==> t.workers[x] == s.workers[x];
    }
    GoneRun(t, es, id);
  }
}
