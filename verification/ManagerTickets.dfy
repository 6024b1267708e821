/** How long a stop lasts: what besides a Resume can put a stopped download back into the engine
    (internal/engine/manager.go). */
module ManagerTickets {
  import opened Manager
  import opened ManagerFacts

  /** A worker on its way to run the download, or running it. */
  predicate Carries(w: Worker, id: Id) {
    !w.Idle? && w.id == id && (w.Popped? || w.Starting? || Registered(w))
  }

  function Carriers(ws: seq<Worker>, id: Id): nat {
    if ws == [] then 0 else Carriers(ws[..|ws| - 1], id) + (if Carries(ws[|ws| - 1], id) then 1 else 0)
  }

  /** The chances the download has, without another enqueue, of entering the engine: its pending entries and the
      workers that dequeued it and have not settled. */
  function Tickets(s: State, id: Id): nat { s.pending[id] + Carriers(s.workers, id) }

  /** An event that enqueues the download, or forgets that it was stopped. */
  predicate Requeues(s: State, e: Event, id: Id)
    requires Enabled(s, e)
  {
    match e
    case Recover(k) => k == id
    case Advance(o) =>
      (match s.calls[o]
       case Enqueue(k) => k == id
       case ResumeLock(k) => k == id
       case RestartReset(k, stage) => k == id && stage >= 1
       case _ => false)
    case Settle(w) => s.workers[w].Resetting? && s.workers[w].id == id && s.workers[w].stage >= 1
    case _ => false
  }

  ghost predicate NeverRequeued(s: State, es: seq<Event>, id: Id)
    requires ValidHistory(s, es)
    decreases |es|
  {
    es == [] || (!Requeues(s, es[0], id) && NeverRequeued(Step(s, es[0]), es[1..], id))
  }

  // ----- counting

  lemma {:induction false} CarriersUpdate(ws: seq<Worker>, w: nat, x: Worker, id: Id)
    requires w < |ws|
    ensures Carriers(ws[w := x], id)
         == Carriers(ws, id) - (if Carries(ws[w], id) then 1 else 0) + (if Carries(x, id) then 1 else 0)
  {
    var last := |ws| - 1;
    if w < last {
      CarriersUpdate(ws[..last], w, x, id);
      assert ws[w := x][..last] == ws[..last][w := x];
    } else {
      assert ws[w := x][..last] == ws[..last];
    }
  }

  lemma {:induction false} CarrierCounts(ws: seq<Worker>, w: nat, id: Id)
    requires w < |ws| && Carries(ws[w], id)
    ensures Carriers(ws, id) >= 1
  {
    if w < |ws| - 1 {
      CarrierCounts(ws[..|ws| - 1], w, id);
    } else {
      assert Carries(ws[|ws| - 1], id);
    }
  }

  lemma WorkerEventCarries(s: State, e: Event, id: Id)
    requires Enabled(s, e) && MovesWorker(e) && !e.Pop?
    ensures Carries(Step(s, e).workers[e.w], id) ==> Carries(s.workers[e.w], id)
    ensures e.FinishLock? && s.workers[e.w].id == id ==>
      Carries(s.workers[e.w], id) && !Carries(Step(s, e).workers[e.w], id)
  {
    match e
    case FinishLock(w) =>
    case _ =>
  }

  lemma PendingFalls(s: State, e: Event, id: Id)
    requires Enabled(s, e) && !Requeues(s, e, id)
    ensures Step(s, e).pending[id] <= s.pending[id]
  {
    match e
    case Advance(o) =>
    case _ =>
  }

  /** Without a requeue no event creates a ticket; settling a worker uses its own up. */
  lemma TicketsFall(s: State, e: Event, id: Id)
    requires Enabled(s, e) && !Requeues(s, e, id)
    ensures Tickets(Step(s, e), id) <= Tickets(s, id)
    ensures e.FinishLock? && s.workers[e.w].id == id ==> Tickets(Step(s, e), id) < Tickets(s, id)
  {
    var t := Step(s, e);
    PendingFalls(s, e, id);
    WorkersMove(s, e);
    if MovesWorker(e) {
      if !e.Pop? { WorkerEventCarries(s, e, id); }
      CarriersUpdate(s.workers, e.w, t.workers[e.w], id);
    }
  }

  // ----- a stop lasts

  /** The stop is still recorded, or nothing is left that it would have to hold back. */
  ghost predicate Holds(s: State, id: Id) {
    Tickets(s, id) <= 1 && (id in s.intents || Tickets(s, id) == 0)
  }

  lemma HoldsStep(s: State, e: Event, id: Id)
    requires Enabled(s, e) && !Requeues(s, e, id) && Holds(s, id)
    ensures Holds(Step(s, e), id)
  {
    TicketsFall(s, e, id);
    if id in s.intents && !(e.FinishLock? && s.workers[e.w].id == id) {
      IntentLeaves(s, e, id);
    }
  }

  /** Only settling forgets a stop that nobody withdraws. */
  lemma IntentLeaves(s: State, e: Event, id: Id)
    requires Enabled(s, e) && !Requeues(s, e, id) && id in s.intents
    requires !(e.FinishLock? && s.workers[e.w].id == id)
    ensures id in Step(s, e).intents
  {
    match e
    case Advance(o) => if !(s.calls[o].StopLock? && s.calls[o].id == id) { EffectKeepsIntent(s, s.calls[o], id); }
    case _ =>
  }

  lemma {:induction false} HoldsRun(s: State, es: seq<Event>, id: Id)
    requires ValidHistory(s, es) && NeverRequeued(s, es, id) && Holds(s, id)
    ensures Holds(AfterAll(s, es), id)
    decreases |es|
  {
    if es == [] {
    } else {
      HoldsStep(s, es[0], id);
      HoldsRun(Step(s, es[0]), es[1..], id);
    }
  }

  /** A stop that finds at most one ticket lasts: however many workers there are and whatever happens, as long as
      nothing enqueues the download again or withdraws the stop, no worker is ever in the engine for it, or about to
      be, with a live context. The job settling does not end this. */
  lemma StoppedStaysStopped(s0: State, es0: seq<Event>, o: nat, es: seq<Event>, w: nat)
    requires Fresh(s0) && ValidHistory(s0, es0)
    requires var s := AfterAll(s0, es0);
      && o < |s.calls| && s.calls[o].StopLock? && Tickets(s, s.calls[o].id) <= 1
      && ValidHistory(Step(s, Advance(o)), es) && NeverRequeued(Step(s, Advance(o)), es, s.calls[o].id)
    ensures var s := AfterAll(s0, es0); var t := AfterAll(Step(s, Advance(o)), es);
      w < |t.workers| && Going(t.workers[w]) && t.workers[w].id == s.calls[o].id ==>
        Doomed(t.workers[w].ctx, t.cancelled, t.calls)
  {
    FreshInv(s0);
    HistoryKeepsInv(s0, es0);
    var s := AfterAll(s0, es0);
    var id := s.calls[o].id;
    StepKeepsInv(s, Advance(o));
    HistoryKeepsInv(Step(s, Advance(o)), es);
    TicketsFall(s, Advance(o), id);
    HoldsRun(Step(s, Advance(o)), es, id);
    var t := AfterAll(Step(s, Advance(o)), es);
    if w < |t.workers| && Going(t.workers[w]) && t.workers[w].id == id {
      CarrierCounts(t.workers, w, id);
    }
  }

  // ----- and only then

  predicate Cancelling(c: Call) { c.StopCancel? || c.RestartCancel? || c.DeleteCancel? }

  /** No context is cancelled, or due to be, before it exists. */
  predicate CtxOk(s: State) {
    && (forall c | c in s.cancelled :: c < s.nextCtx)
    && (forall o | 0 <= o < |s.calls| && Cancelling(s.calls[o]) :: s.calls[o].ctx < s.nextCtx)
  }

  lemma CancelsOld(s: State, id: Id)
    requires Inv(s) && id in s.cancels
    ensures s.cancels[id] < s.nextCtx
  {
    assert Owned(s.workers, id);
  }

  lemma CtxStep(s: State, e: Event)
    requires Inv(s) && CtxOk(s) && Enabled(s, e)
    ensures CtxOk(Step(s, e))
  {
    if e.Advance? {
      CtxCall(s, s.calls[e.o]);
      AdvanceFrame(s, s.calls[e.o]);
    } else {
      CtxElsewhere(s, e);
    }
  }

  lemma CtxElsewhere(s: State, e: Event)
    requires CtxOk(s) && Enabled(s, e) && !e.Advance?
    ensures CtxOk(Step(s, e))
  {
  }

  lemma CtxCall(s: State, c: Call)
    requires Inv(s) && CtxOk(s) && (Cancelling(c) ==> c.ctx < s.nextCtx)
    ensures Cancelling(NextCall(s, c)) ==> NextCall(s, c).ctx < s.nextCtx
    ensures forall x | x in Effect(s, c).cancelled :: x < s.nextCtx
  {
    if !c.Ready? && !Cancelling(c) && c.id in s.cancels { CancelsOld(s, c.id); }
  }

  lemma {:induction false} CtxRun(s: State, es: seq<Event>)
    requires Inv(s) && CtxOk(s) && ValidHistory(s, es)
    ensures Inv(AfterAll(s, es)) && CtxOk(AfterAll(s, es))
    decreases |es|
  {
    if es == [] {
    } else {
      StepKeepsInv(s, es[0]);
      CtxStep(s, es[0]);
      CtxRun(Step(s, es[0]), es[1..]);
    }
  }

  /** es leads quietly from s to t: nothing in it requeues the download or withdraws the stop. */
  ghost predicate Quietly(s: State, es: seq<Event>, id: Id, t: State) {
    ValidHistory(s, es) && NeverRequeued(s, es, id) && AfterAll(s, es) == t
  }

  lemma {:induction false} QuietThen(s: State, es: seq<Event>, id: Id, t: State, e: Event)
    requires Quietly(s, es, id, t) && Enabled(t, e) && !Requeues(t, e, id)
    ensures Quietly(s, es + [e], id, Step(t, e))
    decreases |es|
  {
    var all := es + [e];
    if es == [] {
      assert all[1..] == [];
    } else {
      assert all[0] == es[0] && all[1..] == es[1..] + [e];
      QuietThen(Step(s, es[0]), es[1..], id, t, e);
    }
  }

  /** Nobody has been let into the engine for the download with a live context. */
  ghost predicate NoneLive(t: State, id: Id) {
    forall w | 0 <= w < |t.workers| && Going(t.workers[w]) && t.workers[w].id == id ::
      Doomed(t.workers[w].ctx, t.cancelled, t.calls)
  }

  ghost predicate Lasts(s: State, es: seq<Event>, id: Id) {
    ValidHistory(s, es) && NeverRequeued(s, es, id) ==> NoneLive(AfterAll(s, es), id)
  }

  /** The job has settled with its stop; the download could be picked up again. */
  predicate SettledAs(t: State, id: Id) {
    && !t.closed && id !in t.cancels && id !in t.intents
    && id in t.store && !t.store[id].Completed?
  }

  /** The download is stopped, and could be run. */
  predicate StoppedAs(t: State, id: Id) {
    && !t.closed && id in t.intents && id !in t.deleting && id !in t.restarting
  }

  /** The record is there and not completed, so a worker that dequeues the download takes it. */
  predicate Loadable(t: State, id: Id) { id in t.store && !t.store[id].Completed? }

  lemma Quiet(b: State, es: seq<Event>, id: Id, s: State, e: Event) returns (more: seq<Event>, t: State)
    requires Quietly(b, es, id, s) && Inv(s) && CtxOk(s) && Enabled(s, e) && !Requeues(s, e, id)
    ensures Quietly(b, more, id, t) && t == Step(s, e) && Inv(t) && CtxOk(t)
  {
    QuietThen(b, es, id, s, e);
    StepKeepsInv(s, e);
    CtxStep(s, e);
    more, t := es + [e], Step(s, e);
  }

  /** The job of worker v settles with its stop, which is forgotten. */
  lemma SettlesStopped(b: State, es: seq<Event>, id: Id, s: State, v: nat) returns (more: seq<Event>, t: State)
    requires Quietly(b, es, id, s) && Inv(s) && CtxOk(s) && StoppedAs(s, id) && id in s.store
    requires v < |s.workers| && (s.workers[v].Skipping? || s.workers[v].Returned?) && s.workers[v].id == id
    ensures Quietly(b, more, id, t) && SettledAs(t, id) && Inv(t) && CtxOk(t)
    ensures t.workers == s.workers[v := Idle] && t.pending == s.pending
  {
    more, t := Quiet(b, es, id, s, FinishLock(v));
    assert t.workers[v].Classifying? && t.workers[v].seen == Some(s.intents[id]);
    more, t := Quiet(b, more, id, t, Classify(v, true));
  }

  lemma LeavesEngine(b: State, es: seq<Event>, id: Id, s: State, v: nat) returns (more: seq<Event>, t: State)
    requires Quietly(b, es, id, s) && Inv(s) && CtxOk(s) && StoppedAs(s, id)
    requires v < |s.workers| && s.workers[v].InRun? && s.workers[v].id == id
    ensures Quietly(b, more, id, t) && SettledAs(t, id) && Inv(t) && CtxOk(t)
    ensures t.workers == s.workers[v := Idle] && t.pending == s.pending
  {
    more, t := Quiet(b, es, id, s, RunSaves(v, FailedS));
    more, t := Quiet(b, more, id, t, Return(v, false));
    more, t := SettlesStopped(b, more, id, t, v);
  }

  /** Wherever a registered job of a stopped download is, it can settle. */
  lemma RegisteredSettles(b: State, es: seq<Event>, id: Id, s: State, v: nat) returns (more: seq<Event>, t: State)
    requires Quietly(b, es, id, s) && Inv(s) && CtxOk(s) && StoppedAs(s, id)
    requires v < |s.workers| && Registered(s.workers[v]) && s.workers[v].id == id
    requires s.workers[v].InRun? || Loadable(s, id)
    ensures Quietly(b, more, id, t) && SettledAs(t, id) && Inv(t) && CtxOk(t)
    ensures t.workers == s.workers[v := Idle] && t.pending == s.pending
  {
    if s.workers[v].InRun? {
      more, t := LeavesEngine(b, es, id, s, v);
    } else if s.workers[v].Activating? {
      more, t := Quiet(b, es, id, s, Activate(v, true));
      more, t := LeavesEngine(b, more, id, t, v);
    } else {
      more, t := SettlesStopped(b, es, id, s, v);
    }
  }

  /** A worker on its way to registering skips the stopped download, and settles. */
  lemma SkipsThenSettles(b: State, es: seq<Event>, id: Id, s: State, v: nat) returns (more: seq<Event>, t: State)
    requires Quietly(b, es, id, s) && Inv(s) && CtxOk(s) && StoppedAs(s, id) && Loadable(s, id) && id !in s.cancels
    requires v < |s.workers| && s.workers[v] == Starting(id)
    ensures Quietly(b, more, id, t) && SettledAs(t, id) && Inv(t) && CtxOk(t)
    ensures t.workers == s.workers[v := Idle] && t.pending == s.pending
  {
    more, t := Quiet(b, es, id, s, Register(v));
    more, t := SettlesStopped(b, more, id, t, v);
  }

  lemma LoadsThenSettles(b: State, es: seq<Event>, id: Id, s: State, v: nat) returns (more: seq<Event>, t: State)
    requires Quietly(b, es, id, s) && Inv(s) && CtxOk(s) && StoppedAs(s, id) && Loadable(s, id) && id !in s.cancels
    requires v < |s.workers| && s.workers[v] == Popped(id)
    ensures Quietly(b, more, id, t) && SettledAs(t, id) && Inv(t) && CtxOk(t)
    ensures t.workers == s.workers[v := Idle] && t.pending == s.pending
  {
    more, t := Quiet(b, es, id, s, LoadRecord(v, true));
    more, t := SkipsThenSettles(b, more, id, t, v);
  }

  /** A worker that has loaded the record of such a download gets in. */
  lemma GetsIn(s: State, es: seq<Event>, id: Id, t: State, x: nat) returns (more: seq<Event>, u: State)
    requires Quietly(s, es, id, t) && Inv(t) && CtxOk(t) && SettledAs(t, id)
    requires x < |t.workers| && t.workers[x] == Starting(id)
    ensures Quietly(s, more, id, u) && !NoneLive(u, id)
  {
    QuietThen(s, es, id, t, Register(x));
    more, u := es + [Register(x)], Step(t, Register(x));
    assert Going(u.workers[x]) && u.workers[x].ctx == t.nextCtx;
  }

  lemma LoadsThenGetsIn(s: State, es: seq<Event>, id: Id, t: State, x: nat) returns (more: seq<Event>, u: State)
    requires Quietly(s, es, id, t) && Inv(t) && CtxOk(t) && SettledAs(t, id)
    requires x < |t.workers| && t.workers[x] == Popped(id)
    ensures Quietly(s, more, id, u) && !NoneLive(u, id)
  {
    var e := LoadRecord(x, true);
    QuietThen(s, es, id, t, e);
    StepKeepsInv(t, e);
    more, u := GetsIn(s, es + [e], id, Step(t, e), x);
  }

  lemma {:induction false} AnyCarrier(ws: seq<Worker>, id: Id) returns (x: nat)
    requires Carriers(ws, id) >= 1
    ensures x < |ws| && Carries(ws[x], id)
  {
    var last := |ws| - 1;
    if Carries(ws[last], id) {
      x := last;
    } else {
      x := AnyCarrier(ws[..last], id);
    }
  }

  /** After the stop has been forgotten, one more ticket is enough. */
  lemma OneMore(b: State, es: seq<Event>, id: Id, t: State, v: nat) returns (more: seq<Event>, u: State)
    requires Quietly(b, es, id, t) && Inv(t) && CtxOk(t) && SettledAs(t, id) && Tickets(t, id) >= 1
    requires v < |t.workers| && t.workers[v].Idle?
    ensures Quietly(b, more, id, u) && !NoneLive(u, id)
  {
    if t.pending[id] > 0 {
      more, u := Quiet(b, es, id, t, Pop(v, id));
      more, u := LoadsThenGetsIn(b, more, id, u, v);
    } else {
      var x := AnyCarrier(t.workers, id);
      assert !Registered(t.workers[x]);
      if t.workers[x].Popped? {
        more, u := LoadsThenGetsIn(b, es, id, t, x);
      } else {
        more, u := GetsIn(b, es, id, t, x);
      }
    }
  }

  /** Worker w has the download, or is free to take it, and the record lets it. */
  predicate CanRun(s: State, w: nat, id: Id) {
    && w < |s.workers|
    && ((s.workers[w].InRun? && s.workers[w].id == id)
        || (Loadable(s, id) && (s.workers[w].Idle? || Carries(s.workers[w], id))))
  }

  /** Some worker is registered for the download, and settles. */
  lemma OwnerSettles(s: State, id: Id, v: nat) returns (es: seq<Event>, t: State)
    requires Inv(s) && CtxOk(s) && StoppedAs(s, id) && Tickets(s, id) >= 2
    requires v < |s.workers| && Registered(s.workers[v]) && s.workers[v].id == id
    requires s.workers[v].InRun? || Loadable(s, id)
    ensures Quietly(s, es, id, t) && !NoneLive(t, id)
  {
    es, t := RegisteredSettles(s, [], id, s, v);
    CarriersUpdate(s.workers, v, Idle, id);
    es, t := OneMore(s, es, id, t, v);
  }

  /** Nobody is; worker v, on its way, registers, skips the download and settles. */
  lemma NextSettles(b: State, es: seq<Event>, id: Id, s: State, v: nat) returns (more: seq<Event>, t: State)
    requires Quietly(b, es, id, s) && Inv(s) && CtxOk(s) && StoppedAs(s, id) && Tickets(s, id) >= 2
    requires v < |s.workers| && Carries(s.workers[v], id) && Loadable(s, id) && !Owned(s.workers, id)
    ensures Quietly(b, more, id, t) && !NoneLive(t, id)
  {
    assert !Registered(s.workers[v]);
    if s.workers[v].Popped? {
      more, t := LoadsThenSettles(b, es, id, s, v);
    } else {
      more, t := SkipsThenSettles(b, es, id, s, v);
    }
    CarriersUpdate(s.workers, v, Idle, id);
    more, t := OneMore(b, more, id, t, v);
  }

  /** With a second ticket about, the stopped download can come back without anybody asking for it. */
  lemma ComesBack(s: State, w: nat, id: Id) returns (es: seq<Event>, t: State)
    requires Inv(s) && CtxOk(s) && StoppedAs(s, id) && Tickets(s, id) >= 2 && CanRun(s, w, id)
    ensures Quietly(s, es, id, t) && !NoneLive(t, id)
  {
    if s.workers[w].InRun? && s.workers[w].id == id {
      es, t := OwnerSettles(s, id, w);
    } else if v :| 0 <= v < |s.workers| && Registered(s.workers[v]) && s.workers[v].id == id {
      es, t := OwnerSettles(s, id, v);
    } else if Carries(s.workers[w], id) {
      es, t := NextSettles(s, [], id, s, w);
    } else if Carriers(s.workers, id) > 0 {
      var v := AnyCarrier(s.workers, id);
      es, t := NextSettles(s, [], id, s, v);
    } else {
      es, t := Quiet(s, [], id, s, Pop(w, id));
      CarriersUpdate(s.workers, w, Popped(id), id);
      es, t := NextSettles(s, es, id, t, w);
    }
  }

  /** Exactly: a stop that takes the lock while the download is running, or while its record could be run by a worker
      that has it or is free, lasts over every continuation that neither requeues the download nor withdraws the stop,
      if and only if the download has at most one ticket. */
  lemma StopLastsExactly(s0: State, es0: seq<Event>, o: nat, w: nat)
    requires Fresh(s0) && ValidHistory(s0, es0)
    requires var s := AfterAll(s0, es0);
      && o < |s.calls| && s.calls[o].StopLock? && !s.closed && CanRun(s, w, s.calls[o].id)
      && s.calls[o].id !in s.deleting && s.calls[o].id !in s.restarting
    ensures var s := AfterAll(s0, es0); var id := s.calls[o].id;
      (forall es :: Lasts(Step(s, Advance(o)), es, id)) <==> Tickets(s, id) <= 1
  {
    FreshInv(s0);
    CtxRun(s0, es0);
    var s := AfterAll(s0, es0);
    var id := s.calls[o].id;
    var t := Step(s, Advance(o));
    StepKeepsInv(s, Advance(o));
    CtxStep(s, Advance(o));
    AdvanceFrame(s, s.calls[o]);
    if Tickets(s, id) <= 1 {
      forall es | ValidHistory(t, es) && NeverRequeued(t, es, id) ensures NoneLive(AfterAll(t, es), id) {
        AtMostOneLasts(s0, es0, o, es);
      }
    } else {
      var es, u := ComesBack(t, w, id);
      assert !Lasts(t, es, id);
    }
  }

  lemma AtMostOneLasts(s0: State, es0: seq<Event>, o: nat, es: seq<Event>)
    requires Fresh(s0) && ValidHistory(s0, es0)
    requires var s := AfterAll(s0, es0);
      && o < |s.calls| && s.calls[o].StopLock? && Tickets(s, s.calls[o].id) <= 1
      && ValidHistory(Step(s, Advance(o)), es) && NeverRequeued(Step(s, Advance(o)), es, s.calls[o].id)
    ensures var s := AfterAll(s0, es0); NoneLive(AfterAll(Step(s, Advance(o)), es), s.calls[o].id)
  {
    var s := AfterAll(s0, es0);
    var u := AfterAll(Step(s, Advance(o)), es);
    forall w | 0 <= w < |u.workers| && Going(u.workers[w]) && u.workers[w].id == s.calls[o].id
      ensures Doomed(u.workers[w].ctx, u.cancelled, u.calls)
    {
      StoppedStaysStopped(s0, es0, o, es, w);
    }
  }
}
