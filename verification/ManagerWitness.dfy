/** A Resume that is accepted and then lost (internal/engine/manager.go). */
module ManagerWitness {
  import opened Manager
  import opened ManagerFacts
  import opened ManagerTickets

  /** A worker drops the job it dequeued exactly when the Manager is closed or some worker is still registered for
      that download. */
  lemma DroppedExactlyForOwner(s: State, es: seq<Event>, w: nat)
    requires Fresh(s) && ValidHistory(s, es) && Enabled(AfterAll(s, es), Register(w))
    ensures var t := AfterAll(s, es);
      Step(t, Register(w)).workers[w].Idle? <==> t.closed || Owned(t.workers, t.workers[w].id)
  {
    FreshInv(s);
    HistoryKeepsInv(s, es);
    var t := AfterAll(s, es);
    if v :| 0 <= v < |t.workers| && Registered(t.workers[v]) && t.workers[v].id == t.workers[w].id {
      assert t.workers[v].id in t.cancels;
    }
  }

  /** One download, two workers, one API call at a time; nothing else is going on. */
  predicate At(s: State, status: Status, queued: nat, owned: bool, stopped: bool, cut: bool, w0: Worker, w1: Worker,
               call: Call) {
    && s.store == map[0 := status]
    && s.pending == multiset{}[0 := queued]
    && s.cancels == (if owned then map[0 := 0] else map[])
    && s.intents == (if stopped then map[0 := Paused] else map[])
    && s.deleting == {} && s.restarting == {} && !s.closed
    && s.cancelled == (if cut then {0} else {})
    && (owned || cut ==> s.nextCtx == 1)
    && s.workers == [w0, w1] && s.calls == [call]
  }

  function Begin(): State {
    State(map[0 := Queued], multiset{}, map[], map[], {}, {}, {}, 0, false, [Idle, Idle], [Ready])
  }

  /** Worker 0 takes the download into the engine. */
  lemma Starts(s: State) returns (es: seq<Event>)
    requires s == Begin()
    ensures ValidHistory(s, es)
    ensures At(AfterAll(s, es), Active, 0, true, false, false, InRun(0, 0), Idle, Ready)
  {
    es := [];
    es := Then(s, es, Recover(0));
    es := Then(s, es, Pop(0, 0));
    es := Then(s, es, LoadRecord(0, true));
    es := Then(s, es, Register(0));
    es := Then(s, es, Activate(0, true));
  }

  /** The operator pauses it. */
  lemma IsPaused(s: State, es: seq<Event>) returns (more: seq<Event>)
    requires ValidHistory(s, es)
    requires At(AfterAll(s, es), Active, 0, true, false, false, InRun(0, 0), Idle, Ready)
    ensures ValidHistory(s, more)
    ensures At(AfterAll(s, more), Active, 0, true, true, true, InRun(0, 0), Idle, Ready)
  {
    more := Then(s, es, Stop(0, 0, Paused));
    more := Then(s, more, Advance(0));
    assert At(AfterAll(s, more), Active, 0, true, true, false, InRun(0, 0), Idle, StopCancel(0, 0));
    more := Then(s, more, Advance(0));
  }

  /** The engine records the cancelled run as failed and returns. */
  lemma HasFailed(s: State, es: seq<Event>) returns (more: seq<Event>)
    requires ValidHistory(s, es)
    requires At(AfterAll(s, es), Active, 0, true, true, true, InRun(0, 0), Idle, Ready)
    ensures ValidHistory(s, more)
    ensures At(AfterAll(s, more), FailedS, 0, true, true, true, Returned(0, 0, false, false), Idle, Ready)
  {
    more := Then(s, es, RunSaves(0, FailedS));
    more := Then(s, more, Return(0, false));
  }

  /** Before the worker settles, the operator resumes: the recorded status is resumable, and the stop is forgotten. */
  lemma IsResumed(s: State, es: seq<Event>) returns (more: seq<Event>)
    requires ValidHistory(s, es)
    requires At(AfterAll(s, es), FailedS, 0, true, true, true, Returned(0, 0, false, false), Idle, Ready)
    ensures ValidHistory(s, more) && more == es + [Resume(0, 0)] + [Advance(0)]
    ensures At(AfterAll(s, more), FailedS, 0, true, false, true, Returned(0, 0, false, false), Idle, ResumeSave(0))
  {
    more := Then(s, es, Resume(0, 0));
    more := Then(s, more, Advance(0));
  }

  lemma IsQueued(s: State, es: seq<Event>) returns (more: seq<Event>)
    requires ValidHistory(s, es)
    requires At(AfterAll(s, es), FailedS, 0, true, false, true, Returned(0, 0, false, false), Idle, ResumeSave(0))
    ensures ValidHistory(s, more) && more == es + [Advance(0)] + [Advance(0)]
    ensures At(AfterAll(s, more), Queued, 1, true, false, true, Returned(0, 0, false, false), Idle, Ready)
  {
    more := Then(s, es, Advance(0));
    more := Then(s, more, Advance(0));
  }

  /** Worker 1 dequeues it and drops it as a duplicate; then worker 0 settles with nothing to override. */
  lemma IsDropped(s: State, es: seq<Event>) returns (more: seq<Event>)
    requires ValidHistory(s, es)
    requires At(AfterAll(s, es), Queued, 1, true, false, true, Returned(0, 0, false, false), Idle, Ready)
    ensures ValidHistory(s, more)
    ensures At(AfterAll(s, more), Queued, 0, false, false, true, Idle, Idle, Ready)
  {
    more := IsDuplicate(s, es);
    more := Then(s, more, FinishLock(0));
    more := Then(s, more, Classify(0, true));
  }

  lemma IsDuplicate(s: State, es: seq<Event>) returns (more: seq<Event>)
    requires ValidHistory(s, es)
    requires At(AfterAll(s, es), Queued, 1, true, false, true, Returned(0, 0, false, false), Idle, Ready)
    ensures ValidHistory(s, more)
    ensures At(AfterAll(s, more), Queued, 0, true, false, true, Returned(0, 0, false, false), Idle, Ready)
  {
    more := Then(s, es, Pop(1, 0));
    more := Then(s, more, LoadRecord(1, true));
    more := Then(s, more, Register(1));
  }

  /** A Resume can succeed and be lost: everything is idle, the Manager is open, the download is recorded as queued, and
      nothing is left that would dequeue it. */
  lemma ResumeCanBeLost() returns (s: State, es: seq<Event>, rest: seq<Event>)
    ensures Fresh(s) && ValidHistory(s, es) && ValidHistory(AfterAll(s, es), rest)
    // es ends with a Resume carried through to its enqueue
    ensures |es| >= 4 && es[|es| - 4..] == [Resume(0, 0), Advance(0), Advance(0), Advance(0)]
    ensures AfterAll(s, es).calls == [Ready] && AfterAll(s, es).pending == multiset{0}
    ensures var t := AfterAll(AfterAll(s, es), rest);
      && t.store == map[0 := Queued] && t.pending == multiset{} && !t.closed
      && t.workers == [Idle, Idle] && t.calls == [Ready]
  {
    s := Begin();
    es := Starts(s);
    es := IsPaused(s, es);
    es := HasFailed(s, es);
    es := IsResumed(s, es);
    es := IsQueued(s, es);
    rest := IsDropped(AfterAll(s, es), []);
  }

  /** So can one that no other worker interferes with, when the store refuses the worker's active marker: the record
      is put back to queued, and nothing is left that would dequeue it. */
  lemma ResumeLostToStore() returns (s: State, es: seq<Event>)
    ensures Fresh(s) && ValidHistory(s, es) && |es| >= 4
    ensures es[..4] == [Resume(0, 0), Advance(0), Advance(0), Advance(0)]
    ensures var t := AfterAll(s, es);
      && t.store == map[0 := Queued] && t.pending == multiset{} && !t.closed
      && t.workers == [Idle, Idle] && t.calls == [Ready]
  {
    s := Begin().(store := map[0 := Paused]);
    es := ResumesPaused(s);
    es := ActiveRefused(s, es);
  }

  lemma ResumesPaused(s: State) returns (es: seq<Event>)
    requires s == Begin().(store := map[0 := Paused])
    ensures ValidHistory(s, es) && es == [Resume(0, 0), Advance(0), Advance(0), Advance(0)]
    ensures At(AfterAll(s, es), Queued, 1, false, false, false, Idle, Idle, Ready) && AfterAll(s, es).nextCtx == 0
  {
    es := [];
    es := Then(s, es, Resume(0, 0));
    es := Then(s, es, Advance(0));
    es := Then(s, es, Advance(0));
    es := Then(s, es, Advance(0));
  }

  lemma ActiveRefused(s: State, es: seq<Event>) returns (more: seq<Event>)
    requires ValidHistory(s, es) && AfterAll(s, es).nextCtx == 0
    requires At(AfterAll(s, es), Queued, 1, false, false, false, Idle, Idle, Ready)
    ensures ValidHistory(s, more) && es <= more
    ensures At(AfterAll(s, more), Queued, 0, false, false, false, Idle, Idle, Ready)
  {
    more := Then(s, es, Pop(0, 0));
    more := Then(s, more, LoadRecord(0, true));
    more := Then(s, more, Register(0));
    assert At(AfterAll(s, more), Queued, 0, true, false, false, Activating(0, 0), Idle, Ready);
    var rest := RefusedSettles(s, more);
    more := rest;
  }

  lemma RefusedSettles(s: State, es: seq<Event>) returns (more: seq<Event>)
    requires ValidHistory(s, es)
    requires At(AfterAll(s, es), Queued, 0, true, false, false, Activating(0, 0), Idle, Ready)
    ensures ValidHistory(s, more) && es <= more
    ensures At(AfterAll(s, more), Queued, 0, false, false, false, Idle, Idle, Ready)
  {
    more := Then(s, es, Activate(0, false));
    more := Then(s, more, FinishLock(0));
    more := Then(s, more, Classify(0, true));
  }

  /** And one of a completed download, when a setting is changed meanwhile: the call has loaded the record as completed
      and saves it back after the Resume has queued it, and the worker that dequeues the download takes it for done. */
  lemma ResumeLostToEdit() returns (s: State, es: seq<Event>)
    ensures Fresh(s) && ValidHistory(s, es)
    ensures es == [Edit(1, 0), Resume(0, 0), Advance(0), Advance(0), Advance(0), Advance(1), Pop(0, 0),
                   LoadRecord(0, true)]
    ensures var t := AfterAll(s, es);
      && t.store == map[0 := Completed] && t.pending == multiset{} && !t.closed
      && t.workers == [Idle, Idle] && t.calls == [Ready, Ready]
  {
    s := Begin().(store := map[0 := Completed], calls := [Ready, Ready]);
    es := ResumesOverCopy(s);
    es := Then(s, es, Advance(1));
    es := Then(s, es, Pop(0, 0));
    es := Then(s, es, LoadRecord(0, true));
  }

  lemma ResumesOverCopy(s: State) returns (es: seq<Event>)
    requires s == Begin().(store := map[0 := Completed], calls := [Ready, Ready])
    ensures ValidHistory(s, es) && es == [Edit(1, 0), Resume(0, 0), Advance(0), Advance(0), Advance(0)]
    ensures AfterAll(s, es) ==
      s.(store := map[0 := Queued], pending := multiset{0}, calls := [Ready, SaveBack(0, Completed)])
  {
    es := [];
    es := Then(s, es, Edit(1, 0));
    es := Then(s, es, Resume(0, 0));
    es := Then(s, es, Advance(0));
    es := Then(s, es, Advance(0));
    es := Then(s, es, Advance(0));
  }

  // ----- a pause that does not last

  /** A Submit has saved its record when recovery lists it, and enqueues it after recovery has; worker 0 takes the
      download into the engine, and the second entry stays behind. */
  lemma StartsTwice(s: State) returns (es: seq<Event>)
    requires s == Begin().(store := map[])
    ensures ValidHistory(s, es)
    ensures At(AfterAll(s, es), Active, 1, true, false, false, InRun(0, 0), Idle, Ready)
  {
    es := SubmitsTwice(s);
    es := TakesOne(s, es);
  }

  lemma TakesOne(s: State, es: seq<Event>) returns (more: seq<Event>)
    requires ValidHistory(s, es) && AfterAll(s, es).nextCtx == 0
    requires At(AfterAll(s, es), Queued, 2, false, false, false, Idle, Idle, Ready)
    ensures ValidHistory(s, more)
    ensures At(AfterAll(s, more), Active, 1, true, false, false, InRun(0, 0), Idle, Ready)
  {
    more := Then(s, es, Pop(0, 0));
    more := Then(s, more, LoadRecord(0, true));
    more := Then(s, more, Register(0));
    more := Then(s, more, Activate(0, true));
  }

  lemma SubmitsTwice(s: State) returns (es: seq<Event>)
    requires s == Begin().(store := map[])
    ensures ValidHistory(s, es) && es == [Submit(0, 0), Recover(0), Advance(0)]
    ensures At(AfterAll(s, es), Queued, 2, false, false, false, Idle, Idle, Ready) && AfterAll(s, es).nextCtx == 0
  {
    es := [];
    es := Then(s, es, Submit(0, 0));
    es := Then(s, es, Recover(0));
    es := Then(s, es, Advance(0));
  }

  lemma Quiet(b: State, es: seq<Event>, t: State, e: Event) returns (more: seq<Event>, u: State)
    requires Quietly(b, es, 0, t) && Enabled(t, e) && !Requeues(t, e, 0)
    ensures Quietly(b, more, 0, u) && u == Step(t, e)
  {
    QuietThen(b, es, 0, t, e);
    more, u := es + [e], Step(t, e);
  }

  /** Whoever dequeues the entry left behind runs the paused download. */
  lemma RunsAgain(b: State, es: seq<Event>, t: State) returns (more: seq<Event>, u: State)
    requires Quietly(b, es, 0, t) && At(t, Paused, 1, false, false, true, Idle, Idle, Ready)
    ensures Quietly(b, more, 0, u) && u.workers == [InRun(0, 1), Idle] && u.cancelled == {0} && u.calls == [Ready]
  {
    more, u := Quiet(b, es, t, Pop(0, 0));
    more, u := Quiet(b, more, u, LoadRecord(0, true));
    more, u := Quiet(b, more, u, Register(0));
    more, u := Quiet(b, more, u, Activate(0, true));
  }

  /** The paused job settles as paused, and forgets that it was. */
  lemma SettlesPaused(b: State, es: seq<Event>, t: State, status: Status) returns (more: seq<Event>, u: State)
    requires Quietly(b, es, 0, t) && At(t, status, 1, true, true, true, Returned(0, 0, false, false), Idle, Ready)
    ensures Quietly(b, more, 0, u) && At(u, Paused, 1, false, false, true, Idle, Idle, Ready)
  {
    more, u := Quiet(b, es, t, FinishLock(0));
    more, u := Quiet(b, more, u, Classify(0, true));
  }

  /** The call cancels the run's context and the engine returns. */
  lemma Aborts(b: State) returns (more: seq<Event>, u: State)
    requires At(b, Active, 1, true, true, false, InRun(0, 0), Idle, StopCancel(0, 0))
    ensures Quietly(b, more, 0, u) && At(u, Active, 1, true, true, true, Returned(0, 0, false, false), Idle, Ready)
  {
    more, u := Quiet(b, [], b, Advance(0));
    more, u := Quiet(b, more, u, Return(0, false));
  }

  /** A pause taken while a second entry is pending, which a Submit racing recovery left: the job settles as paused, and
      then runs, with a live context, although nobody resumed, restarted or enqueued anything since. */
  lemma PauseDoesNotLast() returns (s: State, es: seq<Event>, rest: seq<Event>, t: State)
    ensures Fresh(s) && ValidHistory(s, es)
    ensures AfterAll(s, es).calls == [StopLock(0, Paused)] && Tickets(AfterAll(s, es), 0) == 2
    ensures Quietly(Step(AfterAll(s, es), Advance(0)), rest, 0, t)
    ensures t.workers == [InRun(0, 1), Idle] && 1 !in t.cancelled && t.calls == [Ready]
  {
    s := Begin().(store := map[]);
    es := StartsTwice(s);
    es := Then(s, es, Stop(0, 0, Paused));
    TwoTickets(AfterAll(s, es));
    rest, t := PausedRunsAgain(AfterAll(s, es));
  }

  lemma PausedRunsAgain(s: State) returns (rest: seq<Event>, t: State)
    requires At(s, Active, 1, true, false, false, InRun(0, 0), Idle, StopLock(0, Paused))
    ensures Quietly(Step(s, Advance(0)), rest, 0, t)
    ensures t.workers == [InRun(0, 1), Idle] && 1 !in t.cancelled && t.calls == [Ready]
  {
    var b := Step(s, Advance(0));
    rest, t := Aborts(b);
    rest, t := SettlesPaused(b, rest, t, Active);
    rest, t := RunsAgain(b, rest, t);
  }

  lemma TwoTickets(s: State)
    requires s.pending[0] == 1 && |s.workers| == 2 && Carries(s.workers[0], 0) && s.workers[1] == Idle
    ensures Tickets(s, 0) == 2
  {
    assert Carriers(s.workers[..1][..0], 0) == 0;
    assert Carriers(s.workers[..1], 0) == 1;
  }

  /** A paused run is resumed before its worker settles. */
  lemma ResumedTooEarly(s: State) returns (es: seq<Event>)
    requires s == Begin()
    ensures ValidHistory(s, es)
    ensures At(AfterAll(s, es), Queued, 1, true, false, true, Returned(0, 0, false, false), Idle, Ready)
  {
    es := Starts(s);
    es := IsPaused(s, es);
    es := HasFailed(s, es);
    es := IsResumed(s, es);
    es := IsQueued(s, es);
  }

  lemma CancelsAgain(b: State) returns (more: seq<Event>, u: State)
    requires At(b, Queued, 1, true, true, true, Returned(0, 0, false, false), Idle, StopCancel(0, 0))
    ensures Quietly(b, more, 0, u) && At(u, Queued, 1, true, true, true, Returned(0, 0, false, false), Idle, Ready)
  {
    more, u := Quiet(b, [], b, Advance(0));
  }

  /** It takes no race with recovery: a Resume accepted while the paused run settles leaves the second
      ticket, and a second pause is then forgotten. */
  lemma SecondPauseDoesNotLast() returns (s: State, es: seq<Event>, rest: seq<Event>, t: State)
    ensures Fresh(s) && ValidHistory(s, es)
    ensures AfterAll(s, es).calls == [StopLock(0, Paused)] && Tickets(AfterAll(s, es), 0) == 2
    ensures Quietly(Step(AfterAll(s, es), Advance(0)), rest, 0, t)
    ensures t.workers == [InRun(0, 1), Idle] && 1 !in t.cancelled && t.calls == [Ready]
  {
    s := Begin();
    es := ResumedTooEarly(s);
    es := Then(s, es, Stop(0, 0, Paused));
    TwoTickets(AfterAll(s, es));
    var b := Step(AfterAll(s, es), Advance(0));
    rest, t := CancelsAgain(b);
    rest, t := SettlesPaused(b, rest, t, Queued);
    rest, t := RunsAgain(b, rest, t);
  }
}
