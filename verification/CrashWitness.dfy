/** Histories in which a wrong file is put in place: a missing or short part file, a kill right after the run that grew
    it back, and a run that trusts the old rows (internal/engine/download_run.go:187-191, 269-304). */
module CrashWitness {
  import opened Tiling
  import opened Layout
  import Planner
  import opened Protocol
  import opened CrashResume

  /** One more event at the end of a history, and what it does to the debt. */
  lemma {:induction false} Extend(remote: seq<byte>, y: Sys, d: Debt, es: seq<Event>, e: Event)
    requires ValidHistory(remote, y, es) && CrashResume.Enabled(remote, AfterAll(remote, y, es), e)
    ensures ValidHistory(remote, y, es + [e])
    ensures AfterAll(remote, y, es + [e]) == Step(remote, AfterAll(remote, y, es), e)
    ensures DebtAfter(remote, y, d, es + [e]) == NextDebt(AfterAll(remote, y, es), DebtAfter(remote, y, d, es), e)
    ensures DebtsPaid(remote, y, d, es + [e]) <==>
      DebtsPaid(remote, y, d, es) && Pays(DebtAfter(remote, y, d, es), e)
    decreases |es|
  {
    var all := es + [e];
    if es == [] {
      assert all[1..] == [];
      assert ValidHistory(remote, Step(remote, y, e), []);
    } else {
      assert all[0] == es[0] && all[1..] == es[1..] + [e];
      Extend(remote, Step(remote, y, es[0]), NextDebt(y, d, es[0]), es[1..], e);
    }
  }

  lemma Then(remote: seq<byte>, y: Sys, es: seq<Event>, e: Event) returns (more: seq<Event>)
    requires ValidHistory(remote, y, es) && CrashResume.Enabled(remote, AfterAll(remote, y, es), e)
    ensures more == es + [e] && ValidHistory(remote, y, more)
    ensures AfterAll(remote, y, more) == Step(remote, AfterAll(remote, y, es), e)
    ensures DebtAfter(remote, y, NONE, more) == NextDebt(AfterAll(remote, y, es), DebtAfter(remote, y, NONE, es), e)
    ensures DebtsPaid(remote, y, NONE, more) <==>
      DebtsPaid(remote, y, NONE, es) && Pays(DebtAfter(remote, y, NONE, es), e)
  {
    Extend(remote, y, NONE, es, e);
    more := es + [e];
  }

  const REMOTE: seq<byte> := [1]

  function One(): Knobs { Knobs(1, 3, 1, 0, 1) }

  function Row(n: int): seq<Segment> { [Segment(0, 0, 0, n)] }

  const EMPTY: Rows := map[0 := Record(0, 0, 0)]
  const FULL: Rows := map[0 := Record(0, 0, 1)]

  /** A single-byte download in mid-run. */
  predicate Mid(y: Sys, rows: Rows, loads: set<Rows>, outs: seq<seq<byte>>, cursor: nat, done: int, w: Worker,
                file: seq<byte>) {
    && y.rows == rows && y.loads == loads && y.outs == outs
    && y.phase.Running? && y.phase.c == Single()
    && var s := y.phase.st;
       && Shape(s) && s.starts == [0] && s.ends == [0] && s.completed == [done]
       && s.cursor == cursor && s.mu == Free && s.workers == [w] && s.file == file
  }

  function Single(): Config { Config(REMOTE, 1, 1, 1, 3, 1, 0, 1) }

  /** It has no run and no part file, but its row counts every byte. */
  predicate Away(y: Sys, loads: set<Rows>, outs: seq<seq<byte>>) {
    y.phase == Down([]) && y.rows == FULL && y.loads == loads && y.outs == outs
  }

  lemma BeginOne() returns (y: Sys)
    ensures Begins(REMOTE, y, One(), Row(0), [0]) && Mid(y, EMPTY, {}, [], 0, 0, Idle, [0])
  {
    y := Sys(RowsOf(Row(0)), {}, {}, {}, Running(Single(), Init(Single(), Row(0), [0])), []);
    RowIsFresh();
    InitIsMid();
  }

  lemma RowIsFresh()
    ensures RowsOf(Row(0)) == EMPTY && Planner.FreshLayout(1, Row(0)) && RunConfig(REMOTE, One(), Row(0)) == Single()
  {
  }

  lemma InitIsMid()
    ensures var phase := Running(Single(), Init(Single(), Row(0), [0]));
      Mid(Sys(EMPTY, {}, {}, {}, phase, []), EMPTY, {}, [], 0, 0, Idle, [0])
  {
  }

  // ----- the byte is fetched and counted

  lemma OpenBody(y: Sys) returns (es: seq<Event>)
    requires Mid(y, EMPTY, {}, [], 0, 0, Idle, [0])
    ensures ValidHistory(REMOTE, y, es)
    ensures Mid(AfterAll(REMOTE, y, es), EMPTY, {}, [], 1, 0, Stream(0, 0, 0), [0]) && DebtsPaid(REMOTE, y, NONE, es)
  {
    es := [];
    es := Then(REMOTE, y, es, Work(NextInitial(0)));
    es := Then(REMOTE, y, es, Work(EnterSegment(0)));
    es := Then(REMOTE, y, es, Work(Open(0)));
  }

  lemma FlushSteps(z: Sys)
    requires Mid(z, EMPTY, {}, [], 1, 0, Stream(0, 0, 0), [0])
    ensures CrashResume.Enabled(REMOTE, z, Work(Load(0, 1)))
    ensures var z1 := Step(REMOTE, z, Work(Load(0, 1)));
      && Mid(z1, EMPTY, {}, [], 1, 0, Loaded(0, 0, 0, 1, 0), [0])
      && CrashResume.Enabled(REMOTE, z1, Work(WriteBytes(0, 1)))
      && var z2 := Step(REMOTE, z1, Work(WriteBytes(0, 1)));
         Mid(z2, EMPTY, {}, [], 1, 0, Written(0, 0, 0, 1, Clip, 0), [1])
  {
  }

  lemma PublishStep(z: Sys)
    requires Mid(z, EMPTY, {}, [], 1, 0, Written(0, 0, 0, 1, Clip, 0), [1])
    ensures CrashResume.Enabled(REMOTE, z, Work(Publish(0)))
    ensures Mid(Step(REMOTE, z, Work(Publish(0))), EMPTY, {}, [], 1, 1, Clipped(0, 0, 0), [1])
  {
  }

  lemma Flush(y: Sys, es: seq<Event>) returns (more: seq<Event>)
    requires ValidHistory(REMOTE, y, es)
    requires Mid(AfterAll(REMOTE, y, es), EMPTY, {}, [], 1, 0, Stream(0, 0, 0), [0])
    ensures ValidHistory(REMOTE, y, more)
    ensures Mid(AfterAll(REMOTE, y, more), EMPTY, {}, [], 1, 1, Clipped(0, 0, 0), [1])
    ensures DebtsPaid(REMOTE, y, NONE, es) ==> DebtsPaid(REMOTE, y, NONE, more)
  {
    FlushSteps(AfterAll(REMOTE, y, es));
    more := Then(REMOTE, y, es, Work(Load(0, 1)));
    more := Then(REMOTE, y, more, Work(WriteBytes(0, 1)));
    PublishStep(AfterAll(REMOTE, y, more));
    more := Then(REMOTE, y, more, Work(Publish(0)));
  }

  /** Reads the row from the live plan and upserts it. */
  lemma Checkpoint(y: Sys, es: seq<Event>, rows: Rows, loads: set<Rows>, outs: seq<seq<byte>>, cursor: nat, n: int,
                   w: Worker, file: seq<byte>) returns (more: seq<Event>)
    requires ValidHistory(REMOTE, y, es) && n >= 0
    requires Mid(AfterAll(REMOTE, y, es), rows, loads, outs, cursor, n, w, file)
    ensures ValidHistory(REMOTE, y, more)
    ensures Mid(AfterAll(REMOTE, y, more), rows[0 := Record(0, 0, n)], loads, outs, cursor, n, w, file)
    ensures DebtsPaid(REMOTE, y, NONE, es) ==> DebtsPaid(REMOTE, y, NONE, more)
    ensures DebtAfter(REMOTE, y, NONE, more).stale == DebtAfter(REMOTE, y, NONE, es).stale - {0}
  {
    more := Then(REMOTE, y, es, LoadEnd(0));
    more := Then(REMOTE, y, more, Snapshot(0, 0, n));
    more := Then(REMOTE, y, more, Persist(0, Record(0, 0, n)));
  }

  lemma Fetched(y: Sys) returns (es: seq<Event>)
    requires Mid(y, EMPTY, {}, [], 0, 0, Idle, [0])
    ensures ValidHistory(REMOTE, y, es)
    ensures Mid(AfterAll(REMOTE, y, es), FULL, {}, [], 1, 1, Clipped(0, 0, 0), [1]) && DebtsPaid(REMOTE, y, NONE, es)
  {
    es := OpenBody(y);
    es := Flush(y, es);
    es := Checkpoint(y, es, EMPTY, {}, [], 1, 1, Clipped(0, 0, 0), [1]);
  }

  // ----- the gate

  lemma GateOpens(z: Sys, loads: set<Rows>, outs: seq<seq<byte>>, file: seq<byte>)
    requires Mid(z, FULL, loads, outs, 1, 1, Exited, file)
    ensures CrashResume.Enabled(REMOTE, z, Gate)
    ensures Step(REMOTE, z, Gate) == Sys(FULL, {}, {}, loads, Gated(FULL, file), outs)
  {
    var s := z.phase.st;
    assert s.completed[..0] == [];
    assert Sum(s.completed) == 1;
    assert ActiveSegments(s) == Row(1);
  }

  /** The gate opens, and the part file is put in place. */
  lemma PutInPlace(y: Sys, es: seq<Event>, loads: set<Rows>, outs: seq<seq<byte>>, file: seq<byte>)
    returns (more: seq<Event>)
    requires ValidHistory(REMOTE, y, es)
    requires Mid(AfterAll(REMOTE, y, es), FULL, loads, outs, 1, 1, Exited, file)
    ensures ValidHistory(REMOTE, y, more) && es <= more
    ensures AfterAll(REMOTE, y, more) == Sys(FULL, {}, {}, loads, Emptied(FULL), outs + [file])
    ensures DebtsPaid(REMOTE, y, NONE, es) ==> DebtsPaid(REMOTE, y, NONE, more)
    ensures DebtAfter(REMOTE, y, NONE, more) == NONE
  {
    GateOpens(AfterAll(REMOTE, y, es), loads, outs, file);
    more := Then(REMOTE, y, es, Gate);
    more := Then(REMOTE, y, more, Rename);
  }

  /** The worker that fetched the byte settles and finds nothing more to do. */
  lemma Finishes(y: Sys, es: seq<Event>, loads: set<Rows>) returns (more: seq<Event>)
    requires ValidHistory(REMOTE, y, es)
    requires Mid(AfterAll(REMOTE, y, es), FULL, loads, [], 1, 1, Clipped(0, 0, 0), [1])
    ensures ValidHistory(REMOTE, y, more)
    ensures AfterAll(REMOTE, y, more) == Sys(FULL, {}, {}, loads, Emptied(FULL), [REMOTE])
    ensures DebtsPaid(REMOTE, y, NONE, es) ==> DebtsPaid(REMOTE, y, NONE, more)
    ensures DebtAfter(REMOTE, y, NONE, more) == NONE
  {
    more := Then(REMOTE, y, es, Work(Settle(0)));
    more := Then(REMOTE, y, more, Work(NextSteal(0)));
    more := PutInPlace(y, more, loads, [], [1]);
  }

  // ----- resuming

  lemma ResumeOne(y: Sys, es: seq<Event>, file: seq<byte>, loads: set<Rows>, outs: seq<seq<byte>>)
    returns (more: seq<Event>)
    requires ValidHistory(REMOTE, y, es) && |file| <= 1
    requires var z := AfterAll(REMOTE, y, es);
      z.phase == Down(file) && z.rows == FULL && z.loads == loads && z.outs == outs
    ensures ValidHistory(REMOTE, y, more) && es <= more
    ensures Mid(AfterAll(REMOTE, y, more), FULL, loads, outs, 0, |file|, Idle, Grown(file, 1))
    ensures DebtAfter(REMOTE, y, NONE, more).stale == CrashResume.Clipped(FULL, file)
    ensures DebtsPaid(REMOTE, y, NONE, es) && DebtAfter(REMOTE, y, NONE, es).stale == {} ==>
      DebtsPaid(REMOTE, y, NONE, more)
  {
    FullReconciles(|file|);
    more := Then(REMOTE, y, es, Resume(One(), Row(1), Row(|file|)));
  }

  lemma FullReconciles(size: nat)
    requires size <= 1
    ensures Lists(FULL, Row(1)) && IsReconciled(1, Row(1), size, Row(size))
  {
    assert Capped(Row(1), size) == Row(size);
    assert IsRepair(1, Row(1), Row(1));
    assert Row(1)[0].index == 0;
  }

  /** A run over a missing part file is killed before it has stored anything; the next one trusts the old row. */
  lemma ZeroInPlace(y: Sys, es: seq<Event>, loads: set<Rows>, outs: seq<seq<byte>>) returns (more: seq<Event>)
    requires ValidHistory(REMOTE, y, es) && Away(AfterAll(REMOTE, y, es), loads, outs)
    ensures ValidHistory(REMOTE, y, more) && EndsWrong(AfterAll(REMOTE, y, more), outs)
  {
    more := ResumeOne(y, es, [], loads, outs);
    more := KilledTrusts(y, more, loads, outs);
  }

  lemma KilledTrusts(y: Sys, es: seq<Event>, loads: set<Rows>, outs: seq<seq<byte>>) returns (more: seq<Event>)
    requires ValidHistory(REMOTE, y, es)
    requires Mid(AfterAll(REMOTE, y, es), FULL, loads, outs, 0, 0, Idle, [0])
    ensures ValidHistory(REMOTE, y, more) && EndsWrong(AfterAll(REMOTE, y, more), outs) && es <= more
  {
    more := Then(REMOTE, y, es, Kill);
    more := ResumeOne(y, more, [0], {}, outs);
    more := NothingToDo(y, more, outs);
    more := PutInPlace(y, more, {}, outs, [0]);
  }

  lemma NothingToDo(y: Sys, es: seq<Event>, outs: seq<seq<byte>>) returns (more: seq<Event>)
    requires ValidHistory(REMOTE, y, es)
    requires Mid(AfterAll(REMOTE, y, es), FULL, {}, outs, 0, 1, Idle, [0])
    ensures ValidHistory(REMOTE, y, more) && es <= more
    ensures Mid(AfterAll(REMOTE, y, more), FULL, {}, outs, 1, 1, Exited, [0])
  {
    more := Then(REMOTE, y, es, Work(NextInitial(0)));
    more := Then(REMOTE, y, more, Work(EnterSegment(0)));
    more := Then(REMOTE, y, more, Work(NextSteal(0)));
  }

  /** The last file put in place is wrong. */
  predicate EndsWrong(y: Sys, outs: seq<seq<byte>>) { y.outs == outs + [[0]] }

  /** So some debt was not paid. */
  lemma Unpaid(y: Sys, es: seq<Event>, outs: seq<seq<byte>>)
    requires Begins(REMOTE, y, One(), Row(0), [0]) && ValidHistory(REMOTE, y, es)
    requires EndsWrong(AfterAll(REMOTE, y, es), outs)
    ensures !DebtsPaid(REMOTE, y, NONE, es)
  {
    var wrong: seq<byte> := [0];
    assert REMOTE[0] != wrong[0] && !(REMOTE <= wrong);
    var z := AfterAll(REMOTE, y, es);
    assert z.outs[|outs|] == wrong;
    if DebtsPaid(REMOTE, y, NONE, es) {
      ResumedDownloadIsExact(REMOTE, One(), Row(0), [0], y, es, z, |outs|);
    }
  }

  // ----- the histories

  /** The clamp alone does not protect a part file cut short from outside, nor one that a Restart has removed before
      the process is killed: the next run grows the file with zeros before it stores the lowered counters, so a kill in
      between lets the one after it trust the old row, and the gate opens on a zero byte. */
  lemma ClampIsNotStored(restarted: bool) returns (y: Sys, es: seq<Event>)
    ensures Begins(REMOTE, y, One(), Row(0), [0]) && ValidHistory(REMOTE, y, es)
    ensures EndsWrong(AfterAll(REMOTE, y, es), []) && !DebtsPaid(REMOTE, y, NONE, es)
  {
    y := BeginOne();
    es := Fetched(y);
    es := Then(REMOTE, y, es, Kill);
    if restarted {
      es := Then(REMOTE, y, es, Discard);
      es := Then(REMOTE, y, es, Kill);
    } else {
      es := Then(REMOTE, y, es, Truncate(0));
    }
    es := ZeroInPlace(y, es, {}, []);
    Unpaid(y, es, []);
  }

  /** The finished part file has been renamed, and the record saved or not. */
  lemma TakenAway(saved: bool) returns (y: Sys, es: seq<Event>)
    ensures Begins(REMOTE, y, One(), Row(0), [0]) && ValidHistory(REMOTE, y, es)
    ensures Away(AfterAll(REMOTE, y, es), {}, [REMOTE])
  {
    y := BeginOne();
    es := Fetched(y);
    es := Finishes(y, es, {});
    es := Then(REMOTE, y, es, if saved then SaveFinal(true) else Kill);
  }

  /** Nothing outside the engine is needed: it renames the finished part file, and is killed before the record is saved
      as completed (or saves it, and the download is resumed later); the next run starts over a missing file, and is
      killed too; the one after that puts a zero byte over the good file. */
  lemma FinishedFileIsOverwritten(saved: bool) returns (y: Sys, es: seq<Event>)
    ensures Begins(REMOTE, y, One(), Row(0), [0]) && ValidHistory(REMOTE, y, es)
    ensures EndsWrong(AfterAll(REMOTE, y, es), [REMOTE]) && !DebtsPaid(REMOTE, y, NONE, es)
  {
    y, es := TakenAway(saved);
    es := ZeroInPlace(y, es, {}, [REMOTE]);
    Unpaid(y, es, [REMOTE]);
  }

  /** An operator request has loaded the record before the download finished. */
  lemma CopyTaken() returns (y: Sys, es: seq<Event>)
    ensures Begins(REMOTE, y, One(), Row(0), [0]) && ValidHistory(REMOTE, y, es)
    ensures Away(AfterAll(REMOTE, y, es), {FULL}, [REMOTE])
    ensures DebtsPaid(REMOTE, y, NONE, es) && DebtAfter(REMOTE, y, NONE, es) == NONE
  {
    y := BeginOne();
    es := Fetched(y);
    es := Copies(y, es);
    es := Finishes(y, es, {FULL});
    es := SavesCompleted(y, es, {FULL});
  }

  lemma Copies(y: Sys, es: seq<Event>) returns (more: seq<Event>)
    requires ValidHistory(REMOTE, y, es) && Mid(AfterAll(REMOTE, y, es), FULL, {}, [], 1, 1, Clipped(0, 0, 0), [1])
    ensures ValidHistory(REMOTE, y, more)
    ensures Mid(AfterAll(REMOTE, y, more), FULL, {FULL}, [], 1, 1, Clipped(0, 0, 0), [1])
    ensures DebtsPaid(REMOTE, y, NONE, es) ==> DebtsPaid(REMOTE, y, NONE, more)
  {
    more := Then(REMOTE, y, es, LoadAll);
  }

  lemma SavesCompleted(y: Sys, es: seq<Event>, loads: set<Rows>) returns (more: seq<Event>)
    requires ValidHistory(REMOTE, y, es)
    requires AfterAll(REMOTE, y, es) == Sys(FULL, {}, {}, loads, Emptied(FULL), [REMOTE])
    requires DebtAfter(REMOTE, y, NONE, es) == NONE
    ensures ValidHistory(REMOTE, y, more) && Away(AfterAll(REMOTE, y, more), loads, [REMOTE])
    ensures DebtAfter(REMOTE, y, NONE, more) == NONE
    ensures DebtsPaid(REMOTE, y, NONE, es) ==> DebtsPaid(REMOTE, y, NONE, more)
  {
    more := Then(REMOTE, y, es, SaveFinal(true));
  }

  lemma OnlyOneRow()
    ensures CrashResume.Clipped(FULL, []) - {0} == {}
  {
  }

  /** The download is resumed, and its stale row overwritten. */
  lemma RowOverwritten(y: Sys, es: seq<Event>) returns (more: seq<Event>)
    requires ValidHistory(REMOTE, y, es) && Away(AfterAll(REMOTE, y, es), {FULL}, [REMOTE])
    requires DebtsPaid(REMOTE, y, NONE, es) && DebtAfter(REMOTE, y, NONE, es) == NONE
    ensures ValidHistory(REMOTE, y, more)
    ensures Mid(AfterAll(REMOTE, y, more), EMPTY, {FULL}, [REMOTE], 0, 0, Idle, [0])
    ensures DebtsPaid(REMOTE, y, NONE, more) && DebtAfter(REMOTE, y, NONE, more).stale == {}
  {
    OnlyOneRow();
    more := ResumeOne(y, es, [], {FULL}, [REMOTE]);
    more := Checkpoint(y, more, FULL, {FULL}, [REMOTE], 0, 0, Idle, [0]);
  }

  lemma SavedBack(y: Sys, es: seq<Event>) returns (rest: seq<Event>)
    requires ValidHistory(REMOTE, y, es) && Mid(AfterAll(REMOTE, y, es), EMPTY, {FULL}, [REMOTE], 0, 0, Idle, [0])
    ensures ValidHistory(REMOTE, y, rest) && EndsWrong(AfterAll(REMOTE, y, rest), [REMOTE])
    ensures es + [SaveAll(FULL)] <= rest
  {
    rest := Then(REMOTE, y, es, SaveAll(FULL));
    rest := KilledTrusts(y, rest, {FULL}, [REMOTE]);
  }

  /** Overwriting the stale rows is not enough while an operator request holds a copy of them: it may still be saved
      back. */
  lemma StaleCopyIsSavedBack() returns (y: Sys, es: seq<Event>, rest: seq<Event>)
    ensures Begins(REMOTE, y, One(), Row(0), [0]) && ValidHistory(REMOTE, y, es)
    ensures DebtsPaid(REMOTE, y, NONE, es) && DebtAfter(REMOTE, y, NONE, es).stale == {}
    ensures ValidHistory(REMOTE, y, rest) && es + [SaveAll(FULL)] <= rest
    ensures EndsWrong(AfterAll(REMOTE, y, rest), [REMOTE]) && !DebtsPaid(REMOTE, y, NONE, rest)
  {
    y, es := CopyTaken();
    es := RowOverwritten(y, es);
    rest := SavedBack(y, es);
    Unpaid(y, rest, [REMOTE]);
  }
}
