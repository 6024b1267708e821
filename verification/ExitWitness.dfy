/** A worker that finds nothing to steal and exits too early (internal/engine/steal.go:97-102, 130-149). */
module ExitWitness {
  import opened Tiling
  import opened Protocol
  import opened P = ProtocolInv
  import opened F = ProtocolFacts
  import opened Witnesses

  /** Twelve bytes, one-byte buffers, three workers, room for one steal. */
  function Twelve(): Config {
    Config([1, 2, 3, 4, 5, 6, 7, 8, 9, 10, 11, 12], 12, 1, 2, 3, 1, 0, 3)
  }

  /** One slot; worker 0 streams it, worker 1 is the thief. */
  predicate Now(s: State, cursor: nat, done: int, mu: Mutex, w0: Worker, w1: Worker) {
    && Shape(s) && s.starts == [0] && s.ends == [11] && s.completed == [done]
    && s.cursor == cursor && s.mu == mu && s.workers == [w0, w1, Idle] && |s.file| == 12
  }

  lemma Picks(s: State) returns (run: seq<Action>)
    requires Now(s, 0, 0, Free, Idle, Idle)
    ensures ValidRun(Twelve(), s, run)
    ensures Now(After(Twelve(), s, run), 1, 0, Chosen(1, {}, 0, 0, 12), Stream(0, 0, 11), InNext)
  {
    run := Opens(s);
    run := Extend(Twelve(), s, run, NextSteal(1));
    run := Extend(Twelve(), s, run, ScanSlot);
    run := Extend(Twelve(), s, run, ScanDone);
  }

  lemma Opens(s: State) returns (run: seq<Action>)
    requires Now(s, 0, 0, Free, Idle, Idle)
    ensures ValidRun(Twelve(), s, run)
    ensures Now(After(Twelve(), s, run), 1, 0, Free, Stream(0, 0, 11), Idle)
  {
    run := [];
    run := Extend(Twelve(), s, run, NextInitial(0));
    run := Extend(Twelve(), s, run, EnterSegment(0));
    run := Extend(Twelve(), s, run, Open(0));
  }

  lemma LoadsAndWrites(t: State, done: int, mu: Mutex)
    requires Now(t, 1, done, mu, Stream(0, 0, 11), InNext) && 0 <= done <= 5
    ensures Enabled(Twelve(), t, Load(0, 1))
    ensures var t1 := Apply(Twelve(), t, Load(0, 1));
      && Now(t1, 1, done, mu, Loaded(0, 0, 11, 1, 11), InNext) && Enabled(Twelve(), t1, WriteBytes(0, 1))
      && var t2 := Apply(Twelve(), t1, WriteBytes(0, 1));
         Now(t2, 1, done, mu, Written(0, 0, 11, 1, More, 11), InNext)
  {
  }

  /** Worker 0 flushes up to byte `upTo`, one byte at a time. */
  lemma {:induction false} FlushesUpTo(s: State, run: seq<Action>, done: nat, upTo: nat, mu: Mutex)
    returns (more: seq<Action>)
    requires ValidRun(Twelve(), s, run) && done <= upTo <= 5
    requires Now(After(Twelve(), s, run), 1, done, mu, Stream(0, 0, 11), InNext)
    ensures ValidRun(Twelve(), s, more)
    ensures Now(After(Twelve(), s, more), 1, upTo, mu, Stream(0, 0, 11), InNext)
    decreases upTo - done
  {
    if done == upTo {
      more := run;
    } else {
      more := FlushesOne(s, run, done, mu);
      more := FlushesUpTo(s, more, done + 1, upTo, mu);
    }
  }

  lemma FlushesOne(s: State, run: seq<Action>, done: nat, mu: Mutex) returns (more: seq<Action>)
    requires ValidRun(Twelve(), s, run) && done <= 5
    requires Now(After(Twelve(), s, run), 1, done, mu, Stream(0, 0, 11), InNext)
    ensures ValidRun(Twelve(), s, more)
    ensures Now(After(Twelve(), s, more), 1, done + 1, mu, Stream(0, 0, 11), InNext)
  {
    LoadsAndWrites(After(Twelve(), s, run), done, mu);
    more := Extend(Twelve(), s, run, Load(0, 1));
    more := Extend(Twelve(), s, more, WriteBytes(0, 1));
    more := Extend(Twelve(), s, more, Publish(0));
  }

  /** The thief undoes its steal, and finds nothing else. */
  lemma Undoes(s: State, run: seq<Action>) returns (more: seq<Action>)
    requires ValidRun(Twelve(), s, run)
    requires Now(After(Twelve(), s, run), 1, 5, Chosen(1, {}, 0, 0, 12), Stream(0, 0, 11), InNext)
    ensures ValidRun(Twelve(), s, more)
    ensures Now(After(Twelve(), s, more), 1, 5, Scanning(1, {0}, 1, -1, 0, 0), Stream(0, 0, 11), InNext)
  {
    more := Extend(Twelve(), s, run, Shrink);
    more := Extend(Twelve(), s, more, Recheck);
    more := Extend(Twelve(), s, more, Undo);
    more := Extend(Twelve(), s, more, ScanSlot);
  }

  lemma ExitsThenStolen(s: State) returns (rest: seq<Action>)
    requires Now(s, 1, 5, Scanning(1, {0}, 1, -1, 0, 0), Stream(0, 0, 11), InNext)
    ensures Enabled(Twelve(), s, ScanDone) && ValidRun(Twelve(), Apply(Twelve(), s, ScanDone), rest)
    ensures var t := After(Twelve(), Apply(Twelve(), s, ScanDone), rest);
      |t.workers| == 3 && t.workers[1].Exited? && t.starts == [0, 8] && t.ends == [7, 11]
  {
    var t := Apply(Twelve(), s, ScanDone);
    rest := [];
    rest := Extend(Twelve(), t, rest, NextSteal(2));
    rest := Extend(Twelve(), t, rest, ScanSlot);
    rest := Extend(Twelve(), t, rest, ScanDone);
    rest := Extend(Twelve(), t, rest, Shrink);
    rest := Extend(Twelve(), t, rest, Commit);
  }

  lemma TwelveStartable() returns (segs: seq<Segment>, file: seq<byte>)
    ensures Startable(Twelve(), segs, file) && Now(Init(Twelve(), segs, file), 0, 0, Free, Idle, Idle)
  {
    segs, file := [Segment(0, 0, 11, 0)], [0, 0, 0, 0, 0, 0, 0, 0, 0, 0, 0, 0];
    ContiguousTiled(12, Starts(segs), Ends(segs));
  }

  /** A worker exits because the only donor worth splitting is the one whose steal it has just undone; the next worker
      that asks splits that donor. */
  lemma ExitsTooEarly() returns (segs: seq<Segment>, file: seq<byte>, run: seq<Action>, rest: seq<Action>)
    ensures Startable(Twelve(), segs, file) && ValidRun(Twelve(), Init(Twelve(), segs, file), run)
    ensures var s := After(Twelve(), Init(Twelve(), segs, file), run);
      && Shape(s) && Enabled(Twelve(), s, ScanDone) && s.mu.who == 1 && s.mu.rem < 2 * Twelve().floor
      && !PassedOverSpent(Twelve(), s)
      && var t := Apply(Twelve(), s, ScanDone);
         && |t.workers| == 3 && t.workers[1].Exited? && ValidRun(Twelve(), t, rest)
         && |After(Twelve(), t, rest).starts| > |s.starts|
  {
    segs, file := TwelveStartable();
    var s0 := Init(Twelve(), segs, file);
    run := Picks(s0);
    run := FlushesUpTo(s0, run, 0, 5, Chosen(1, {}, 0, 0, 12));
    run := Undoes(s0, run);
    var s := After(Twelve(), s0, run);
    assert Remaining(s, 0) == 7;
    rest := ExitsThenStolen(s);
  }
}
