/** A concrete run that marks where the guarantees of a single run stop. */
module Witnesses {
  import opened Tiling
  import opened Layout
  import opened Protocol
  import opened P = ProtocolInv
  import opened F = ProtocolFacts

  lemma {:induction false} Unfold(c: Config, s: State, run: seq<Action>)
    requires Shape(s) && run != [] && Enabled(c, s, run[0]) && ValidRun(c, Apply(c, s, run[0]), run[1..])
    ensures ValidRun(c, s, run) && After(c, s, run) == After(c, Apply(c, s, run[0]), run[1..])
  {
  }

  lemma {:induction false} RunThen(c: Config, s: State, first: seq<Action>, second: seq<Action>)
    requires ValidRun(c, s, first) && ValidRun(c, After(c, s, first), second)
    ensures ValidRun(c, s, first + second) && After(c, s, first + second) == After(c, After(c, s, first), second)
    decreases |first|
  {
    var run := first + second;
    if first == [] {
      assert run == second;
    } else {
      assert run[0] == first[0] && run[1..] == first[1..] + second;
      RunThen(c, Apply(c, s, first[0]), first[1..], second);
      Unfold(c, s, run);
      Unfold(c, s, first);
    }
  }

  /** One more step at the end of a run. */
  lemma Extend(c: Config, s: State, run: seq<Action>, a: Action) returns (more: seq<Action>)
    requires ValidRun(c, s, run) && Shape(After(c, s, run)) && Enabled(c, After(c, s, run), a)
    requires Shape(Apply(c, After(c, s, run), a))
    ensures ValidRun(c, s, more) && After(c, s, more) == Apply(c, After(c, s, run), a)
  {
    RunThen(c, s, run, [a]);
    more := run + [a];
  }

  // ----- a worker may return success on a tentative End

  /** Six bytes, one-byte buffers, two workers, room for one steal. */
  function Six(): Config {
    Config([1, 2, 3, 4, 5, 6], 6, 1, 2, 3, 1, 0, 2)
  }

  predicate At(s: State, cursor: nat, end: int, done: int, mu: Mutex, w0: Worker, w1: Worker) {
    && Shape(s) && s.starts == [0] && s.ends == [end] && s.completed == [done]
    && s.cursor == cursor && s.mu == mu && s.workers == [w0, w1] && |s.file| == 6
  }

  lemma FlushSteps(t: State, done: int, mu: Mutex)
    requires At(t, 1, 5, done, mu, Stream(0, 0, 5), InNext) && 0 <= done <= 3
    ensures Enabled(Six(), t, Load(0, 1))
    ensures var t1 := Apply(Six(), t, Load(0, 1));
      && At(t1, 1, 5, done, mu, Loaded(0, 0, 5, 1, 5), InNext) && Enabled(Six(), t1, WriteBytes(0, 1))
      && var t2 := Apply(Six(), t1, WriteBytes(0, 1));
         At(t2, 1, 5, done, mu, Written(0, 0, 5, 1, More, 5), InNext)
  {
  }

  /** One one-byte flush of worker 0. */
  lemma Flush(s: State, run: seq<Action>, done: int, mu: Mutex) returns (more: seq<Action>)
    requires ValidRun(Six(), s, run) && 0 <= done <= 3
    requires At(After(Six(), s, run), 1, 5, done, mu, Stream(0, 0, 5), InNext)
    ensures ValidRun(Six(), s, more) && At(After(Six(), s, more), 1, 5, done + 1, mu, Stream(0, 0, 5), InNext)
  {
    FlushSteps(After(Six(), s, run), done, mu);
    more := Extend(Six(), s, run, Load(0, 1));
    more := Extend(Six(), s, more, WriteBytes(0, 1));
    more := Extend(Six(), s, more, Publish(0));
  }

  /** Both workers start; worker 1 picks slot 0 as its donor. */
  lemma PickDonor(s: State) returns (run: seq<Action>)
    requires At(s, 0, 5, 0, Free, Idle, Idle)
    ensures ValidRun(Six(), s, run)
    ensures At(After(Six(), s, run), 1, 5, 0, Chosen(1, {}, 0, 0, 6), Stream(0, 0, 5), InNext)
  {
    run := OpenSlot(s);
    run := Extend(Six(), s, run, NextSteal(1));
    run := Extend(Six(), s, run, ScanSlot);
    run := Extend(Six(), s, run, ScanDone);
  }

  lemma OpenSlot(s: State) returns (run: seq<Action>)
    requires At(s, 0, 5, 0, Free, Idle, Idle)
    ensures ValidRun(Six(), s, run)
    ensures At(After(Six(), s, run), 1, 5, 0, Free, Stream(0, 0, 5), Idle)
  {
    run := [];
    run := Extend(Six(), s, run, NextInitial(0));
    run := Extend(Six(), s, run, EnterSegment(0));
    run := Extend(Six(), s, run, Open(0));
  }

  /** The thief shrinks the End to byte 2; the body ends early just then, and the donor takes itself for done. */
  lemma MisledDonor(s: State, run: seq<Action>) returns (more: seq<Action>)
    requires ValidRun(Six(), s, run)
    requires At(After(Six(), s, run), 1, 5, 3, Chosen(1, {}, 0, 0, 6), Stream(0, 0, 5), InNext)
    ensures ValidRun(Six(), s, more)
    ensures At(After(Six(), s, more), 1, 5, 3, Scanning(1, {0}, 0, -1, 0, 0), Idle, InNext)
  {
    more := Extend(Six(), s, run, Shrink);
    more := Extend(Six(), s, more, Eof(0));
    more := Extend(Six(), s, more, Recheck);
    more := Extend(Six(), s, more, Undo);
  }

  lemma BothExit(s: State, run: seq<Action>) returns (more: seq<Action>)
    requires ValidRun(Six(), s, run)
    requires At(After(Six(), s, run), 1, 5, 3, Scanning(1, {0}, 0, -1, 0, 0), Idle, InNext)
    ensures ValidRun(Six(), s, more) && At(After(Six(), s, more), 1, 5, 3, Free, Exited, Exited)
  {
    more := Extend(Six(), s, run, ScanSlot);
    more := Extend(Six(), s, more, ScanDone);
    more := Extend(Six(), s, more, NextSteal(0));
    more := Extend(Six(), s, more, ScanSlot);
    more := Extend(Six(), s, more, ScanDone);
  }

  lemma SixStartable() returns (segs: seq<Segment>, file: seq<byte>)
    ensures Startable(Six(), segs, file) && At(Init(Six(), segs, file), 0, 5, 0, Free, Idle, Idle)
  {
    segs, file := [Segment(0, 0, 5, 0)], [0, 0, 0, 0, 0, 0];
    ContiguousTiled(6, Starts(segs), Ends(segs));
  }

  lemma MisleadingRun(s: State) returns (run: seq<Action>)
    requires At(s, 0, 5, 0, Free, Idle, Idle)
    ensures ValidRun(Six(), s, run) && At(After(Six(), s, run), 1, 5, 3, Free, Exited, Exited)
  {
    run := PickDonor(s);
    run := Flush(s, run, 0, Chosen(1, {}, 0, 0, 6));
    run := Flush(s, run, 1, Chosen(1, {}, 0, 0, 6));
    run := Flush(s, run, 2, Chosen(1, {}, 0, 0, 6));
    run := MisledDonor(s, run);
    run := BothExit(s, run);
  }

  /** Every worker can return without an error and leave bytes unfetched, because isDone reads the End without the
      lock and may see a tentative one. Only the gate stands between this and a truncated file. */
  lemma NoErrorIsNotComplete() returns (segs: seq<Segment>, file: seq<byte>, run: seq<Action>)
    ensures Startable(Six(), segs, file) && ValidRun(Six(), Init(Six(), segs, file), run)
    ensures var t := After(Six(), Init(Six(), segs, file), run);
      && Shape(t) && (forall w | 0 <= w < |t.workers| :: t.workers[w].Exited?)
      && t.starts == [0] && t.ends == [5] && t.completed == [3]
      && !GateOpen(6, ActiveSegments(t), t.completed)
  {
    segs, file := SixStartable();
    run := MisleadingRun(Init(Six(), segs, file));
    assert ActiveSegments(After(Six(), Init(Six(), segs, file), run))[0].Size() == 6;
  }
}
