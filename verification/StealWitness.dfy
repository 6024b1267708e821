/** A steal whose donor's row outlives the bytes it counts (internal/engine/download_run.go:513-522). */
module StealWitness {
  import opened Tiling
  import opened Protocol
  import opened CrashResume
  import opened StealDurability
  import opened P = ProtocolInv
  import opened F = ProtocolFacts
  import W = Witnesses

  /** Eight bytes, one-byte buffers, two workers, room for one steal. */
  function Eight(): Config {
    Config([1, 2, 3, 4, 5, 6, 7, 8], 8, 1, 2, 3, 1, 0, 2)
  }

  const ZEROS: seq<byte> := [0, 0, 0, 0, 0, 0, 0, 0]

  predicate At(s: State, cursor: nat, done: int, mu: Mutex, w0: Worker, w1: Worker, file: seq<byte>) {
    && Shape(s) && s.starts == [0] && s.ends == [7] && s.completed == [done]
    && s.cursor == cursor && s.mu == mu && s.workers == [w0, w1] && s.file == file
  }

  /** Worker 0 opens its body. */
  lemma Opens(s: State) returns (run: seq<Action>)
    requires At(s, 0, 0, Free, Idle, Idle, ZEROS)
    ensures ValidRun(Eight(), s, run)
    ensures At(After(Eight(), s, run), 1, 0, Free, Stream(0, 0, 7), Idle, ZEROS)
  {
    run := [];
    run := W.Extend(Eight(), s, run, NextInitial(0));
    run := W.Extend(Eight(), s, run, EnterSegment(0));
    run := W.Extend(Eight(), s, run, Open(0));
  }

  lemma WriteStep(t: State)
    requires At(t, 1, 0, Free, Loaded(0, 0, 7, 1, 7), Idle, ZEROS)
    ensures Protocol.Enabled(Eight(), t, WriteBytes(0, 1))
    ensures At(Protocol.Apply(Eight(), t, WriteBytes(0, 1)), 1, 0, Free, Written(0, 0, 7, 1, More, 7), Idle,
               ZEROS[0 := 1])
  {
  }

  lemma PublishStep(t: State)
    requires At(t, 1, 0, Free, Written(0, 0, 7, 1, More, 7), Idle, ZEROS[0 := 1])
    ensures Protocol.Enabled(Eight(), t, Publish(0))
    ensures At(Protocol.Apply(Eight(), t, Publish(0)), 1, 1, Free, Stream(0, 0, 7), Idle, ZEROS[0 := 1])
  {
  }

  /** It flushes one byte. */
  lemma Flushes(s: State, run: seq<Action>) returns (more: seq<Action>)
    requires ValidRun(Eight(), s, run) && At(After(Eight(), s, run), 1, 0, Free, Stream(0, 0, 7), Idle, ZEROS)
    ensures ValidRun(Eight(), s, more)
    ensures At(After(Eight(), s, more), 1, 1, Free, Stream(0, 0, 7), Idle, ZEROS[0 := 1])
  {
    more := W.Extend(Eight(), s, run, Load(0, 1));
    WriteStep(After(Eight(), s, more));
    more := W.Extend(Eight(), s, more, WriteBytes(0, 1));
    PublishStep(After(Eight(), s, more));
    more := W.Extend(Eight(), s, more, Publish(0));
  }

  /** Worker 1 picks slot 0, six bytes and one fetched one from its end, and shrinks its End to byte 3. */
  lemma Shrinks(s: State, run: seq<Action>) returns (more: seq<Action>)
    requires ValidRun(Eight(), s, run)
    requires At(After(Eight(), s, run), 1, 1, Free, Stream(0, 0, 7), Idle, ZEROS[0 := 1])
    ensures ValidRun(Eight(), s, more)
    ensures var t := After(Eight(), s, more);
      && Shape(t) && t.starts == [0] && t.completed == [1] && t.file == ZEROS[0 := 1]
      && t.mu == Shrunk(1, {}, 0, 1, 7, 3) && |t.workers| == 2
  {
    more := W.Extend(Eight(), s, run, NextSteal(1));
    more := W.Extend(Eight(), s, more, ScanSlot);
    more := W.Extend(Eight(), s, more, ScanDone);
    more := W.Extend(Eight(), s, more, Shrink);
  }

  /** A run of the machine is a course of the system in which nobody checkpoints. */
  lemma {:induction false} Lifted(c: Config, y: Run, run: seq<Action>) returns (hs: seq<Happening>)
    requires y.up && ValidRun(c, y.st, run)
    ensures ValidCourse(c, y, hs)
    ensures var z := AfterCourse(c, y, hs);
      z.st == After(c, y.st, run) && z.disk == y.disk && z.rows == y.rows && z.up
    decreases |run|
  {
    if run == [] {
      hs := [];
    } else {
      var rest := Lifted(c, Next(c, y, Worked(run[0])), run[1..]);
      hs := [Worked(run[0])] + rest;
      assert hs[1..] == rest;
    }
  }

  lemma {:induction false} Onto(c: Config, y: Run, hs: seq<Happening>, h: Happening)
    requires ValidCourse(c, y, hs) && Can(c, AfterCourse(c, y, hs), h)
    ensures ValidCourse(c, y, hs + [h]) && AfterCourse(c, y, hs + [h]) == Next(c, AfterCourse(c, y, hs), h)
    decreases |hs|
  {
    var all := hs + [h];
    if hs == [] {
      assert all[1..] == [];
      assert ValidCourse(c, Next(c, y, h), []);
    } else {
      assert all[0] == hs[0] && all[1..] == hs[1..] + [h];
      Onto(c, Next(c, y, hs[0]), hs[1..], h);
    }
  }

  lemma EightStartable()
    ensures Startable(Eight(), [Segment(0, 0, 7, 0)], ZEROS)
    ensures At(Init(Eight(), [Segment(0, 0, 7, 0)], ZEROS), 0, 0, Free, Idle, Idle, ZEROS)
  {
    ContiguousTiled(8, Starts([Segment(0, 0, 7, 0)]), Ends([Segment(0, 0, 7, 0)]));
  }

  /** The thief commits, and stores the donor's row. */
  lemma CutStored(z: Run) returns (u: Run)
    requires z.up && z.rows == map[] && z.disk == ZEROS
    requires Shape(z.st) && z.st.starts == [0] && z.st.completed == [1] && z.st.file == ZEROS[0 := 1]
    requires z.st.mu == Shrunk(1, {}, 0, 1, 7, 3) && |z.st.workers| == 2
    ensures Can(Eight(), z, Worked(Commit))
    ensures var v := Next(Eight(), z, Worked(Commit));
      Can(Eight(), v, StoresCut((0, Record(0, 3, 1)))) && u == Next(Eight(), v, StoresCut((0, Record(0, 3, 1))))
    ensures u.up && u.rows == map[0 := Record(0, 3, 1)] && u.disk == ZEROS && Shape(u.st) && |u.st.file| == 8
    ensures (0, Record(0, 3, 1)) in u.ever
  {
    assert (0, Record(0, 3, 1)) in Cut(z.st);
    u := Next(Eight(), Next(Eight(), z, Worked(Commit)), StoresCut((0, Record(0, 3, 1))));
  }

  lemma NotBacked()
    ensures !Backed(Eight().remote, ZEROS, Record(0, 3, 1))
  {
    assert ZEROS[0] == 0 && Eight().remote[0] == 1;
  }

  /** The first byte has been fetched, counted in the donor's stored row, and lost with the power. */
  lemma DonorRowOutlivesItsBytes() returns (y: Run, hs: seq<Happening>, z: Run)
    ensures StealDurability.Begins(Eight(), [Segment(0, 0, 7, 0)], ZEROS, map[], 0, y) && y.disk == ZEROS
    ensures ValidCourse(Eight(), y, hs) && AfterCourse(Eight(), y, hs) == z
    ensures !z.up && z.rows == map[0 := Record(0, 3, 1)] && !Backed(Eight().remote, z.disk, z.rows[0])
  {
    EightStartable();
    y := Starting(Eight(), [Segment(0, 0, 7, 0)], ZEROS, ZEROS, map[], 0);
    var run := Opens(y.st);
    run := Flushes(y.st, run);
    run := Shrinks(y.st, run);
    hs := Lifted(Eight(), y, run);
    z := CutStored(AfterCourse(Eight(), y, hs));
    Onto(Eight(), y, hs, Worked(Commit));
    hs := hs + [Worked(Commit)];
    Onto(Eight(), y, hs, StoresCut((0, Record(0, 3, 1))));
    hs := hs + [StoresCut((0, Record(0, 3, 1)))];
    var loss := PowerLoss(ZEROS, z.rows);
    Onto(Eight(), y, hs, loss);
    hs, z := hs + [loss], Next(Eight(), z, loss);
    NotBacked();
  }
}
