/** How a run can end, what each way leaves of the part file and the rows, and what a checkpointer's round stores: the
    machines of the crash and power-loss proofs, event by event (internal/engine/download_run.go:160-195, 600-640,
    internal/engine/checkpoint.go:85-120). */
module RunEnds {
  import opened Tiling
  import opened Layout
  import opened Planner
  import W = Protocol
  import C = CrashResume
  import D = Durability
  import S = StealDurability

  /** A run whose workers have all returned without an error, its counters complete, passes the gate; then the part file
      is put in place, or removed, or left where it is if it cannot be renamed; the record is saved or not; and the
      process may be killed before and after each of these. */
  lemma FinishesInAnyOfThese(remote: seq<byte>, y: C.Sys, saved: bool)
    requires y.phase.Running? && W.Shape(y.phase.st)
    requires forall w | 0 <= w < |y.phase.st.workers| :: y.phase.st.workers[w].Exited?
    requires GateOpen(|remote|, W.ActiveSegments(y.phase.st), y.phase.st.completed)
    ensures var rows, file := C.RowsOf(W.ActiveSegments(y.phase.st)), y.phase.st.file;
      && C.Enabled(remote, y, C.Gate)
      && var g := C.Step(remote, y, C.Gate);
         && g == C.Sys(y.rows, {}, {}, y.loads, C.Gated(rows, file), y.outs)
         && C.Enabled(remote, g, C.Refuse(saved))
         && C.Step(remote, g, C.Refuse(saved)) == g.(rows := if saved then rows else y.rows, phase := C.Down(file))
         && C.Enabled(remote, g, C.Remove) && C.Step(remote, g, C.Remove) == g.(phase := C.Emptied(rows))
         && C.Enabled(remote, g, C.Rename)
         && var r := C.Step(remote, g, C.Rename);
            && r == g.(phase := C.Emptied(rows), outs := y.outs + [file])
            && C.Enabled(remote, r, C.SaveFinal(saved))
            && C.Step(remote, r, C.SaveFinal(saved)) ==
               r.(rows := if saved then rows else y.rows, phase := C.Down([]))
  {
  }

  /** A process can be killed at any time. The part file stays as it is; what was under way, and the copies of the
      record that requests held, are gone. */
  lemma KilledAnywhere(remote: seq<byte>, y: C.Sys)
    ensures C.Enabled(remote, y, C.Kill)
    ensures var z := C.Step(remote, y, C.Kill); z.rows == y.rows && z.outs == y.outs && z.seen == {} && z.taken == {}
    ensures C.Step(remote, y, C.Kill).loads == {}
    ensures y.phase.Down? ==> C.Step(remote, y, C.Kill).phase == y.phase
    ensures y.phase.Running? ==> C.Step(remote, y, C.Kill).phase == C.Down(y.phase.st.file)
    ensures y.phase.Gated? ==> C.Step(remote, y, C.Kill).phase == C.Down(y.phase.file)
    ensures y.phase.Emptied? ==> C.Step(remote, y, C.Kill).phase == C.Down([])
  {
  }

  /** A run whose workers have returned can end without the gate, its counters saved or not; between runs the part file
      may be cut anywhere or removed, and a fresh plan started over what is left of it. */
  lemma FailsAndStartsOver(remote: seq<byte>, y: C.Sys, saved: bool, size: nat, knobs: C.Knobs, plan: seq<Segment>)
    requires y.phase.Running? && W.Shape(y.phase.st) && W.Quiet(y.phase.st)
    requires size <= |y.phase.st.file| && knobs.Valid() && FreshLayout(|remote|, plan)
    ensures C.Enabled(remote, y, C.Fail(saved))
    ensures var z := C.Step(remote, y, C.Fail(saved));
      && z.phase == C.Down(y.phase.st.file) && z.loads == y.loads && z.outs == y.outs
      && z.rows == (if saved then C.RowsOf(W.ActiveSegments(y.phase.st)) else y.rows)
      && C.Enabled(remote, z, C.Truncate(size))
      && C.Step(remote, z, C.Truncate(size)) == z.(phase := C.Down(y.phase.st.file[..size]))
      && C.Enabled(remote, z, C.Discard) && C.Step(remote, z, C.Discard) == z.(phase := C.Down([]))
      && C.Enabled(remote, z, C.Replan(knobs, plan))
      && var n := C.Step(remote, z, C.Replan(knobs, plan));
         && n.rows == C.RowsOf(plan) && n.phase.Running? && n.phase.st.file == Grown(y.phase.st.file, |remote|)
         && n.phase.st.starts == Starts(plan) && n.phase.st.ends == Ends(plan) && n.phase.st.completed == Counts(plan)
  {
  }

  /** A run has a slot for each row it starts from and for as many steals as the ceiling allows, its workers and retries
      are the configured ones, and every slot starts with the row's range and counter over the grown part file. */
  lemma StartsAsConfigured(remote: seq<byte>, knobs: C.Knobs, layout: seq<Segment>, file: seq<byte>)
    ensures C.Started(remote, knobs, layout, file).Running?
    ensures var c := C.Started(remote, knobs, layout, file).c;
      && c.remote == remote && c.initial == |layout| && |layout| <= c.max && knobs.maxSegments <= c.max
      && (c.max == |layout| || c.max == knobs.maxSegments)
      && c.floor == knobs.floor && c.margin == knobs.margin && c.retries == knobs.retries
      && c.workers == knobs.workers && c.cover == if |layout| == 1 then layout[0].end + 1 else |remote|
    ensures var s := C.Started(remote, knobs, layout, file).st;
      && s.starts == Starts(layout) && s.ends == Ends(layout) && s.completed == Counts(layout) && s.cursor == 0
      && s.file == (if |file| < |remote| then file + seq(|remote| - |file|, _ => 0) else file)
      && |s.workers| == knobs.workers && forall w | 0 <= w < |s.workers| :: s.workers[w].Idle?
  {
  }

  /** Rows are read from the live plan and upserted, and whole records are loaded and saved back, at any time of a
      run. */
  lemma RowsComeAndGo(remote: seq<byte>, y: C.Sys, i: nat, n: int)
    requires y.phase.Running? && W.Shape(y.phase.st) && i < |y.phase.st.starts| && 0 <= n <= y.phase.st.completed[i]
    ensures var r := C.Record(y.phase.st.starts[i], y.phase.st.ends[i], n);
      && C.Enabled(remote, y, C.LoadEnd(i))
      && var a := C.Step(remote, y, C.LoadEnd(i));
         && C.Enabled(remote, a, C.Snapshot(i, y.phase.st.ends[i], n))
         && var b := C.Step(remote, a, C.Snapshot(i, y.phase.st.ends[i], n));
            && b.phase == y.phase && C.Enabled(remote, b, C.Persist(i, r))
            && C.Step(remote, b, C.Persist(i, r)) == b.(rows := y.rows[i := r])
    ensures C.Enabled(remote, y, C.LoadAll)
    ensures var a := C.Step(remote, y, C.LoadAll);
      && a == y.(loads := y.loads + {y.rows})
      && forall m | m in a.loads ::
           C.Enabled(remote, a, C.SaveAll(m)) && C.Step(remote, a, C.SaveAll(m)) == a.(rows := m)
  {
  }

  // ----- the checkpointer's round, with the power about to go

  /** On the static path: a free checkpointer can take any segment through its round; with the fsync and the write
      succeeding, all that had been written is on the device and the row holds the counter as it was read. */
  lemma StaticRound(remote: seq<byte>, s: D.State, p: nat, k: nat)
    requires D.Shape(s) && s.phase.Running? && p < |s.procs| && s.procs[p].Resting? && k < |s.segs|
    ensures D.Enabled(remote, s, D.Begin(p, [k]))
    ensures var a := s.(procs := s.procs[p := D.Reading([k], [])]); D.Step(remote, s, D.Begin(p, [k])) == a
    ensures var a := s.(procs := s.procs[p := D.Reading([k], [])]);
      D.Enabled(remote, a, D.Read(p)) &&
      D.Step(remote, a, D.Read(p)) == s.(procs := s.procs[p := D.Reading([], [(k, s.completed[k])])])
    ensures var b := s.(procs := s.procs[p := D.Reading([], [(k, s.completed[k])])]);
      && D.Enabled(remote, b, D.Sync(p, true)) && D.Enabled(remote, b, D.Sync(p, false))
      && D.Step(remote, b, D.Sync(p, true)) ==
         s.(disk := s.cache, procs := s.procs[p := D.Synced([(k, s.completed[k])])])
      && D.Step(remote, b, D.Sync(p, false)) == s.(procs := s.procs[p := D.Resting])
  {
    var todo: seq<nat> := [k];
    assert todo[1..] == [];
    var got: seq<(nat, int)> := [];
    assert got + [(k, s.completed[k])] == [(k, s.completed[k])];
  }

  lemma StaticPersist(remote: seq<byte>, s: D.State, p: nat, k: nat, n: int)
    requires D.Shape(s) && s.phase.Running? && p < |s.procs| && s.procs[p] == D.Synced([(k, n)]) && k < |s.segs|
    ensures D.Enabled(remote, s, D.Persist(p, true)) && D.Enabled(remote, s, D.Persist(p, false))
    ensures var t := D.Step(remote, s, D.Persist(p, true));
      t.rows == s.rows[k := n] && t.ever == s.ever[k := s.ever[k] + {n}] && t.procs == s.procs[p := D.Resting]
    ensures D.Step(remote, s, D.Persist(p, false)) == s.(procs := s.procs[p := D.Resting])
  {
  }

  /** A static run ends in as many ways; each leaves the part file to the process and to the device as it says. */
  lemma StaticEnds(remote: seq<byte>, s: D.State, synced: bool, saved: bool)
    requires D.Shape(s) && s.phase.Running? && D.Stopped(s)
    ensures D.Enabled(remote, s, D.EndRun(synced, saved))
    ensures var t := D.Step(remote, s, D.EndRun(synced, saved));
      && t.phase.Down? && t.cache == s.cache && t.disk == (if synced then s.cache else s.disk)
      && t.rows == (if saved then s.completed else s.rows)
  {
  }

  lemma StaticFinish(remote: seq<byte>, s: D.State, saved: bool)
    requires D.Shape(s) && s.phase.Running? && D.Stopped(s) && GateOpen(|remote|, s.segs, s.completed)
    ensures D.Enabled(remote, s, D.Gate)
    ensures var g := D.Step(remote, s, D.Gate);
      && g == s.(disk := s.cache, phase := D.Gated)
      && D.Enabled(remote, g, D.Refuse(saved)) && D.Enabled(remote, g, D.Remove) && D.Enabled(remote, g, D.Rename)
      && D.Step(remote, g, D.Refuse(saved)).phase.Down? && D.Step(remote, g, D.Refuse(saved)).cache == s.cache
      && D.Step(remote, g, D.Refuse(saved)).rows == (if saved then s.completed else s.rows)
      && D.Step(remote, g, D.Remove) == g.(cache := [], disk := [], phase := D.Emptied(s.cache))
      && D.Step(remote, g, D.Rename) ==
         g.(cache := [], disk := [], phase := D.Emptied(s.cache), outs := s.outs + [s.cache])
  {
  }

  /** Once the part file is gone the record is saved or not, and it may also go between two runs; killing loses nothing
      that was written. */
  lemma StaticGone(remote: seq<byte>, s: D.State, saved: bool)
    requires D.Shape(s)
    ensures s.phase.Emptied? ==> D.Enabled(remote, s, D.SaveFinal(saved))
    ensures s.phase.Emptied? ==>
      var t := D.Step(remote, s, D.SaveFinal(saved));
      t.phase.Down? && t.cache == s.cache && t.rows == if saved then s.completed else s.rows
    ensures s.phase.Down? ==>
      D.Enabled(remote, s, D.Discard) && D.Step(remote, s, D.Discard) == s.(cache := [], disk := [])
    ensures D.Enabled(remote, s, D.Kill)
    ensures var t := D.Step(remote, s, D.Kill);
      && t.phase.Down? && t.cache == s.cache && t.disk == s.disk && t.rows == s.rows && t.ever == s.ever
      && t.outs == s.outs && (forall p | 0 <= p < |t.procs| :: t.procs[p].Resting?)
  {
  }

  /** The power can go at any time, and may leave any mix of what the process had written and what the device had, and
      for each row any counter that was ever stored for it. */
  lemma PowerGoesAnywhere(remote: seq<byte>, s: D.State, after: seq<byte>, rows: seq<int>)
    requires D.Shape(s) && |after| == |s.cache| && |rows| == |s.rows|
    requires forall q | 0 <= q < |after| :: after[q] == s.disk[q] || after[q] == s.cache[q]
    requires forall i | 0 <= i < |rows| :: rows[i] in s.ever[i]
    ensures D.Enabled(remote, s, D.PowerLoss(after, rows))
    ensures var t := D.Step(remote, s, D.PowerLoss(after, rows));
      t.phase.Down? && t.cache == after && t.disk == after && t.rows == rows && t.outs == s.outs
  {
  }

  lemma PowerGoesWhileStealing(c: W.Config, y: S.Run, after: seq<byte>, rows: C.Rows)
    requires W.Shape(y.st) && y.up && |after| == |y.disk| == |y.st.file|
    requires forall q | 0 <= q < |after| :: after[q] == y.disk[q] || after[q] == y.st.file[q]
    requires forall k | k in rows :: (k, rows[k]) in y.ever
    ensures S.Can(c, y, S.PowerLoss(after, rows))
    ensures var t := S.Next(c, y, S.PowerLoss(after, rows)); t.disk == after && t.rows == rows && !t.up
  {
  }

  /** During a stealing run: a free checkpointer can take any active slot through its round; the row holds the slot's
      start, the End loaded first and the counter read after it, and is stored once the fsync has succeeded. */
  lemma StealingRound(c: W.Config, y: S.Run, p: nat, k: nat)
    requires W.Shape(y.st) && y.up && p < |y.procs| && y.procs[p].Resting? && k < |y.st.starts|
    ensures S.Can(c, y, S.Begin(p, [k]))
    ensures S.Next(c, y, S.Begin(p, [k])) == y.(procs := y.procs[p := S.Reading([k], [])])
    ensures var a := y.(procs := y.procs[p := S.Reading([k], [])]);
      && S.Can(c, a, S.LoadsEnd(p))
      && S.Next(c, a, S.LoadsEnd(p)) == y.(procs := y.procs[p := S.Halfway([k], y.st.ends[k], [])])
  {
  }

  lemma StealingRead(c: W.Config, y: S.Run, p: nat, k: nat, end: int)
    requires W.Shape(y.st) && y.up && p < |y.procs| && y.procs[p] == S.Halfway([k], end, []) && k < |y.st.starts|
    ensures S.Can(c, y, S.ReadsCount(p))
    ensures var x := (k, C.Record(y.st.starts[k], end, y.st.completed[k]));
      var b := y.(procs := y.procs[p := S.Reading([], [x])]);
      && S.Next(c, y, S.ReadsCount(p)) == b
      && S.Can(c, b, S.Sync(p, true)) && S.Can(c, b, S.Sync(p, false))
      && S.Next(c, b, S.Sync(p, true)) == y.(disk := y.st.file, procs := y.procs[p := S.Synced([x])])
      && S.Next(c, b, S.Sync(p, false)) == y.(procs := y.procs[p := S.Resting])
  {
    var todo: seq<nat> := [k];
    assert todo[1..] == [];
    var x := (k, C.Record(y.st.starts[k], end, y.st.completed[k]));
    var got: seq<S.Entry> := [];
    assert got + [x] == [x];
  }

  lemma StealingPersist(c: W.Config, y: S.Run, p: nat, x: S.Entry)
    requires W.Shape(y.st) && y.up && p < |y.procs| && y.procs[p] == S.Synced([x])
    ensures S.Can(c, y, S.Stores(p, true)) && S.Can(c, y, S.Stores(p, false))
    ensures var t := S.Next(c, y, S.Stores(p, true));
      t.rows == y.rows[x.0 := x.1] && t.barrier == y.barrier + {x} && t.ever == y.ever + {x} && t.st == y.st
    ensures S.Next(c, y, S.Stores(p, false)) == y.(procs := y.procs[p := S.Resting])
  {
  }

  /** A commit leaves the donor's row and the tail's to be stored. */
  lemma StealingCut(c: W.Config, y: S.Run)
    requires W.Shape(y.st) && y.up && W.Enabled(c, y.st, W.Commit)
    ensures S.Can(c, y, S.Worked(W.Commit))
    ensures var m := y.st.mu; var d := y.st.starts[m.donor];
      var donor, tail := (m.donor, C.Record(d, m.mid, m.from - d)), (|y.st.starts|, C.Record(m.mid + 1, m.oldEnd, 0));
      var t := S.Next(c, y, S.Worked(W.Commit));
      t.st == W.Apply(c, y.st, W.Commit) && t.cuts == y.cuts + {donor, tail}
    ensures forall x | x in y.cuts :: S.Can(c, y, S.StoresCut(x))
    ensures forall x | x in y.cuts ::
      S.Next(c, y, S.StoresCut(x)) == y.(rows := y.rows[x.0 := x.1], ever := y.ever + {x})
  {
  }
}
