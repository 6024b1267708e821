/** What a paused or failed download keeps (internal/engine/download_run.go:162-169, 282-330, 620-640). */
module ResumeProgress {
  import opened Tiling
  import opened Layout
  import opened LayoutFacts
  import opened Protocol
  import opened CrashResume
  import C = Checkpoint
  import P = ProtocolInv
  import PF = ProtocolFacts

  /** Repair and reconciliation give back a row of a tiling that the file backs. */
  lemma RowComesBack(total: int, segs: seq<Segment>, onDisk: nat, layout: seq<Segment>, k: nat) returns (i: nat)
    requires total > 0 && Tiled(total, Starts(segs), Ends(segs)) && k < |segs| && total <= onDisk
    requires forall j | 0 <= j < |segs| ::
      segs[j].Size() >= 1 && 0 <= segs[j].completed <= segs[j].Size() && 0 <= segs[j].end < total
    requires IsReconciled(total, segs, onDisk, layout)
    ensures i < |layout| && layout[i] == segs[k].(index := layout[i].index)
  {
    var repaired: seq<Segment> :| IsRepair(total, segs, repaired) && layout == Capped(repaired, onDisk);
    if Repairable(total, segs) {
      var sorted: seq<Segment> :| SortOf(sorted, segs) && repaired == Retiled(total, sorted);
      SameElements(sorted, segs);
      assert segs[k] in sorted;
      i :| 0 <= i < |sorted| && sorted[i] == segs[k];
      RowEnds(total, segs, sorted, i);
    } else {
      i := k;
    }
  }

  lemma SlotComesBack(c: Config, s: State, layout: seq<Segment>, k: nat) returns (i: nat)
    requires P.Inv(c, s) && Quiet(s) && c.cover == |c.remote| >= 1 && k < |s.starts|
    requires forall j | 0 <= j < |s.starts| :: s.starts[j] <= s.ends[j]
    requires IsReconciled(|c.remote|, ActiveSegments(s), |s.file|, layout)
    ensures i < |layout| && layout[i].start == s.starts[k] && layout[i].end == s.ends[k]
    ensures layout[i].completed == s.completed[k]
  {
    var segs := ActiveSegments(s);
    PF.QuietIsFree(c, s);
    assert Starts(segs) == s.starts && Ends(segs) == s.ends;
    forall j | 0 <= j < |segs|
      ensures 0 <= segs[j].completed <= segs[j].Size() && 0 <= segs[j].end < |c.remote|
    {
      SlotInRange(c, s, j);
    }
    i := RowComesBack(|c.remote|, segs, |s.file|, layout, k);
  }

  /** A run over the whole file that ends without passing the gate, having saved its counters, loses nothing: whenever
      the download is resumed over that part file, each slot comes back with its range and its counter, so no byte that
      was fetched is fetched again. */
  lemma ProgressComesBack(remote: seq<byte>, y: Sys, d: Debt, knobs: Knobs, loaded: seq<Segment>, layout: seq<Segment>,
                          k: nat) returns (i: nat)
    requires SysInv(remote, y, d) && CrashResume.Enabled(remote, y, Fail(true))
    requires CrashResume.Enabled(remote, Step(remote, y, Fail(true)), Resume(knobs, loaded, layout))
    requires y.phase.c.cover == |remote| && k < |y.phase.st.starts|
    requires forall j | 0 <= j < |y.phase.st.starts| :: y.phase.st.starts[j] <= y.phase.st.ends[j]
    ensures var s := y.phase.st; var next := Step(remote, Step(remote, y, Fail(true)), Resume(knobs, loaded, layout));
      && next.phase.Running? && var t := next.phase.st;
         && i < |t.starts| == |t.ends| == |t.completed|
         && t.starts[i] == s.starts[k] && t.ends[i] == s.ends[k] && t.completed[i] == s.completed[k]
         && t.file == s.file
  {
    C.SaveThenLoad(ActiveSegments(y.phase.st), loaded);
    i := SlotComesBack(y.phase.c, y.phase.st, layout, k);
  }

  lemma SlotInRange(c: Config, s: State, j: nat)
    requires P.Inv(c, s) && s.mu.Free? && c.cover == |c.remote| >= 1 && j < |s.starts| && s.starts[j] <= s.ends[j]
    ensures 0 <= s.completed[j] <= s.ends[j] - s.starts[j] + 1 && 0 <= s.ends[j] < |c.remote|
  {
    assert P.RowOk(c, P.RowOf(s, j), |s.starts| == 1, j < |s.handed|);
    EndsInside(c, s, j);
    if |s.starts| == 1 {
      assert Covered(s.starts, s.ends, |c.remote| - 1);
    }
  }
}
