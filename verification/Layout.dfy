/** Resuming a download: repairing the persisted rows into a layout, reconciling it with the part file,
    and the completeness gate (internal/engine/download_run.go). */
module Layout {
  import opened Tiling

  // ----- the specification of repairLayout

  /** repairLayout leaves everything else alone: too few rows, an unknown size, or an open-ended row. */
  predicate Repairable(total: int, segs: seq<Segment>) {
    total > 0 && |segs| >= 2 && forall i | 0 <= i < |segs| :: segs[i].end >= 0
  }

  predicate SortedByStart(segs: seq<Segment>) {
    forall i, j | 0 <= i < j < |segs| :: segs[i].start <= segs[j].start
  }

  function Clamp(x: int, hi: int): int {
    var low := if x > hi then hi else x;
    if low < 0 then 0 else low
  }

  /** Row i of the repaired layout: it ends where the next row starts, and its counter fits. */
  function RetiledAt(total: int, segs: seq<Segment>, i: int): Segment
    requires 0 <= i < |segs|
  {
    var end := if i + 1 < |segs| then segs[i + 1].start - 1 else total - 1;
    Segment(i, segs[i].start, end, Clamp(segs[i].completed, end - segs[i].start + 1))
  }

  function Retiled(total: int, segs: seq<Segment>): (r: seq<Segment>)
    ensures |r| == |segs| && forall i | 0 <= i < |segs| :: r[i] == RetiledAt(total, segs, i)
  {
    seq(|segs|, i requires 0 <= i < |segs| => RetiledAt(total, segs, i))
  }

  ghost predicate SortOf(sorted: seq<Segment>, segs: seq<Segment>) {
    SortedByStart(sorted) && multiset(sorted) == multiset(segs)
  }

  /** What repairLayout may do: the library sort is not stable, so rows with equal starts come in any order. */
  ghost predicate IsRepair(total: int, before: seq<Segment>, after: seq<Segment>) {
    if Repairable(total, before) then
      exists sorted :: SortOf(sorted, before) && after == Retiled(total, sorted)
    else
      after == before
  }

  // ----- the specification of reconcileProgress

  /** The counter of one row after capping it to the bytes the part file backs. */
  function Backed(s: Segment, onDisk: int): int {
    var backed := if onDisk - s.start < 0 then 0 else onDisk - s.start;
    if s.end < 0 then 0
    else if s.completed > backed then backed
    else s.completed
  }

  function Capped(segs: seq<Segment>, onDisk: int): (r: seq<Segment>)
    ensures |r| == |segs|
    ensures forall i | 0 <= i < |segs| :: r[i] == segs[i].(completed := Backed(segs[i], onDisk))
  {
    seq(|segs|, i requires 0 <= i < |segs| => segs[i].(completed := Backed(segs[i], onDisk)))
  }

  ghost predicate IsReconciled(total: int, before: seq<Segment>, onDisk: int, after: seq<Segment>) {
    exists repaired :: IsRepair(total, before, repaired) && after == Capped(repaired, onDisk)
  }

  /** A part file shorter than the download is grown with zeros; a longer one is left alone. */
  function Grown(file: seq<byte>, total: int): (r: seq<byte>)
    ensures |r| == if |file| < total then total else |file|
    ensures forall p | 0 <= p < |r| :: r[p] == if p < |file| then file[p] else 0
  {
    if |file| < total then file + seq(total - |file|, _ => 0) else file
  }

  /** The file after data has been written at an offset; a gap before it reads as zeros. */
  function Overlay(file: seq<byte>, off: nat, data: seq<byte>): seq<byte> {
    if data == [] then file
    else
      var base := Grown(file, off + |data|);
      base[..off] + data + base[off + |data|..]
  }

  lemma OverlayByte(file: seq<byte>, off: nat, data: seq<byte>, p: nat)
    requires p < |Overlay(file, off, data)|
    ensures Overlay(file, off, data)[p] ==
      if off <= p < off + |data| then data[p - off] else if p < |file| then file[p] else 0
  {
  }

  lemma OverlayAt(file: seq<byte>, off: nat, data: seq<byte>)
    ensures var r := Overlay(file, off, data);
      && |r| == (if data != [] && off + |data| > |file| then off + |data| else |file|)
      && (forall p | 0 <= p < |r| ::
            r[p] == if off <= p < off + |data| then data[p - off] else if p < |file| then file[p] else 0)
  {
  }

  // ----- the specification of verifyComplete

  predicate GateOpen(total: int, segs: seq<Segment>, done: seq<int>)
    requires |done| == |segs|
  {
    && (forall i | 0 <= i < |segs| :: segs[i].end >= 0 ==> done[i] >= segs[i].Size())
    && (total > 0 ==> Sum(done) == total)
  }

  // ----- the code

  class PartFile {
    var content: seq<byte>
    ghost var failures: nat    // writes that have failed

    /** Writes a prefix of the buffer, all of it unless an error is reported. */
    method WriteAt(b: seq<byte>, off: nat) returns (n: nat, failed: bool)
      modifies this
      ensures n <= |b| && (!failed ==> n == |b|)
      ensures content == Overlay(old(content), off, b[..n])
      ensures failures == if failed then old(failures) + 1 else old(failures)
    {
      n :| 0 <= n <= |b|;
      failed := n < |b|;
      failures := if failed then failures + 1 else failures;
      content := Overlay(content, off, b[..n]);
    }

    method Truncate(size: nat)
      modifies this`content
      ensures content == if size <= |old(content)| then old(content)[..size] else Grown(old(content), size)
    {
      content := if size <= |content| then content[..size] else Grown(content, size);
    }
  }

  function InsertByStart(s: Segment, sorted: seq<Segment>): seq<Segment> {
    if sorted == [] then [s]
    else if s.start <= sorted[0].start then [s] + sorted
    else [sorted[0]] + InsertByStart(s, sorted[1..])
  }

  /** Any sort by Start; what the engine may rely on is only SortByStartSorts. */
  function SortByStart(segs: seq<Segment>): seq<Segment> {
    if segs == [] then [] else InsertByStart(segs[0], SortByStart(segs[1..]))
  }

  lemma {:induction false} InsertContents(s: Segment, sorted: seq<Segment>)
    ensures multiset(InsertByStart(s, sorted)) == multiset(sorted) + multiset{s}
  {
    if sorted != [] && s.start > sorted[0].start {
      InsertContents(s, sorted[1..]);
      assert sorted == [sorted[0]] + sorted[1..];
    }
  }

  lemma {:induction false} InsertSorted(s: Segment, sorted: seq<Segment>)
    requires SortedByStart(sorted)
    ensures SortedByStart(InsertByStart(s, sorted))
  {
    if sorted != [] && s.start > sorted[0].start {
      var rest := InsertByStart(s, sorted[1..]);
      InsertSorted(s, sorted[1..]);
      InsertContents(s, sorted[1..]);
      forall j | 0 <= j < |rest|
        ensures sorted[0].start <= rest[j].start
      {
        assert rest[j] in multiset(rest);
        assert rest[j] == s || rest[j] in sorted[1..];
      }
    }
  }

  lemma {:induction false} SortByStartSorts(segs: seq<Segment>)
    ensures SortOf(SortByStart(segs), segs)
  {
    if segs == [] {
    } else {
      SortByStartSorts(segs[1..]);
      InsertSorted(segs[0], SortByStart(segs[1..]));
      InsertContents(segs[0], SortByStart(segs[1..]));
      assert segs == [segs[0]] + segs[1..];
    }
  }

  class Download {
    var totalSize: int
    var segments: seq<Segment>

    method RepairLayout()
      modifies this`segments
      ensures IsRepair(totalSize, old(segments), segments)
    {
      if totalSize <= 0 || |segments| < 2 {
        return;
      }
      for i := 0 to |segments|
        invariant segments == old(segments)
        invariant forall j | 0 <= j < i :: segments[j].end >= 0
      {
        if segments[i].end < 0 {
          return;
        }
      }
      segments := SortByStart(segments);
      SortByStartSorts(old(segments));
      assert |multiset(segments)| == |multiset(old(segments))|;
      Retile();
    }

    /** Each row ends where the next begins, the last at the end of the file, and counts no more than it then holds. */
    method Retile()
      modifies this`segments
      ensures segments == Retiled(totalSize, old(segments))
    {
      ghost var sorted := segments;
      var n := |segments|;
      for i := 0 to n
        invariant |segments| == |sorted| == n
        invariant forall j | 0 <= j < i :: segments[j] == RetiledAt(totalSize, sorted, j)
        invariant forall j | i <= j < n :: segments[j] == sorted[j]
      {
        var end := totalSize - 1;
        if i + 1 < |segments| {
          end := segments[i + 1].start - 1;
        }
        var seg := segments[i].(index := i, end := end);
        if seg.completed > seg.Size() {
          seg := seg.(completed := seg.Size());
        }
        if seg.completed < 0 {
          seg := seg.(completed := 0);
        }
        segments := segments[i := seg];
      }
      assert segments == Retiled(totalSize, sorted);
    }

    method ReconcileProgress(part: PartFile, isFresh: bool)
      modifies this`segments, part
      ensures isFresh ==> part.content == old(part.content) && |segments| == |old(segments)|
      ensures isFresh ==> forall i | 0 <= i < |segments| :: segments[i] == old(segments)[i].(completed := 0)
      ensures !isFresh ==>
        part.content == (if totalSize > 0 then Grown(old(part.content), totalSize) else old(part.content))
      ensures !isFresh ==> IsReconciled(totalSize, old(segments), |old(part.content)|, segments)
    {
      if isFresh {
        var n := |segments|;
        for i := 0 to n
          invariant |segments| == n && part.content == old(part.content)
          invariant forall j | 0 <= j < i :: segments[j] == old(segments)[j].(completed := 0)
          invariant forall j | i <= j < n :: segments[j] == old(segments)[j]
        {
          segments := segments[i := segments[i].(completed := 0)];
        }
        return;
      }
      var onDisk := |part.content|;
      if totalSize > 0 && onDisk < totalSize {
        part.Truncate(totalSize);
      }
      RepairLayout();
      ghost var repaired := segments;
      var n := |segments|;
      for i := 0 to n
        invariant |segments| == |repaired| == n
        invariant part.content == if totalSize > 0 then Grown(old(part.content), totalSize) else old(part.content)
        invariant forall j | 0 <= j < i :: segments[j] == repaired[j].(completed := Backed(repaired[j], onDisk))
        invariant forall j | i <= j < n :: segments[j] == repaired[j]
      {
        var seg := segments[i];
        if seg.end < 0 {
          segments := segments[i := seg.(completed := 0)];
        } else {
          var backed := onDisk - seg.start;
          if backed < 0 {
            backed := 0;
          }
          if seg.completed > backed {
            segments := segments[i := seg.(completed := backed)];
          }
        }
      }
      assert segments == Capped(repaired, onDisk);
    }

    method VerifyComplete(prog: array<int>) returns (ok: bool)
      requires |segments| <= prog.Length
      ensures ok <==> GateOpen(totalSize, segments, prog[..|segments|])
    {
      var total := 0;
      for i := 0 to |segments|
        invariant total == Sum(prog[..i])
        invariant forall j | 0 <= j < i :: segments[j].end >= 0 ==> prog[j] >= segments[j].Size()
      {
        var seg := segments[i];
        var done := prog[i];
        assert prog[..i + 1][..i] == prog[..i];
        total := total + done;
        if seg.end >= 0 && done < seg.Size() {
          return false;
        }
      }
      if totalSize > 0 && total != totalSize {
        return false;
      }
      return true;
    }
  }
}
