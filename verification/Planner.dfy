/** The initial segmentation of a download (internal/engine/plan.go). */
module Planner {
  import opened Tiling

  /** Below this size a further split buys nothing. */
  const MIN_SEGMENT_SIZE := 0x10_0000

  /** A fresh layout: pieces in file order that tile [0, total), numbered densely, nothing fetched yet. */
  ghost predicate FreshLayout(total: int, segs: seq<Segment>) {
    && Contiguous(total, Starts(segs), Ends(segs))
    && (forall i | 0 <= i < |segs| :: segs[i].index == i && segs[i].completed == 0 && segs[i].Size() >= 1)
  }

  /** The pieces differ only in that the last one absorbs the division's remainder. */
  ghost predicate Balanced(segs: seq<Segment>) {
    && 0 < |segs|
    && (forall i | 0 <= i < |segs| - 1 :: segs[i].Size() == segs[0].Size())
    && 0 <= segs[|segs| - 1].Size() - segs[0].Size() < |segs|
  }

  method PlanSegments(totalSize: int, requested: int) returns (segs: array<Segment>)
    ensures totalSize <= 0 ==> segs[..] == [Segment(0, 0, -1, 0)]
    ensures totalSize > 0 ==> FreshLayout(totalSize, segs[..])
    ensures totalSize > 0 ==> Balanced(segs[..])
    // At most the requested count, and fewer only when one more piece would not leave each the floor.
    ensures totalSize > 0 && requested >= 1 ==> segs.Length <= requested
    ensures totalSize > 0 && segs.Length < requested ==> totalSize < (segs.Length + 1) * 1048576
    ensures totalSize > 0 && requested < 1 ==> segs.Length == 1
    ensures segs.Length >= 2 ==> forall i | 0 <= i < segs.Length :: segs[i].Size() >= 1048576
  {
    if totalSize <= 0 {
      segs := new Segment[1](_ => Segment(0, 0, -1, 0));
      return;
    }
    var n := if requested < 1 then 1 else requested;
    var most := totalSize / MIN_SEGMENT_SIZE;
    if most < n {
      n := most;
    }
    if n < 1 {
      n := 1;
    }
    BaseBounds(totalSize, n);
    segs := Cut(totalSize, n, totalSize / n);
    PiecesOk(totalSize, n, totalSize / n, segs[..]);
    assert forall i | 0 <= i < segs.Length :: segs[i] == segs[..][i];
  }

  /** Lays out n pieces of `base` bytes, the last of which runs to the end of the file. */
  method Cut(totalSize: int, n: nat, base: int) returns (segs: array<Segment>)
    requires 1 <= n && base >= 1 && Offset(n, base) <= totalSize < Offset(n, base) + n
    ensures Pieces(totalSize, n, base, segs[..])
  {
    segs := new Segment[n](_ => Segment(0, 0, -1, 0));
    var start := 0;
    for i := 0 to n
      invariant segs.Length == n
      invariant start == if i < n then Offset(i, base) else totalSize
      invariant forall j | 0 <= j < i :: segs[j] == PieceAt(totalSize, n, base, j)
    {
      var end := start + base - 1;
      if i == n - 1 {
        end := totalSize - 1;
      }
      segs[i] := Segment(i, start, end, 0);
      start := end + 1;
    }
  }

  /** Where piece j starts. */
  function Offset(j: nat, base: int): int {
    if j == 0 then 0 else Offset(j - 1, base) + base
  }

  function PieceAt(totalSize: int, n: int, base: int, j: nat): Segment {
    Segment(j, Offset(j, base), if j == n - 1 then totalSize - 1 else Offset(j + 1, base) - 1, 0)
  }

  lemma {:induction false} OffsetIs(j: nat, base: int)
    ensures Offset(j, base) == j * base
  {
    if j == 0 {
    } else {
      OffsetIs(j - 1, base);
      assert j * base == (j - 1) * base + base;
    }
  }

  lemma {:induction false} OffsetGrows(n: nat, a: int, b: int)
    requires a < b
    ensures Offset(n, a) + n <= Offset(n, b)
  {
    if n == 0 {
    } else {
      OffsetGrows(n - 1, a, b);
    }
  }

  lemma BaseBounds(totalSize: int, n: nat)
    requires totalSize > 0 && 1 <= n && (n == 1 || n <= totalSize / MIN_SEGMENT_SIZE)
    ensures totalSize / n >= 1
    ensures Offset(n, totalSize / n) <= totalSize < Offset(n, totalSize / n) + n
    ensures n == 1 || totalSize / n >= MIN_SEGMENT_SIZE
  {
    var base, rest := totalSize / n, totalSize % n;
    assert totalSize == n * base + rest && 0 <= rest < n;
    OffsetIs(n, base);
    if n > 1 && base < MIN_SEGMENT_SIZE {
      OffsetIs(n, MIN_SEGMENT_SIZE);
      OffsetGrows(n, base, MIN_SEGMENT_SIZE);
      assert false;
    }
  }

  predicate Pieces(totalSize: int, n: int, base: int, segs: seq<Segment>) {
    && 1 <= n == |segs| && base >= 1 && Offset(n, base) <= totalSize < Offset(n, base) + n
    && forall j | 0 <= j < n :: segs[j] == PieceAt(totalSize, n, base, j)
  }

  lemma PiecesOk(totalSize: int, n: int, base: int, segs: seq<Segment>)
    requires Pieces(totalSize, n, base, segs)
    ensures FreshLayout(totalSize, segs) && Balanced(segs)
    ensures forall j | 0 <= j < n :: segs[j].Size() >= base
  {
  }
}
