/** Segments as inclusive byte ranges, and what it means for a set of ranges to tile a file. */
module Tiling {

  newtype byte = x: int | 0 <= x < 256

  /** One byte range [start, end] of a download, of which the first `completed` bytes are in the part file. */
  datatype Segment = Segment(index: int, start: int, end: int, completed: int) {
    function Size(): int { end - start + 1 }
    function Remaining(): int { Size() - completed }
    predicate Done() { completed >= Size() }
  }

  function Starts(segs: seq<Segment>): (r: seq<int>)
    ensures |r| == |segs| && forall i | 0 <= i < |segs| :: r[i] == segs[i].start
  {
    seq(|segs|, i requires 0 <= i < |segs| => segs[i].start)
  }

  function Ends(segs: seq<Segment>): (r: seq<int>)
    ensures |r| == |segs| && forall i | 0 <= i < |segs| :: r[i] == segs[i].end
  {
    seq(|segs|, i requires 0 <= i < |segs| => segs[i].end)
  }

  function Counts(segs: seq<Segment>): (r: seq<int>)
    ensures |r| == |segs| && forall i | 0 <= i < |segs| :: r[i] == segs[i].completed
  {
    seq(|segs|, i requires 0 <= i < |segs| => segs[i].completed)
  }

  function Sum(xs: seq<int>): int {
    if |xs| == 0 then 0 else Sum(xs[..|xs| - 1]) + xs[|xs| - 1]
  }

  function SumSizes(starts: seq<int>, ends: seq<int>): int
    requires |starts| == |ends|
  {
    if |starts| == 0 then 0
    else
      var last := |starts| - 1;
      SumSizes(starts[..last], ends[..last]) + ends[last] - starts[last] + 1
  }

  predicate Has(starts: seq<int>, ends: seq<int>, i: int, b: int)
    requires 0 <= i < |starts| == |ends|
  {
    starts[i] <= b <= ends[i]
  }

  ghost predicate Covered(starts: seq<int>, ends: seq<int>, b: int)
    requires |starts| == |ends|
  {
    exists i | 0 <= i < |starts| :: Has(starts, ends, i, b)
  }

  /** Every byte of [0, cover) lies in exactly one range, and no range reaches outside [0, cover). */
  ghost predicate Tiled(cover: int, starts: seq<int>, ends: seq<int>) {
    && |starts| == |ends|
    && (forall i | 0 <= i < |starts| :: 0 <= starts[i] <= ends[i] + 1 <= cover)
    && (forall b | 0 <= b < cover :: Covered(starts, ends, b))
    && (forall i, j, b | 0 <= i < |starts| && 0 <= j < |starts| && Has(starts, ends, i, b) && Has(starts, ends, j, b) ::
          i == j)
    && SumSizes(starts, ends) == cover
  }

  /** Ranges in file order, each ending where the next begins. */
  predicate Contiguous(total: int, starts: seq<int>, ends: seq<int>) {
    && 0 < |starts| == |ends|
    && starts[0] == 0
    && ends[|ends| - 1] == total - 1
    && (forall i | 0 <= i < |starts| - 1 :: ends[i] == starts[i + 1] - 1)
    && (forall i | 0 <= i < |starts| :: starts[i] <= ends[i] + 1)
  }

  lemma {:induction false} SumSizesUpdate(starts: seq<int>, ends: seq<int>, d: nat, e: int)
    requires d < |starts| == |ends|
    ensures SumSizes(starts, ends[d := e]) == SumSizes(starts, ends) - ends[d] + e
  {
    var last := |starts| - 1;
    if d < last {
      SumSizesUpdate(starts[..last], ends[..last], d, e);
      assert ends[d := e][..last] == ends[..last][d := e];
    } else {
      assert ends[d := e][..last] == ends[..last];
    }
  }

  /** Cutting range d after byte mid and appending the cut-off tail keeps the tiling. */
  lemma SplitTiled(cover: int, starts: seq<int>, ends: seq<int>, d: nat, mid: int)
    requires Tiled(cover, starts, ends)
    requires d < |starts| && starts[d] - 1 <= mid <= ends[d]
    ensures Tiled(cover, starts + [mid + 1], ends[d := mid] + [ends[d]])
  {
    var s2, e2 := starts + [mid + 1], ends[d := mid] + [ends[d]];
    SumSizesUpdate(starts, ends, d, mid);
    forall b | 0 <= b < cover
      ensures Covered(s2, e2, b)
    {
      assert Covered(starts, ends, b);
      var i :| 0 <= i < |starts| && Has(starts, ends, i, b);
      var j := if i == d && b > mid then |starts| else i;
      assert Has(s2, e2, j, b);
    }
    forall i, j, b | 0 <= i < |s2| && 0 <= j < |s2| && Has(s2, e2, i, b) && Has(s2, e2, j, b)
      ensures i == j
    {
      var i0 := if i == |starts| then d else i;
      var j0 := if j == |starts| then d else j;
      assert Has(starts, ends, i0, b) && Has(starts, ends, j0, b);
    }
  }

  lemma {:induction false} ContiguousOrder(total: int, starts: seq<int>, ends: seq<int>, i: nat, j: nat)
    requires Contiguous(total, starts, ends) && i < j < |starts|
    ensures ends[i] < starts[j]
    decreases j - i
  {
    if i + 1 < j {
      ContiguousOrder(total, starts, ends, i, j - 1);
      assert ends[j - 1] == starts[j] - 1 && starts[j - 1] <= ends[j - 1] + 1;
    }
  }

  lemma {:induction false} ContiguousFind(total: int, starts: seq<int>, ends: seq<int>, b: int, k: nat) returns (i: nat)
    requires Contiguous(total, starts, ends) && k < |starts| && 0 <= b <= ends[k]
    ensures i < |starts| && Has(starts, ends, i, b)
    decreases k
  {
    if starts[k] <= b {
      i := k;
    } else {
      i := ContiguousFind(total, starts, ends, b, k - 1);
    }
  }

  lemma {:induction false} ContiguousSum(starts: seq<int>, ends: seq<int>)
    requires 0 < |starts| == |ends|
    requires forall i | 0 <= i < |starts| - 1 :: ends[i] == starts[i + 1] - 1
    ensures SumSizes(starts, ends) == ends[|ends| - 1] - starts[0] + 1
  {
    var last := |starts| - 1;
    if last > 0 {
      ContiguousSum(starts[..last], ends[..last]);
    }
  }

  /** Ranges laid end to end from 0 to total - 1 put every byte in exactly one range. */
  lemma ContiguousTiled(total: int, starts: seq<int>, ends: seq<int>)
    requires Contiguous(total, starts, ends)
    ensures Tiled(total, starts, ends)
  {
    ContiguousSum(starts, ends);
    forall i | 0 <= i < |starts|
      ensures 0 <= starts[i] && ends[i] + 1 <= total
    {
      if 0 < i { ContiguousOrder(total, starts, ends, 0, i); }
      if i < |starts| - 1 { ContiguousOrder(total, starts, ends, i, |starts| - 1); }
    }
    forall b | 0 <= b < total
      ensures Covered(starts, ends, b)
    {
      var i := ContiguousFind(total, starts, ends, b, |starts| - 1);
    }
    forall i, j, b | 0 <= i < |starts| && 0 <= j < |starts| && Has(starts, ends, i, b) && Has(starts, ends, j, b)
      ensures i == j
    {
      if i < j { ContiguousOrder(total, starts, ends, i, j); }
      if j < i { ContiguousOrder(total, starts, ends, j, i); }
    }
  }

  /** Counters bounded below by the range sizes sum to at least the sizes, and equal them only entry by entry. */
  lemma {:induction false} SumAtLeast(starts: seq<int>, ends: seq<int>, done: seq<int>)
    requires |starts| == |ends| == |done|
    requires forall i | 0 <= i < |starts| :: done[i] >= ends[i] - starts[i] + 1
    ensures Sum(done) >= SumSizes(starts, ends)
    ensures Sum(done) == SumSizes(starts, ends) <==> forall i | 0 <= i < |starts| :: done[i] == ends[i] - starts[i] + 1
  {
    var last := |starts| - 1;
    if last >= 0 {
      SumAtLeast(starts[..last], ends[..last], done[..last]);
    }
  }

  /** Counters bounded above by the range sizes sum to at most the sizes. */
  lemma {:induction false} SumAtMost(starts: seq<int>, ends: seq<int>, done: seq<int>)
    requires |starts| == |ends| == |done|
    requires forall i | 0 <= i < |starts| :: done[i] <= ends[i] - starts[i] + 1
    ensures Sum(done) <= SumSizes(starts, ends)
  {
    var last := |starts| - 1;
    if last >= 0 {
      SumAtMost(starts[..last], ends[..last], done[..last]);
    }
  }
}
