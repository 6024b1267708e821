/** Which stored rows repairLayout may treat differently when it sees them again
    (internal/engine/download_run.go:342-366): the library sort fixes no order among rows with equal starts. */
module RepairOrder {
  import opened Tiling
  import opened Layout
  import opened LayoutFacts

  /** Two rows start at byte 0; repair then leaves an open-ended one, and a second repair leaves everything alone. */
  ghost predicate TwoAtZero(segs: seq<Segment>) {
    exists i, j :: 0 <= i < j < |segs| && segs[i].start == 0 && segs[j].start == 0
  }

  /** Rows i and j start together, and row i claims bytes. */
  predicate Clash(segs: seq<Segment>, i: nat, j: nat) {
    i < |segs| && j < |segs| && i != j && segs[i].start == segs[j].start && segs[i].completed > 0
  }

  ghost predicate NoClash(segs: seq<Segment>) {
    forall i: nat, j: nat :: !Clash(segs, i, j)
  }

  /** Whatever order the sorts pick, repairing twice is repairing once. */
  ghost predicate AlwaysIdempotent(total: int, before: seq<Segment>) {
    forall once, twice | IsRepair(total, before, once) && IsRepair(total, once, twice) :: twice == once
  }

  /** Where rows i and j went. */
  lemma Positions(before: seq<Segment>, sorted: seq<Segment>, i: nat, j: nat) returns (p: nat, q: nat)
    requires multiset(sorted) == multiset(before) && i < |before| && j < |before| && i != j
    ensures p < |sorted| && q < |sorted| && p != q && sorted[p] == before[i] && sorted[q] == before[j]
  {
    SameElements(sorted, before);
    if i < j {
      assert before[i] in sorted;
      p :| 0 <= p < |sorted| && sorted[p] == before[i];
      q := OtherPosition(sorted, before, i, j, p);
    } else {
      assert before[j] in sorted;
      q :| 0 <= q < |sorted| && sorted[q] == before[j];
      p := OtherPosition(sorted, before, j, i, q);
    }
  }

  lemma ZeroLeavesOpenEnd(total: int, before: seq<Segment>, once: seq<Segment>)
    requires Repairable(total, before) && StartsInside(total, before) && IsRepair(total, before, once)
    requires TwoAtZero(before)
    ensures !Repairable(total, once)
  {
    var sorted: seq<Segment> :| SortOf(sorted, before) && once == Retiled(total, sorted);
    var i, j :| 0 <= i < j < |before| && before[i].start == 0 && before[j].start == 0;
    var p, q := Positions(before, sorted, i, j);
    SortFacts(total, before, sorted);
    assert sorted[1].start == 0 by {
      var m := if p < q then q else p;
      assert m > 1 ==> sorted[1].start <= sorted[m].start;
    }
    assert once[0].end == -1;
  }

  lemma ZerosMeet(total: int, before: seq<Segment>, sorted: seq<Segment>, k: nat)
    requires SortOf(sorted, before) && StartsInside(total, sorted) && k + 1 < |sorted| && sorted[k + 1].start == 0
    ensures TwoAtZero(before)
  {
    var p, q := Positions(sorted, before, k, k + 1);
    assert sorted[k].start <= sorted[k + 1].start;
    assert before[p].start == 0 && before[q].start == 0;
    if p < q {
      assert 0 <= p < q < |before|;
    } else {
      assert 0 <= q < p < |before|;
    }
  }

  lemma NoZeroNoOpenEnd(total: int, before: seq<Segment>, sorted: seq<Segment>)
    requires Repairable(total, before) && StartsInside(total, before) && SortOf(sorted, before) && !TwoAtZero(before)
    ensures Repairable(total, Retiled(total, sorted))
  {
    SortFacts(total, before, sorted);
    forall k | 0 <= k < |sorted| ensures RetiledAt(total, sorted, k).end >= 0 {
      if k + 1 < |sorted| && sorted[k + 1].start == 0 {
        ZerosMeet(total, before, sorted, k);
      }
    }
  }

  lemma NoClashNoClaim(total: int, before: seq<Segment>, sorted: seq<Segment>)
    requires SortOf(sorted, before) && NoClash(before)
    ensures NoClaimAtSharedStart(Retiled(total, sorted))
  {
    var once := Retiled(total, sorted);
    forall i, j | 0 <= i < j < |once| && once[i].start == once[j].start ensures once[j].completed == 0 {
      var p, q := Positions(sorted, before, j, i);
      assert !Clash(before, p, q);
    }
  }

  /** The last row in sort order that starts at s. */
  lemma LastAt(sorted: seq<Segment>, p: nat) returns (m: nat)
    requires SortedByStart(sorted) && p < |sorted|
    ensures p <= m < |sorted| && sorted[m].start == sorted[p].start
    ensures m + 1 < |sorted| ==> sorted[m + 1].start > sorted[p].start
    decreases |sorted| - p
  {
    if p + 1 < |sorted| && sorted[p + 1].start == sorted[p].start {
      m := LastAt(sorted, p + 1);
    } else {
      m := p;
    }
  }

  /** A sort that puts the claiming row of a clash last among its equals keeps the claim for a second repair to lose. */
  lemma ClashKept(total: int, before: seq<Segment>, i: nat, j: nat) returns (sorted: seq<Segment>)
    requires StartsInside(total, before) && Clash(before, i, j)
    ensures SortOf(sorted, before) && !NoClaimAtSharedStart(Retiled(total, sorted))
  {
    var first := SortByStart(before);
    SortByStartSorts(before);
    var p, q := Positions(before, first, i, j);
    var m := LastAt(first, p);
    SortFacts(total, before, first);
    if p < m {
      SwapStaysSorted(first, p, m);
      sorted := Swap(first, p, m);
      SortFacts(total, before, sorted);
      KeptAt(total, sorted, p, m);
    } else {
      sorted := first;
      KeptAt(total, sorted, q, m);
    }
  }

  lemma KeptAt(total: int, sorted: seq<Segment>, other: nat, m: nat)
    requires StartsInside(total, sorted) && other < m < |sorted| && sorted[other].start == sorted[m].start
    requires sorted[m].completed > 0 && (m + 1 < |sorted| ==> sorted[m + 1].start > sorted[m].start)
    ensures !NoClaimAtSharedStart(Retiled(total, sorted))
  {
    var once := Retiled(total, sorted);
    assert once[m].Size() > 0 && once[m].completed > 0 && once[other].start == once[m].start;
  }

  /** Exactly: repair is idempotent, whatever order the sorts pick, if and only if no two rows share a start that one of
      them claims bytes at, or two rows start at byte 0. */
  lemma IdempotentExactly(total: int, before: seq<Segment>)
    requires Repairable(total, before) && StartsInside(total, before)
    ensures AlwaysIdempotent(total, before) <==> NoClash(before) || TwoAtZero(before)
  {
    if NoClash(before) || TwoAtZero(before) {
      forall once, twice | IsRepair(total, before, once) && IsRepair(total, once, twice) ensures twice == once {
        Idempotent(total, before, once, twice);
      }
    } else {
      var i: nat, j: nat :| Clash(before, i, j);
      var sorted := ClashKept(total, before, i, j);
      NotIdempotent(total, before, sorted);
    }
  }

  lemma Idempotent(total: int, before: seq<Segment>, once: seq<Segment>, twice: seq<Segment>)
    requires Repairable(total, before) && StartsInside(total, before) && (NoClash(before) || TwoAtZero(before))
    requires IsRepair(total, before, once) && IsRepair(total, once, twice)
    ensures twice == once
  {
    if Repairable(total, once) {
      if TwoAtZero(before) { ZeroLeavesOpenEnd(total, before, once); }
      var sorted: seq<Segment> :| SortOf(sorted, before) && once == Retiled(total, sorted);
      NoClashNoClaim(total, before, sorted);
      RepairIdempotent(total, before, once);
    }
  }

  lemma NotIdempotent(total: int, before: seq<Segment>, sorted: seq<Segment>)
    requires Repairable(total, before) && StartsInside(total, before) && !TwoAtZero(before)
    requires SortOf(sorted, before) && !NoClaimAtSharedStart(Retiled(total, sorted))
    ensures !AlwaysIdempotent(total, before)
  {
    var once := Retiled(total, sorted);
    NoZeroNoOpenEnd(total, before, sorted);
    RepairIdempotent(total, before, once);
    var twice :| IsRepair(total, once, twice) && twice != once;
  }

  /** Three rows of a ten-byte file, two of which start at byte 5. */
  function ThreeRows(a: int, b: int, c: int, x: int, y: int): seq<Segment> {
    [Segment(0, 0, a, 0), Segment(1, 5, b, x), Segment(2, 5, c, y)]
  }

  lemma SwapRepairs(total: int, rows: seq<Segment>, i: nat, j: nat)
    requires Repairable(total, rows) && SortedByStart(rows) && i < j < |rows| && rows[i].start == rows[j].start
    ensures IsRepair(total, rows, Retiled(total, Swap(rows, i, j)))
  {
    SwapStaysSorted(rows, i, j);
  }

  lemma SwappedThree(a: int, b: int, c: int, x: int, y: int)
    requires 0 <= x <= 5 && 0 <= y
    ensures Retiled(10, Swap(ThreeRows(a, b, c, x, y), 1, 2)) == ThreeRows(4, 4, 9, 0, x)
  {
    var sorted := Swap(ThreeRows(a, b, c, x, y), 1, 2);
    assert RetiledAt(10, sorted, 0) == Segment(0, 0, 4, 0);
    assert RetiledAt(10, sorted, 1) == Segment(1, 5, 4, 0);
    assert RetiledAt(10, sorted, 2) == Segment(2, 5, 9, x);
  }

  lemma ThreeRepairs(a: int, b: int, c: int, x: int, y: int)
    requires 0 <= a && 0 <= b && 0 <= c && 0 <= x <= 5 && 0 <= y
    ensures IsRepair(10, ThreeRows(a, b, c, x, y), ThreeRows(4, 4, 9, 0, x))
  {
    SwappedThree(a, b, c, x, y);
    SwapRepairs(10, ThreeRows(a, b, c, x, y), 1, 2);
  }

  /** Of these rows one repair keeps the two bytes claimed at byte 5, and the next may drop them. */
  lemma ClaimDropped()
    ensures IsRepair(10, ThreeRows(9, 9, 9, 2, 0), ThreeRows(4, 4, 9, 0, 2))
    ensures IsRepair(10, ThreeRows(4, 4, 9, 0, 2), ThreeRows(4, 4, 9, 0, 0))
  {
    ThreeRepairs(9, 9, 9, 2, 0);
    ThreeRepairs(4, 4, 9, 0, 2);
  }
}
