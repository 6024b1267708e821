/** What layout repair and the completeness gate achieve. */
module LayoutFacts {
  import opened Tiling
  import opened Layout

  predicate StartsInside(total: int, segs: seq<Segment>) {
    forall i | 0 <= i < |segs| :: 0 <= segs[i].start < total
  }

  predicate SomeStartsAtZero(segs: seq<Segment>) {
    exists i | 0 <= i < |segs| :: segs[i].start == 0
  }

  // ----- permutations

  lemma SameElements(a: seq<Segment>, b: seq<Segment>)
    requires multiset(a) == multiset(b)
    ensures |a| == |b|
    ensures forall i | 0 <= i < |a| :: a[i] in b
    ensures forall i | 0 <= i < |b| :: b[i] in a
  {
    assert |multiset(a)| == |multiset(b)|;
    forall i | 0 <= i < |a| ensures a[i] in b { assert a[i] in multiset(a); }
    forall i | 0 <= i < |b| ensures b[i] in a { assert b[i] in multiset(b); }
  }

  function Swap(s: seq<Segment>, i: nat, j: nat): seq<Segment>
    requires i < |s| && j < |s|
  {
    s[i := s[j]][j := s[i]]
  }

  lemma {:induction false} SwapKeepsContents(s: seq<Segment>, i: nat, j: nat)
    requires i < j < |s|
    ensures multiset(Swap(s, i, j)) == multiset(s)
  {
  }

  /** Rows with equal starts may trade places in a sort. */
  lemma SwapStaysSorted(s: seq<Segment>, i: nat, j: nat)
    requires SortedByStart(s) && i < j < |s| && s[i].start == s[j].start
    ensures SortOf(Swap(s, i, j), s)
  {
    SwapKeepsContents(s, i, j);
    var t := Swap(s, i, j);
    forall k | 0 <= k < |t| ensures t[k].start == s[k].start {
    }
  }

  /** Sorting by start fixes the sequence of starts, even where equal starts may come in any order. */
  lemma SortedStartsAgree(a: seq<Segment>, b: seq<Segment>)
    requires SortedByStart(a) && SortedByStart(b) && multiset(a) == multiset(b)
    ensures Starts(a) == Starts(b)
  {
    SameElements(a, b);
    StartsMultiset(a, b);
    SortedUnique(Starts(a), Starts(b));
  }

  function Without<T>(s: seq<T>, i: nat): seq<T>
    requires i < |s|
  {
    s[..i] + s[i + 1..]
  }

  lemma MultisetWithout<T>(s: seq<T>, i: nat)
    requires i < |s|
    ensures multiset(s) == multiset(Without(s, i)) + multiset{s[i]}
  {
    assert s == s[..i] + [s[i]] + s[i + 1..];
  }

  lemma RemoveMatching<T>(a: seq<T>, b: seq<T>, i: nat, k: nat)
    requires multiset(a) == multiset(b) && i < |a| && k < |b| && a[i] == b[k]
    ensures multiset(Without(a, i)) == multiset(Without(b, k))
  {
    MultisetWithout(a, i);
    MultisetWithout(b, k);
    assert multiset(Without(a, i)) == multiset(a) - multiset{a[i]};
    assert multiset(Without(b, k)) == multiset(b) - multiset{b[k]};
  }

  lemma {:induction false} StartsMultiset(a: seq<Segment>, b: seq<Segment>)
    requires multiset(a) == multiset(b)
    ensures multiset(Starts(a)) == multiset(Starts(b))
    decreases |a|
  {
    SameElements(a, b);
    if |a| == 0 {
    } else {
      assert a[0] in b;
      var k :| 0 <= k < |b| && b[k] == a[0];
      RemoveMatching(a, b, 0, k);
      StartsMultiset(Without(a, 0), Without(b, k));
      assert Starts(Without(a, 0)) == Without(Starts(a), 0);
      assert Starts(Without(b, k)) == Without(Starts(b), k);
      MultisetWithout(Starts(a), 0);
      MultisetWithout(Starts(b), k);
    }
  }

  lemma SortedSameLast(a: seq<int>, b: seq<int>)
    requires multiset(a) == multiset(b) && |a| == |b| > 0
    requires forall i, j | 0 <= i < j < |a| :: a[i] <= a[j]
    requires forall i, j | 0 <= i < j < |b| :: b[i] <= b[j]
    ensures a[|a| - 1] == b[|b| - 1]
  {
    var last := |a| - 1;
    assert a[last] in multiset(a) && b[last] in multiset(b);
    var i :| 0 <= i < |b| && b[i] == a[last];
    var j :| 0 <= j < |a| && a[j] == b[last];
  }

  lemma {:induction false} SortedUnique(a: seq<int>, b: seq<int>)
    requires multiset(a) == multiset(b) && |a| == |b|
    requires forall i, j | 0 <= i < j < |a| :: a[i] <= a[j]
    requires forall i, j | 0 <= i < j < |b| :: b[i] <= b[j]
    ensures a == b
    decreases |a|
  {
    if |a| == 0 {
    } else {
      var last := |a| - 1;
      SortedSameLast(a, b);
      RemoveMatching(a, b, last, last);
      assert Without(a, last) == a[..last] && Without(b, last) == b[..last];
      SortedUnique(a[..last], b[..last]);
      assert a == a[..last] + [a[last]];
      assert b == b[..last] + [b[last]];
    }
  }

  // ----- repairLayout

  lemma SortFacts(total: int, before: seq<Segment>, sorted: seq<Segment>)
    requires SortOf(sorted, before) && StartsInside(total, before) && before != []
    ensures |sorted| == |before| && StartsInside(total, sorted)
    ensures SomeStartsAtZero(before) <==> sorted[0].start == 0
  {
    SameElements(sorted, before);
    forall i | 0 <= i < |sorted| ensures 0 <= sorted[i].start < total {
      assert sorted[i] in before;
    }
    assert sorted[0] in before;
    if z :| 0 <= z < |before| && before[z].start == 0 {
      assert before[z] in sorted;
    }
  }

  lemma RetiledCovers(total: int, sorted: seq<Segment>)
    requires SortedByStart(sorted) && StartsInside(total, sorted) && sorted != []
    ensures var r := Retiled(total, sorted);
      && (Tiled(total, Starts(r), Ends(r)) <==> sorted[0].start == 0)
      && (sorted[0].start == 0 ==> Contiguous(total, Starts(r), Ends(r)))
  {
    var r := Retiled(total, sorted);
    if sorted[0].start == 0 {
      ContiguousTiled(total, Starts(r), Ends(r));
    } else {
      assert !Covered(Starts(r), Ends(r), 0);
    }
  }

  /** Whatever torn set of two or more closed rows a crash left, repair lays them end to end; the result covers
      the whole file exactly when some row starts at byte 0. */
  lemma RepairTiles(total: int, before: seq<Segment>, after: seq<Segment>)
    requires Repairable(total, before) && StartsInside(total, before) && IsRepair(total, before, after)
    ensures |after| == |before| && forall i | 0 <= i < |after| :: after[i].index == i
    ensures Tiled(total, Starts(after), Ends(after)) <==> SomeStartsAtZero(before)
    ensures SomeStartsAtZero(before) ==> Contiguous(total, Starts(after), Ends(after))
  {
    var sorted: seq<Segment> :| SortOf(sorted, before) && after == Retiled(total, sorted);
    SortFacts(total, before, sorted);
    RetiledCovers(total, sorted);
  }

  /** Repair claims no byte that some row did not already claim, and every counter fits its row. */
  lemma RepairClaims(total: int, before: seq<Segment>, after: seq<Segment>, i: nat) returns (j: nat)
    requires Repairable(total, before) && StartsInside(total, before) && IsRepair(total, before, after)
    requires i < |after|
    ensures 0 <= after[i].completed <= after[i].Size()
    ensures j < |before| && after[i].start == before[j].start
    ensures after[i].completed == 0 || after[i].completed <= before[j].completed
  {
    var sorted: seq<Segment> :| SortOf(sorted, before) && after == Retiled(total, sorted);
    SameElements(sorted, before);
    assert sorted[i] in before;
    j :| 0 <= j < |before| && before[j] == sorted[i];
  }

  /** Two repaired rows share a start only when all but the last of them are empty; a counter there can be lost. */
  predicate NoClaimAtSharedStart(segs: seq<Segment>) {
    forall i, j | 0 <= i < j < |segs| && segs[i].start == segs[j].start :: segs[j].completed == 0
  }

  /** And what a row claims is kept: one that alone has its start comes out with as many of its bytes as the range it
      is given holds. */
  lemma RepairKeeps(total: int, before: seq<Segment>, after: seq<Segment>, j: nat) returns (p: nat)
    requires Repairable(total, before) && StartsInside(total, before) && IsRepair(total, before, after) && j < |before|
    requires forall i | 0 <= i < |before| && i != j :: before[i].start != before[j].start
    ensures p < |after| && after[p].start == before[j].start && after[p].end >= after[p].start
    ensures var size := after[p].end - after[p].start + 1;
      after[p].completed ==
        if before[j].completed < 0 then 0 else if before[j].completed < size then before[j].completed else size
  {
    var sorted: seq<Segment> :| SortOf(sorted, before) && after == Retiled(total, sorted);
    SameElements(sorted, before);
    assert before[j] in sorted;
    p :| 0 <= p < |sorted| && sorted[p] == before[j];
    if p + 1 < |sorted| {
      var k := OtherPosition(before, sorted, p, p + 1, j);
      assert sorted[p].start <= sorted[p + 1].start;
    }
  }

  /** Rows of an unknown size, a lone row, and rows of which one is open-ended are left alone. */
  lemma LeftAlone(total: int, before: seq<Segment>, after: seq<Segment>)
    requires IsRepair(total, before, after)
    requires total <= 0 || |before| < 2 || exists i :: 0 <= i < |before| && before[i].end < 0
    ensures after == before
  {
  }

  // ----- reconcileProgress

  /** Nothing the part file backs is given up, and nothing beyond it is kept: with onDisk bytes in the file, a row that
      lies within them keeps its counter, one that reaches past them keeps exactly the bytes up to there, and one that
      starts past them keeps none. Ranges stay as repair left them. */
  lemma ReconcileKeepsBacked(total: int, before: seq<Segment>, onDisk: nat, after: seq<Segment>)
    returns (repaired: seq<Segment>)
    requires IsReconciled(total, before, onDisk, after)
    ensures IsRepair(total, before, repaired) && |after| == |repaired|
    ensures forall i | 0 <= i < |after| ::
      && after[i].start == repaired[i].start && after[i].end == repaired[i].end && after[i].index == repaired[i].index
    ensures forall i | 0 <= i < |after| && repaired[i].end < 0 :: after[i].completed == 0
    ensures forall i | 0 <= i < |after| && repaired[i].end >= 0 && repaired[i].completed >= 0 ::
      if repaired[i].start + repaired[i].completed <= onDisk then after[i].completed == repaired[i].completed
      else if repaired[i].start < onDisk then after[i].start + after[i].completed == onDisk
      else after[i].completed == 0
  {
    repaired :| IsRepair(total, before, repaired) && after == Capped(repaired, onDisk);
  }

  lemma RetiledStarts(total: int, sorted: seq<Segment>)
    requires SortedByStart(sorted)
    ensures SortedByStart(Retiled(total, sorted)) && Starts(Retiled(total, sorted)) == Starts(sorted)
  {
  }

  /** Sorting a repaired layout once more never moves a boundary. */
  lemma ResortedStarts(total: int, sorted: seq<Segment>, again: seq<Segment>)
    requires SortedByStart(sorted) && SortOf(again, Retiled(total, sorted))
    ensures |again| == |sorted| && forall i | 0 <= i < |again| :: again[i].start == sorted[i].start
  {
    SameElements(again, Retiled(total, sorted));
    RetiledStarts(total, sorted);
    SortedStartsAgree(again, Retiled(total, sorted));
    forall i | 0 <= i < |again| ensures again[i].start == sorted[i].start {
      assert Starts(again)[i] == Starts(sorted)[i];
    }
  }

  /** Repair is idempotent, whatever order the unstable sort picks, exactly when no two rows share a start with
      bytes claimed there. */
  lemma RepairIdempotent(total: int, before: seq<Segment>, once: seq<Segment>)
    requires Repairable(total, before) && StartsInside(total, before) && IsRepair(total, before, once)
    requires Repairable(total, once)
    ensures (forall twice | IsRepair(total, once, twice) :: twice == once) <==> NoClaimAtSharedStart(once)
  {
    if NoClaimAtSharedStart(once) {
      forall twice | IsRepair(total, once, twice) ensures twice == once {
        RepairStable(total, before, once, twice);
      }
    } else {
      var i, j :| 0 <= i < j < |once| && once[i].start == once[j].start && once[j].completed != 0;
      var twice := ClaimLost(total, before, once, i, j);
    }
  }

  lemma RepairStable(total: int, before: seq<Segment>, once: seq<Segment>, twice: seq<Segment>)
    requires Repairable(total, before) && StartsInside(total, before)
    requires IsRepair(total, before, once) && Repairable(total, once) && IsRepair(total, once, twice)
    requires NoClaimAtSharedStart(once)
    ensures twice == once
  {
    var sorted: seq<Segment> :| SortOf(sorted, before) && once == Retiled(total, sorted);
    var again: seq<Segment> :| SortOf(again, once) && twice == Retiled(total, again);
    SortFacts(total, before, sorted);
    SameElements(again, once);
    forall i | 0 <= i < |once| ensures twice[i] == once[i] {
      RowStable(total, sorted, again, i);
    }
  }

  lemma RowStable(total: int, sorted: seq<Segment>, again: seq<Segment>, i: nat)
    requires SortedByStart(sorted) && StartsInside(total, sorted) && SortOf(again, Retiled(total, sorted))
    requires NoClaimAtSharedStart(Retiled(total, sorted))
    requires i < |sorted| == |again|
    ensures Retiled(total, again)[i] == Retiled(total, sorted)[i]
  {
    var once := Retiled(total, sorted);
    ResortedStarts(total, sorted, again);
    SameElements(again, once);
    assert again[i] in once;
    var k :| 0 <= k < |once| && once[k] == again[i];
    SharedCounters(total, sorted, i, k);
    assert RetiledAt(total, again, i).end == RetiledAt(total, sorted, i).end;
  }

  lemma SharedCounters(total: int, sorted: seq<Segment>, i: nat, k: nat)
    requires SortedByStart(sorted) && StartsInside(total, sorted)
    requires NoClaimAtSharedStart(Retiled(total, sorted))
    requires i < |sorted| && k < |sorted| && sorted[i].start == sorted[k].start
    ensures Retiled(total, sorted)[k].completed == Retiled(total, sorted)[i].completed
    ensures 0 <= Retiled(total, sorted)[i].completed <= Retiled(total, sorted)[i].Size()
  {
  }

  /** Of two rows with the same start, the earlier one in sort order comes out empty. */
  lemma EmptyBeforeShared(total: int, sorted: seq<Segment>, i: nat, j: nat)
    requires SortedByStart(sorted) && i < j < |sorted| && sorted[i].start == sorted[j].start
    ensures Retiled(total, sorted)[i].completed == 0
  {
  }

  /** Swapping two rows that share a start is a legal sort, and loses the bytes the later one claimed. */
  lemma ClaimLost(total: int, before: seq<Segment>, once: seq<Segment>, i: nat, j: nat) returns (twice: seq<Segment>)
    requires Repairable(total, before) && StartsInside(total, before) && IsRepair(total, before, once)
    requires Repairable(total, once)
    requires i < j < |once| && once[i].start == once[j].start && once[j].completed != 0
    ensures IsRepair(total, once, twice) && twice != once
  {
    var sorted: seq<Segment> :| SortOf(sorted, before) && once == Retiled(total, sorted);
    EmptyBeforeShared(total, sorted, i, j);
    RetiledStarts(total, sorted);
    SwapStaysSorted(once, i, j);
    twice := Retiled(total, Swap(once, i, j));
    SwappedLoses(total, once, i, j);
  }

  lemma SwappedLoses(total: int, once: seq<Segment>, i: nat, j: nat)
    requires i < j < |once| && once[i].completed == 0 && once[j].completed != 0
    ensures Retiled(total, Swap(once, i, j)) != once
  {
    assert Swap(once, i, j)[j].completed == 0;
    assert Retiled(total, Swap(once, i, j))[j].completed == 0;
  }

  /** A layout that already tiles the file, its rows stored in any order, comes through repair unchanged but for
      the row numbers: every row keeps its range and its counter. */
  lemma RepairPreservesTiling(total: int, before: seq<Segment>, after: seq<Segment>, i: nat)
    requires Repairable(total, before) && Tiled(total, Starts(before), Ends(before))
    requires forall k | 0 <= k < |before| :: before[k].Size() >= 1 && 0 <= before[k].completed <= before[k].Size()
    requires IsRepair(total, before, after) && i < |after|
    ensures exists k | 0 <= k < |before| :: after[i] == before[k].(index := i)
  {
    var sorted: seq<Segment> :| SortOf(sorted, before) && after == Retiled(total, sorted);
    RowEnds(total, before, sorted, i);
    SameElements(sorted, before);
    assert sorted[i] in before;
    var k :| 0 <= k < |before| && before[k] == sorted[i];
    assert RetiledAt(total, sorted, i) == sorted[i].(index := i);
    assert after[i] == before[k].(index := i);
  }

  /** A row of a tiling ends where repair makes it end. */
  lemma RowEnds(total: int, before: seq<Segment>, sorted: seq<Segment>, i: nat)
    requires Tiled(total, Starts(before), Ends(before)) && SortOf(sorted, before) && i < |sorted|
    requires forall k | 0 <= k < |before| :: before[k].Size() >= 1
    ensures RetiledAt(total, sorted, i).end == sorted[i].end
  {
    SortedInside(total, before, sorted, i);
    if i + 1 < |sorted| {
      NextBegins(total, before, sorted, i);
    } else {
      SortedSize(before, sorted, i);
      var p := SortedHolder(total, before, sorted, total - 1);
      SortedApart(total, before, sorted, p, i);
    }
  }

  /** In sort order the non-empty ranges of a tiling do not overlap. */
  lemma SortedApart(total: int, before: seq<Segment>, sorted: seq<Segment>, p: nat, q: nat)
    requires Tiled(total, Starts(before), Ends(before)) && SortOf(sorted, before)
    requires forall k | 0 <= k < |before| :: before[k].Size() >= 1
    requires p < |sorted| && q < |sorted|
    ensures p < q ==> sorted[p].end < sorted[q].start
  {
    if p < q {
      SameElements(sorted, before);
      assert sorted[p] in before && sorted[q] in before;
      var i :| 0 <= i < |before| && before[i] == sorted[p];
      var j := OtherPosition(before, sorted, p, q, i);
      if sorted[p].end >= sorted[q].start {
        assert Has(Starts(before), Ends(before), i, before[j].start);
        assert Has(Starts(before), Ends(before), j, before[j].start);
        assert false;
      }
    }
  }

  /** Two positions of a permutation come from two positions of the original. */
  lemma OtherPosition(before: seq<Segment>, sorted: seq<Segment>, p: nat, q: nat, i: nat) returns (j: nat)
    requires multiset(sorted) == multiset(before) && p < q < |sorted|
    requires i < |before| && before[i] == sorted[p]
    ensures j < |before| && j != i && before[j] == sorted[q]
  {
    RemoveMatching(sorted, before, p, i);
    assert Without(sorted, p)[q - 1] == sorted[q];
    assert sorted[q] in multiset(Without(before, i));
    var k :| 0 <= k < |before| - 1 && Without(before, i)[k] == sorted[q];
    j := if k < i then k else k + 1;
  }

  /** Sorting a tiling loses no row and covers every byte. */
  lemma SortedHolder(total: int, before: seq<Segment>, sorted: seq<Segment>, b: int) returns (p: nat)
    requires Tiled(total, Starts(before), Ends(before)) && SortOf(sorted, before) && 0 <= b < total
    ensures p < |sorted| && sorted[p].start <= b <= sorted[p].end
  {
    SameElements(sorted, before);
    assert Covered(Starts(before), Ends(before), b);
    var q :| 0 <= q < |before| && Has(Starts(before), Ends(before), q, b);
    assert before[q] in sorted;
    p :| 0 <= p < |sorted| && sorted[p] == before[q];
  }

  lemma SortedInside(total: int, before: seq<Segment>, sorted: seq<Segment>, p: nat)
    requires Tiled(total, Starts(before), Ends(before)) && SortOf(sorted, before) && p < |sorted|
    ensures 0 <= sorted[p].start && sorted[p].end < total
  {
    SameElements(sorted, before);
    assert sorted[p] in before;
    var k :| 0 <= k < |before| && before[k] == sorted[p];
    assert 0 <= Starts(before)[k] <= Ends(before)[k] + 1 <= total;
  }

  lemma NextBegins(total: int, before: seq<Segment>, sorted: seq<Segment>, i: nat)
    requires Tiled(total, Starts(before), Ends(before)) && SortOf(sorted, before)
    requires forall k | 0 <= k < |before| :: before[k].Size() >= 1
    requires i + 1 < |sorted|
    ensures sorted[i + 1].start == sorted[i].end + 1
  {
    SortedApart(total, before, sorted, i, i + 1);
    SortedInside(total, before, sorted, i);
    SortedInside(total, before, sorted, i + 1);
    SortedSize(before, sorted, i);
    SortedSize(before, sorted, i + 1);
    var p := SortedHolder(total, before, sorted, sorted[i].end + 1);
    SortedApart(total, before, sorted, p, i);
    SortedApart(total, before, sorted, i + 1, p);
  }

  lemma SortedSize(before: seq<Segment>, sorted: seq<Segment>, p: nat)
    requires SortOf(sorted, before) && p < |sorted|
    requires forall k | 0 <= k < |before| :: before[k].Size() >= 1
    ensures sorted[p].Size() >= 1
  {
    SameElements(sorted, before);
    assert sorted[p] in before;
  }

  /** Rows in file order that already tile the file come through repair exactly as they are. */
  lemma RepairIdentity(total: int, before: seq<Segment>, after: seq<Segment>)
    requires Contiguous(total, Starts(before), Ends(before)) && IsRepair(total, before, after)
    requires forall k | 0 <= k < |before| ::
      before[k].index == k && before[k].Size() >= 1 && 0 <= before[k].completed <= before[k].Size()
    ensures after == before
  {
    if Repairable(total, before) {
      var sorted: seq<Segment> :| SortOf(sorted, before) && after == Retiled(total, sorted);
      FileOrder(total, before);
      SortIdentity(before, sorted);
      forall i | 0 <= i < |before| ensures RetiledAt(total, before, i) == before[i] {
        assert i + 1 < |before| ==> Ends(before)[i] == Starts(before)[i + 1] - 1;
      }
    }
  }

  lemma SortIdentity(before: seq<Segment>, sorted: seq<Segment>)
    requires SortOf(sorted, before)
    requires forall i, j | 0 <= i < j < |before| :: before[i].start < before[j].start
    ensures sorted == before
  {
    SameElements(sorted, before);
    SortedStartsAgree(sorted, before);
    forall i | 0 <= i < |before| ensures sorted[i] == before[i] {
      assert Starts(sorted)[i] == Starts(before)[i];
      SameStartSameRow(before, sorted[i], i);
    }
  }

  lemma SameStartSameRow(before: seq<Segment>, x: Segment, i: nat)
    requires x in before && i < |before| && x.start == before[i].start
    requires forall i, j | 0 <= i < j < |before| :: before[i].start < before[j].start
    ensures x == before[i]
  {
  }

  lemma FileOrder(total: int, segs: seq<Segment>)
    requires Contiguous(total, Starts(segs), Ends(segs))
    requires forall k | 0 <= k < |segs| :: segs[k].Size() >= 1
    ensures forall i, j | 0 <= i < j < |segs| :: segs[i].start < segs[j].start
  {
    forall i, j | 0 <= i < j < |segs| ensures segs[i].start < segs[j].start {
      ContiguousOrder(total, Starts(segs), Ends(segs), i, j);
      assert segs[i].Size() >= 1;
    }
  }

  // ----- the completeness gate

  /** On ranges that tile a file of known size the gate opens exactly when every counter equals its range's size:
      an over-full counter cannot hide a missing byte elsewhere. */
  lemma GateExact(total: int, segs: seq<Segment>, done: seq<int>)
    requires total > 0 && Tiled(total, Starts(segs), Ends(segs)) && |done| == |segs|
    requires forall i | 0 <= i < |done| :: done[i] >= 0
    ensures GateOpen(total, segs, done) <==> forall i | 0 <= i < |segs| :: done[i] == segs[i].Size()
  {
    if GateOpen(total, segs, done) {
      forall i | 0 <= i < |segs| ensures done[i] >= Ends(segs)[i] - Starts(segs)[i] + 1 {
        assert 0 <= Starts(segs)[i];
      }
      SumAtLeast(Starts(segs), Ends(segs), done);
      forall i | 0 <= i < |segs| ensures done[i] == segs[i].Size() {
        assert done[i] == Ends(segs)[i] - Starts(segs)[i] + 1;
      }
    }
    if forall i | 0 <= i < |segs| :: done[i] == segs[i].Size() {
      SumAtLeast(Starts(segs), Ends(segs), done);
    }
  }

  /** Repair skips a lone row, so a row torn short of the file stays short: no counters that respect it open the
      gate. */
  lemma LoneTornRowIsRefused(total: int, row: Segment, after: seq<Segment>, done: seq<int>)
    requires total > 0 && row.start == 0 && 0 <= row.end < total
    requires IsRepair(total, [row], after) && |done| == 1 && 0 <= done[0] <= row.Size()
    ensures GateOpen(total, after, done) <==> row.end == total - 1 && done[0] == row.Size()
    ensures Tiled(total, Starts(after), Ends(after)) <==> row.end == total - 1
  {
    assert after == [row];
    assert done[..0] == [];
    assert Sum(done) == Sum(done[..0]) + done[0] == done[0];
    if row.end == total - 1 {
      ContiguousTiled(total, Starts(after), Ends(after));
    } else {
      assert !Covered(Starts(after), Ends(after), total - 1);
    }
  }
}
