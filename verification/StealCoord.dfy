/** The coordinator that hands out segments and steals tails, as the object it is (internal/engine/steal.go): the live
    plan and the counters are arrays that donors, streaming without the lock, advance while a thief looks at them. */
module StealCoord {
  import opened Tiling
  import opened Protocol

  /** The two segments a steal reshaped. */
  datatype Stolen = NoSteal | Steal(donor: Segment, tail: Segment)

  /** The activated slots. */
  datatype View = View(starts: seq<int>, ends: seq<int>, counts: seq<int>)

  predicate Wellformed(v: View) { |v.starts| == |v.ends| == |v.counts| }

  function Rest(v: View, i: nat): int
    requires Wellformed(v) && i < |v.starts|
  {
    v.ends[i] - (v.starts[i] + v.counts[i]) + 1
  }

  /** Only counters differ, and none has gone back. */
  ghost predicate Progressed(v: View, u: View) {
    && Wellformed(v) && Wellformed(u) && u.starts == v.starts && u.ends == v.ends
    && forall i | 0 <= i < |v.starts| :: v.counts[i] <= u.counts[i]
  }

  /** Slot d's range has been cut: the donor keeps [start, mid] and slot k, new, has [mid + 1, old End]. What was
      unfetched is halved, with at least the floor on both sides, the donor is still a margin away from the cut, and no
      slot that hardly moved meanwhile has more left. */
  ghost predicate SplitOff(v: View, u: View, donor: Segment, tail: Segment, floor: int, margin: int) {
    && Wellformed(v) && Wellformed(u)
    && var d, k, mid := donor.index, |v.starts|, donor.end;
       var from := donor.start + donor.completed;
    && 0 <= d < k == tail.index && |u.starts| == k + 1
    && donor.start == v.starts[d] && v.counts[d] <= donor.completed <= u.counts[d]
    && tail.start == mid + 1 && tail.end == v.ends[d] && tail.completed == 0
    && u.starts == v.starts + [tail.start] && u.ends == v.ends[d := mid] + [tail.end]
    && u.counts[k] == 0 && (forall i | 0 <= i < k :: v.counts[i] <= u.counts[i])
    && mid - from + 1 <= tail.end - mid <= mid - from + 2
    && floor <= mid - from + 1 && floor <= tail.Size()
    && v.starts[d] + u.counts[d] + margin <= mid
    && (forall i | 0 <= i < k && i != d && u.counts[i] - v.counts[i] < floor - margin ::
          Rest(u, i) <= tail.end - from + 1)
  }

  /** No slot that fetched less than the floor less one buffer during the call is worth splitting. */
  ghost predicate Fruitless(v: View, u: View, floor: int, margin: int) {
    && Progressed(v, u)
    && forall i | 0 <= i < |v.starts| && u.counts[i] - v.counts[i] < floor - margin :: Rest(u, i) < 2 * floor
  }

  /** Every excluded slot has come within a margin of where it was to be cut, and so has fetched that much. */
  ghost predicate AllMoved(v: View, u: View, excluded: seq<nat>, least: int) {
    && Wellformed(v) && Wellformed(u) && |u.starts| == |v.starts|
    && forall i | i in excluded :: i < |v.starts| && least <= u.counts[i] - v.counts[i]
  }

  class Coordinator {
    const starts: array<int>
    const ends: array<int>
    const completed: array<int>
    const n: nat           // initial segments
    const max: nat         // slot ceiling
    const floor: int
    const margin: int
    var cursor: nat
    var active: nat

    ghost predicate Valid()
      reads this
    {
      && starts.Length == ends.Length == completed.Length == max
      && starts != ends && starts != completed && ends != completed
      && cursor <= n <= active <= max && 0 < margin < floor
    }

    function Now(): (v: View)
      requires Valid()
      reads this, starts, ends, completed
      ensures Wellformed(v) && |v.starts| == active
    {
      View(starts[..active], ends[..active], completed[..active])
    }

    /** The live plan and the counters, seeded from the segments and sized to the ceiling once and for all. */
    constructor (segs: seq<Segment>, maxSlots: nat, floor: int, margin: int)
      requires 0 < margin < floor
      ensures Valid() && fresh(starts) && fresh(ends) && fresh(completed)
      ensures cursor == 0 && active == n == |segs| && this.floor == floor && this.margin == margin
      ensures max == if maxSlots < |segs| then |segs| else maxSlots
      ensures Now() == View(Starts(segs), Ends(segs), Counts(segs))
    {
      var size := if maxSlots < |segs| then |segs| else maxSlots;
      starts := new int[size](i requires 0 <= i < size => if i < |segs| then segs[i].start else 0);
      ends := new int[size](i requires 0 <= i < size => if i < |segs| then segs[i].end else 0);
      completed := new int[size](i requires 0 <= i < size => if i < |segs| then segs[i].completed else 0);
      n, max, active, cursor := |segs|, size, |segs|, 0;
      this.floor, this.margin := floor, margin;
    }

    /** What other goroutines may do between two operations of the lock's holder: publish progress. */
    method Interfere()
      requires Valid()
      modifies completed
      ensures Valid() && Progressed(old(Now()), Now())
    {
      var i := 0;
      while i < active
        invariant 0 <= i <= active
        invariant forall j | 0 <= j < active :: old(completed[j]) <= completed[j]
      {
        var fetched: nat :| fetched >= 0;
        completed[i] := completed[i] + fetched;
        i := i + 1;
      }
    }

    /** One pass for the best donor not passed over, while workers go on fetching: what it reports is what it read when
        it came by, and by the end nobody else has more left. */
    method Fattest(excluded: seq<nat>) returns (idx: int, from: int, rem: int)
      requires Valid()
      modifies completed
      ensures Valid() && Progressed(old(Now()), Now())
      ensures idx < 0 ==> idx == -1 && rem == 0
      ensures idx >= 0 ==> idx < active && idx !in excluded && rem == ends[idx] - from + 1 > 0
      ensures idx >= 0 ==> old(completed[idx]) <= from - starts[idx] <= completed[idx]
      ensures forall i | 0 <= i < active && i !in excluded :: Rest(Now(), i) <= rem
    {
      idx, from, rem := -1, 0, 0;
      var i := 0;
      while i < active
        invariant 0 <= i <= active && Valid() && Progressed(old(Now()), Now())
        invariant idx < 0 ==> idx == -1 && rem == 0
        invariant idx >= 0 ==> idx < i && idx !in excluded && rem == ends[idx] - from + 1 > 0
        invariant idx >= 0 ==> old(completed[idx]) <= from - starts[idx] <= completed[idx]
        invariant forall j | 0 <= j < i && j !in excluded :: Rest(Now(), j) <= rem
      {
        ghost var before := Now();
        Interfere();
        ProgressedTwice(old(Now()), before, Now());
        if i !in excluded {
          var f := starts[i] + completed[i];
          var r := ends[i] - f + 1;
          if r > rem {
            idx, from, rem := i, f, r;
          }
        }
        i := i + 1;
      }
    }

    /** The tentative window: the End shrinks, donors run on, and the frontier is re-read. A donor that came too close
        gets its End back. */
    method Shrink(d: nat, mid: int) returns (clear: bool)
      requires Valid() && d < active
      modifies ends, completed
      ensures Valid() && Progressed(old(Now()), Now().(ends := old(Now()).ends))
      ensures Now().ends == if clear then old(Now()).ends[d := mid] else old(Now()).ends
      ensures clear <==> starts[d] + completed[d] + margin <= mid
    {
      var oldEnd := ends[d];
      ends[d] := mid;
      ghost var shrunk := Now();
      assert shrunk.ends == old(Now()).ends[d := mid];
      Interfere();
      var frontier := starts[d] + completed[d];
      if MustUndo(frontier, mid, margin) {
        ends[d] := oldEnd;
        assert Now().ends == old(Now()).ends;
        return false;
      }
      return true;
    }

    /** The next slot, for the range [lo, hi]. */
    method Activate(lo: int, hi: int) returns (k: nat)
      requires Valid() && active < max
      modifies this`active, starts, ends, completed
      ensures Valid() && k == old(active) && active == k + 1
      ensures var v := old(Now()); Now() == View(v.starts + [lo], v.ends + [hi], v.counts + [0])
    {
      k := active;
      starts[k] := lo;
      ends[k] := hi;
      completed[k] := 0;
      active := active + 1;
    }

    /** One donor: shrink, re-check, and commit unless it came too close. */
    method Attempt(d: nat, from: int, rem: int, ghost was: View, ghost before: View, ghost excluded: seq<nat>)
      returns (clear: bool, k: nat, res: Stolen)
      requires Valid() && active < max && d < active
      requires Progressed(was, before) && Progressed(before, Now()) && AllMoved(was, Now(), excluded, floor - margin)
      requires before.counts[d] <= from - starts[d] <= completed[d] && rem == ends[d] - from + 1 >= 2 * floor
      requires forall i | 0 <= i < active && i !in excluded :: Rest(Now(), i) <= rem
      modifies this`active, starts, ends, completed
      ensures Valid()
      ensures clear ==> k == old(active) && active == k + 1 && res.Steal?
      ensures clear ==> SplitOff(was, Now(), res.donor, res.tail, floor, margin)
      ensures !clear ==> res.NoSteal? && active == old(active) && Progressed(was, Now())
      ensures !clear ==> AllMoved(was, Now(), excluded + [d], floor - margin)
    {
      var oldEnd := ends[d];
      var donorStart := starts[d];
      var mid := SplitPoint(from, rem);
      ghost var chosen := Now();
      ProgressedTwice(was, before, chosen);
      clear := Shrink(d, mid);
      ghost var kept := Now();
      if clear {
        k := Activate(mid + 1, oldEnd);
        return true, k, Steal(Segment(d, donorStart, mid, from - donorStart), Segment(k, mid + 1, oldEnd, 0));
      }
      StillMoved(was, chosen, kept, excluded, floor - margin);
      return false, 0, NoSteal;
    }

    /** Splits a fattest donor, or finds that there is none. A donor whose End had to be given back is passed over. */
    method TrySteal() returns (idx: nat, res: Stolen, ok: bool)
      requires Valid()
      modifies this`active, starts, ends, completed
      ensures Valid() && cursor == old(cursor)
      ensures ok ==> idx == old(active) < max && active == old(active) + 1 && res.Steal?
      ensures ok ==> SplitOff(old(Now()), Now(), res.donor, res.tail, floor, margin)
      ensures !ok ==> res.NoSteal? && active == old(active)
      ensures !ok ==> (active == max && Now() == old(Now())) || Fruitless(old(Now()), Now(), floor, margin)
    {
      ghost var was := Now();
      var excluded: seq<nat> := [];
      ghost var left := set i | 0 <= i < active && i !in excluded;
      while active < max
        invariant Valid() && active == old(active) && cursor == old(cursor)
        invariant Progressed(was, Now())
        invariant active == max ==> Now() == was
        invariant left == set i | 0 <= i < active && i !in excluded
        invariant AllMoved(was, Now(), excluded, floor - margin)
        decreases left
      {
        ghost var before := Now();
        var donorIdx, donorFrom, rem := Fattest(excluded);
        StillMoved(was, before, Now(), excluded, floor - margin);
        if donorIdx < 0 || rem < 2 * floor {
          return 0, NoSteal, false;
        }
        var clear;
        clear, idx, res := Attempt(donorIdx, donorFrom, rem, was, before, excluded);
        if clear {
          return idx, res, true;
        }
        excluded := excluded + [donorIdx];
        left := left - {donorIdx};
      }
      return 0, NoSteal, false;
    }

    /** Initial slots in order first, then steals. */
    method Next() returns (idx: nat, res: Stolen, ok: bool)
      requires Valid()
      modifies this`cursor, this`active, starts, ends, completed
      ensures Valid()
      ensures old(cursor) < n ==>
        ok && idx == old(cursor) && cursor == old(cursor) + 1 && res.NoSteal? && Now() == old(Now())
      ensures old(cursor) >= n ==> cursor == old(cursor)
      ensures old(cursor) >= n && ok ==> idx == old(active) < max && res.Steal?
      ensures old(cursor) >= n && ok ==> SplitOff(old(Now()), Now(), res.donor, res.tail, floor, margin)
      ensures old(cursor) >= n && !ok ==>
        res.NoSteal? && ((old(active) == max && Now() == old(Now())) || Fruitless(old(Now()), Now(), floor, margin))
    {
      if cursor < n {
        idx := cursor;
        cursor := cursor + 1;
        return idx, NoSteal, true;
      }
      idx, res, ok := TrySteal();
    }

    method ActiveSegments() returns (segs: array<Segment>)
      requires Valid()
      ensures fresh(segs) && segs.Length == active
      ensures Starts(segs[..]) == Now().starts && Ends(segs[..]) == Now().ends && Counts(segs[..]) == Now().counts
      ensures forall i | 0 <= i < active :: segs[i].index == i
    {
      segs := new Segment[active](_ => Segment(0, 0, -1, 0));
      for i := 0 to active
        invariant forall j | 0 <= j < i :: segs[j] == Segment(j, starts[j], ends[j], completed[j])
      {
        segs[i] := Segment(i, starts[i], ends[i], completed[i]);
      }
    }
  }

  lemma ProgressedTwice(v: View, u: View, t: View)
    requires Progressed(v, u) && Progressed(u, t)
    ensures Progressed(v, t)
  {
  }

  lemma StillMoved(v: View, u: View, t: View, excluded: seq<nat>, least: int)
    requires AllMoved(v, u, excluded, least) && Progressed(v, u) && Progressed(u, t)
    ensures AllMoved(v, t, excluded, least) && Progressed(v, t)
  {
  }

  /** A steal keeps the tiling, whatever the counters did, and moves unfetched bytes without losing any: what the donor
      and the tail have left is what the donor would have had left. */
  lemma SplitKeepsTiling(cover: int, v: View, u: View, donor: Segment, tail: Segment, floor: int, margin: int)
    requires 0 < margin < floor && SplitOff(v, u, donor, tail, floor, margin)
    requires Tiled(cover, v.starts, v.ends) && 0 <= v.counts[donor.index]
    ensures Tiled(cover, u.starts, u.ends)
    ensures Rest(u, donor.index) + Rest(u, tail.index)
         == v.ends[donor.index] - (v.starts[donor.index] + u.counts[donor.index]) + 1
    ensures Rest(u, donor.index) >= margin
  {
    SplitTiled(cover, v.starts, v.ends, donor.index, donor.end);
  }
}
