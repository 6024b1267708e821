/** The objects progress is persisted through: the live counters, the segment rows of the store, and the run-level
    checkpointer (internal/engine/progress.go, internal/store/sqlite/segments.go, internal/engine/checkpoint.go). */
module Checkpoint {
  import opened Tiling
  import opened CrashResume
  import P = ProtocolInv
  import W = Protocol

  // ----- the store's segment rows

  /** One single-row write that was asked for, and whether the database took it. */
  datatype Offer = Offer(k: nat, r: Record, taken: bool)

  class Store {
    var rows: Rows
    ghost var refusals: nat        // statements the database has refused
    ghost var offers: seq<Offer>

    /** One statement, which the database executes or refuses. */
    method Exec() returns (ok: bool)
      modifies this`refusals
      ensures refusals == if ok then old(refusals) else old(refusals) + 1
    {
      ok := *;
      refusals := if ok then refusals else refusals + 1;
    }

    /** Upserts one row, unless the database refuses. */
    method UpdateSegment(k: nat, r: Record) returns (stored: bool)
      modifies this
      ensures stored <==> refusals == old(refusals)
      ensures offers == old(offers) + [Offer(k, r, stored)]
      ensures rows == if stored then old(rows)[k := r] else old(rows)
    {
      stored := Exec();
      if stored {
        rows := rows[k := r];
      }
      offers := offers + [Offer(k, r, stored)];
    }

    /** Swaps the whole segment set in one transaction: delete every row, then insert one by one; a statement that is
        refused rolls all of it back. Rows the new set does not have do not linger. */
    method ReplaceSegments(segs: seq<Segment>) returns (stored: bool)
      requires forall i | 0 <= i < |segs| :: segs[i].index == i
      modifies this`rows, this`refusals
      ensures stored <==> refusals == old(refusals)
      ensures rows == if stored then RowsOf(segs) else old(rows)
    {
      var deleted := Exec();
      if !deleted {
        return false;
      }
      var tx: Rows := map[];
      for i := 0 to |segs|
        invariant rows == old(rows) && tx == RowsOf(segs[..i]) && refusals == old(refusals)
      {
        var inserted := Exec();
        if !inserted {
          return false;
        }
        assert segs[..i + 1][..i] == segs[..i];
        tx := tx[segs[i].index := Record(segs[i].start, segs[i].end, segs[i].completed)];
      }
      assert segs[..|segs|] == segs;
      rows := tx;
      return true;
    }
  }

  // Loading lists the rows by index, so the rows determine what is loaded.

  predicate Increasing(xs: seq<int>) { forall i, j | 0 <= i < j < |xs| :: xs[i] < xs[j] }

  lemma LastAgrees(xs: seq<int>, ys: seq<int>)
    requires Increasing(xs) && Increasing(ys) && xs != [] && ys != []
    requires (forall x | x in xs :: x in ys) && (forall y | y in ys :: y in xs)
    ensures xs[|xs| - 1] == ys[|ys| - 1]
  {
    assert xs[|xs| - 1] in xs && ys[|ys| - 1] in ys;
    assert xs[|xs| - 1] in ys && ys[|ys| - 1] in xs;
  }

  lemma {:induction false} IncreasingAgree(xs: seq<int>, ys: seq<int>)
    requires Increasing(xs) && Increasing(ys)
    requires (forall x | x in xs :: x in ys) && (forall y | y in ys :: y in xs)
    ensures xs == ys
    decreases |xs|
  {
    if ys != [] { assert ys[0] in ys && ys[0] in xs; }
    if xs == [] {
    } else {
      assert xs[0] in xs && xs[0] in ys;
      LastAgrees(xs, ys);
      var m, n := |xs| - 1, |ys| - 1;
      forall x | x in xs[..m] ensures x in ys[..n] {
        assert x in xs && x != xs[m];
      }
      forall y | y in ys[..n] ensures y in xs[..m] {
        assert y in ys && y != ys[n];
      }
      IncreasingAgree(xs[..m], ys[..n]);
      assert xs == xs[..m] + [xs[m]] && ys == ys[..n] + [ys[n]];
    }
  }

  function Indexes(segs: seq<Segment>): (r: seq<int>)
    ensures |r| == |segs| && forall i | 0 <= i < |segs| :: r[i] == segs[i].index
  {
    seq(|segs|, i requires 0 <= i < |segs| => segs[i].index)
  }

  lemma IndexesOfRows(rows: Rows, a: seq<Segment>, x: int)
    requires Lists(rows, a)
    ensures x in Indexes(a) <==> x >= 0 && x in rows
  {
    if x in Indexes(a) {
      var j :| 0 <= j < |a| && Indexes(a)[j] == x;
      assert a[j].index in rows;
    }
    if x >= 0 && x in rows {
      var j :| 0 <= j < |a| && a[j].index == x;
      assert Indexes(a)[j] == x;
    }
  }

  lemma LoadsOneThing(rows: Rows, a: seq<Segment>, b: seq<Segment>)
    requires Lists(rows, a) && Lists(rows, b)
    ensures a == b
  {
    forall x ensures x in Indexes(a) <==> x in Indexes(b) {
      IndexesOfRows(rows, a, x);
      IndexesOfRows(rows, b, x);
    }
    IncreasingAgree(Indexes(a), Indexes(b));
    forall i | 0 <= i < |a| ensures a[i] == b[i] {
      assert Indexes(a)[i] == Indexes(b)[i];
    }
  }

  /** Saving a densely numbered segment slice and loading it back is the identity. */
  lemma SaveThenLoad(segs: seq<Segment>, loaded: seq<Segment>)
    requires forall i | 0 <= i < |segs| :: segs[i].index == i
    requires Lists(RowsOf(segs), loaded)
    ensures loaded == segs
  {
    RowsAreListed(segs);
    LoadsOneThing(RowsOf(segs), loaded, segs);
  }

  lemma RowsAreListed(segs: seq<Segment>)
    requires forall i | 0 <= i < |segs| :: segs[i].index == i
    ensures Lists(RowsOf(segs), segs)
  {
    var rows := RowsOf(segs);
    forall j | 0 <= j < |segs| ensures IsRow(rows, segs[j]) {
    }
    forall k | k in rows ensures exists j | 0 <= j < |segs| :: segs[j].index == k {
      assert segs[k].index == k;
    }
  }

  function SegmentOf(k: nat, r: Record): Segment { Segment(k, r.start, r.end, r.completed) }

  /** A slice in index order with one segment put in its place, over one of the same index if there is one. */
  function Upserted(segs: seq<Segment>, x: Segment): seq<Segment> {
    if segs == [] then [x]
    else if x.index < segs[0].index then [x] + segs
    else if x.index == segs[0].index then [x] + segs[1..]
    else [segs[0]] + Upserted(segs[1..], x)
  }

  predicate ByIndex(segs: seq<Segment>) {
    forall i, j | 0 <= i < j < |segs| :: segs[i].index < segs[j].index
  }

  lemma {:induction false} UpsertedFacts(segs: seq<Segment>, x: Segment)
    requires ByIndex(segs)
    ensures var r := Upserted(segs, x);
      && ByIndex(r) && x in r
      && (forall y | y in r :: y == x || (y in segs && y.index != x.index))
      && (forall y | y in segs && y.index != x.index :: y in r)
  {
    if segs == [] || x.index <= segs[0].index {
    } else {
      var rest := Upserted(segs[1..], x);
      UpsertedFacts(segs[1..], x);
      assert segs == [segs[0]] + segs[1..];
      forall j | 0 <= j < |rest| ensures segs[0].index < rest[j].index {
        assert rest[j] in rest;
      }
    }
  }

  lemma UpsertedHas(rows: Rows, k: nat, r: Record, before: seq<Segment>, i: nat)
    requires Lists(rows, before) && i in rows[k := r]
    ensures var put := Upserted(before, SegmentOf(k, r)); exists j | 0 <= j < |put| :: put[j].index == i
  {
    var x := SegmentOf(k, r);
    UpsertedFacts(before, x);
    var put := Upserted(before, x);
    if i == k {
      var j :| 0 <= j < |put| && put[j] == x;
    } else {
      var m :| 0 <= m < |before| && before[m].index == i;
      assert before[m] in put;
      var j :| 0 <= j < |put| && put[j] == before[m];
    }
  }

  /** What a later load sees of an upsert: the same slice with that one segment in its place. */
  lemma LoadAfterUpdate(rows: Rows, k: nat, r: Record, before: seq<Segment>, after: seq<Segment>)
    requires Lists(rows, before) && Lists(rows[k := r], after)
    ensures after == Upserted(before, SegmentOf(k, r))
  {
    UpsertedLists(rows, k, r, before);
    LoadsOneThing(rows[k := r], after, Upserted(before, SegmentOf(k, r)));
  }

  lemma UpsertedLists(rows: Rows, k: nat, r: Record, before: seq<Segment>)
    requires Lists(rows, before)
    ensures Lists(rows[k := r], Upserted(before, SegmentOf(k, r)))
  {
    var updated := rows[k := r];
    var put := Upserted(before, SegmentOf(k, r));
    UpsertedFacts(before, SegmentOf(k, r));
    forall j | 0 <= j < |put| ensures IsRow(updated, put[j]) {
      UpsertedRow(rows, k, r, before, j);
    }
    forall i | i in updated ensures exists j | 0 <= j < |put| :: put[j].index == i {
      UpsertedHas(rows, k, r, before, i);
    }
  }

  predicate IsRow(rows: Rows, x: Segment) {
    0 <= x.index && x.index in rows && x == SegmentOf(x.index, rows[x.index])
  }

  lemma UpsertedRow(rows: Rows, k: nat, r: Record, before: seq<Segment>, j: nat)
    requires Lists(rows, before) && j < |Upserted(before, SegmentOf(k, r))|
    ensures IsRow(rows[k := r], Upserted(before, SegmentOf(k, r))[j])
  {
    var put := Upserted(before, SegmentOf(k, r));
    UpsertedFacts(before, SegmentOf(k, r));
    assert put[j] in put;
    if put[j] != SegmentOf(k, r) {
      var m :| 0 <= m < |before| && before[m] == put[j];
    }
  }

  // ----- the live counters

  class Progress {
    const completed: array<int>

    /** Room for the ceiling, seeded from the persisted counters. */
    constructor (segs: seq<Segment>, maxSlots: nat)
      ensures fresh(completed) && completed.Length == if maxSlots < |segs| then |segs| else maxSlots
      ensures completed[..|segs|] == Counts(segs)
      ensures Sum(completed[..]) == Sum(Counts(segs))
    {
      var size := if maxSlots < |segs| then |segs| else maxSlots;
      completed := new int[size](i requires 0 <= i < size => if i < |segs| then segs[i].completed else 0);
      new;
      assert completed[..|segs|] == Counts(segs);
      ZerosAddNothing(completed[..], |segs|);
    }

    /** Every slot's bytes, those of unused slots included. */
    method Total() returns (sum: int)
      ensures sum == Sum(completed[..])
    {
      sum := 0;
      for i := 0 to completed.Length
        invariant sum == Sum(completed[..i])
      {
        assert completed[..i + 1][..i] == completed[..i];
        sum := sum + completed[i];
      }
      assert completed[..completed.Length] == completed[..];
    }

    /** Folds the counters into a durable shape that pairs with them index for index. */
    method SnapshotInto(segs: array<Segment>) returns (total: int)
      requires segs.Length <= completed.Length
      modifies segs
      ensures Counts(segs[..]) == completed[..segs.Length] && total == Sum(completed[..segs.Length])
      ensures Starts(segs[..]) == Starts(old(segs[..])) && Ends(segs[..]) == Ends(old(segs[..]))
      ensures forall i | 0 <= i < segs.Length :: segs[i].index == old(segs[i]).index
    {
      total := 0;
      for i := 0 to segs.Length
        invariant forall j | 0 <= j < i :: segs[j] == old(segs[j]).(completed := completed[j])
        invariant forall j | i <= j < segs.Length :: segs[j] == old(segs[j])
        invariant total == Sum(completed[..i])
      {
        assert completed[..i + 1][..i] == completed[..i];
        var c := completed[i];
        segs[i] := segs[i].(completed := c);
        total := total + c;
      }
    }
  }

  lemma {:induction false} ZerosAddNothing(xs: seq<int>, n: nat)
    requires n <= |xs| && forall i | n <= i < |xs| :: xs[i] == 0
    ensures Sum(xs) == Sum(xs[..n])
  {
    if n < |xs| {
      var last := |xs| - 1;
      ZerosAddNothing(xs[..last], n);
      assert xs[..last][..n] == xs[..n];
    } else {
      assert xs[..n] == xs;
    }
  }

  // ----- the barrier

  /** A byte that was the remote's still is. */
  ghost predicate NoWorse(remote: seq<byte>, before: seq<byte>, after: seq<byte>) {
    |remote| <= |before| == |after| && forall p | 0 <= p < |remote| && before[p] == remote[p] :: after[p] == remote[p]
  }

  function Sent(remote: seq<byte>, file: seq<byte>, pos: nat, n: nat): (r: seq<byte>)
    requires pos + n <= |remote| <= |file|
    ensures NoWorse(remote, file, r) && P.Agrees(remote, r, pos, pos + n)
  {
    W.WriteAt(file, pos, remote[pos..pos + n])
  }

  /** The part file under a run: what the process sees, what the device holds, and the live plan, whose slots are cut
      and activated and whose counters advance while the checkpointer looks at them. */
  class Transfer {
    const remote: seq<byte>
    var starts: seq<int>
    var ends: seq<int>
    var counters: seq<int>
    var cache: seq<byte>
    var disk: seq<byte>
    ghost var had: seq<set<int>>    // the Ends each slot has had
    ghost var syncs: seq<bool>      // the outcomes of the fsyncs the checkpointer has asked for

    ghost predicate Valid()
      reads this
    {
      && |starts| == |ends| == |counters| == |had| && (forall i | 0 <= i < |ends| :: ends[i] in had[i])
      && NoWorse(remote, disk, cache)
      && forall i | 0 <= i < |starts| ::
           0 <= counters[i] && P.Agrees(remote, cache, starts[i], starts[i] + counters[i])
    }

    /** The first n bytes of slot i are on the device. */
    ghost predicate Kept(i: nat, n: int)
      reads this
    {
      i < |starts| && 0 <= n && P.Agrees(remote, disk, starts[i], starts[i] + n)
    }

    /** No slot has gone or moved, no counter has gone back, and the device has lost nothing. */
    twostate predicate Onward()
      reads this
    {
      && old(starts) <= starts && |old(counters)| <= |counters|
      && (forall i | 0 <= i < |old(counters)| :: old(counters[i]) <= counters[i])
      && |old(had)| <= |had| && (forall i | 0 <= i < |old(had)| :: old(had[i]) <= had[i])
      && (forall i: nat, n | old(Kept(i, n)) :: Kept(i, n))
    }

    constructor (remote: seq<byte>, segs: seq<Segment>, file: seq<byte>)
      requires |remote| <= |file|
      requires forall i | 0 <= i < |segs| ::
        0 <= segs[i].completed && P.Agrees(remote, file, segs[i].start, segs[i].start + segs[i].completed)
      ensures Valid() && this.remote == remote && cache == disk == file
      ensures starts == Starts(segs) && ends == Ends(segs) && counters == Counts(segs)
    {
      this.remote := remote;
      starts, ends, counters := Starts(segs), Ends(segs), Counts(segs);
      cache, disk := file, file;
      had, syncs := seq(|segs|, i requires 0 <= i < |segs| => {segs[i].end}), [];
    }

    /** What other goroutines do meanwhile, any number of times: workers flush more of the remote's bytes and publish
        them or not, thieves move Ends and activate slots, and the device may take bytes over early. */
    method Interfere()
      requires Valid()
      modifies this
      ensures Valid() && Onward() && syncs == old(syncs)
    {
      var rounds: nat :| rounds >= 0;
      for r := 0 to rounds
        invariant Valid() && Onward() && syncs == old(syncs)
      {
        var thief := *;
        if thief {
          Cut();
        } else {
          Flush();
        }
      }
    }

    /** A thief moves a slot's End, and may put the tail into a slot of its own. */
    method Cut()
      requires Valid()
      modifies this`starts, this`ends, this`counters, this`had
      ensures Valid() && Onward()
    {
      if |starts| == 0 {
        return;
      }
      var d: nat :| d < |starts|;
      var oldEnd, end := ends[d], *;
      ends, had := ends[d := end], had[d := had[d] + {end}];
      var committed := *;
      if committed && -1 <= end < |remote| {
        starts, ends, counters := starts + [end + 1], ends + [oldEnd], counters + [0];
        had := had + [{oldEnd}];
      }
    }

    /** A worker flushes what the server sends next. */
    method Flush()
      requires Valid()
      modifies this`cache, this`disk, this`counters
      ensures Valid() && Onward()
    {
      if |starts| == 0 {
        return;
      }
      var i: nat :| i < |starts|;
      var pos := starts[i] + counters[i];
      var n: nat :| pos + n <= |remote|;
      Write(pos, n);
      var publish := *;
      if publish {
        counters := counters[i := counters[i] + n];
      }
    }

    method Write(pos: nat, n: nat)
      requires Valid() && pos + n <= |remote|
      modifies this`cache, this`disk
      ensures Valid() && Onward() && P.Agrees(remote, cache, pos, pos + n)
    {
      cache := Sent(remote, cache, pos, n);
      var early := *;
      if early {
        disk := Sent(remote, disk, pos, n);
      }
    }

    /** An fsync. Success means every byte written before the call is on the device; failure means nothing. */
    method Sync() returns (ok: bool)
      requires Valid()
      modifies this
      ensures Valid() && Onward() && syncs == old(syncs) + [ok]
      ensures ok ==> forall i: nat, n | i < |old(starts)| && 0 <= n <= old(counters[i]) :: Kept(i, n)
    {
      ok := *;
      if ok {
        disk := cache;
      }
      syncs := syncs + [ok];
      assert ok ==> forall i: nat, n | i < |starts| && 0 <= n <= counters[i] :: Kept(i, n);
      Interfere();
    }
  }

  /** A row read from slot k, with an End it has had and a counter no older than `lo`. */
  ghost predicate ReadFrom(t: Transfer, k: nat, lo: int, r: Record)
    reads t
  {
    && k < |t.starts| == |t.counters| == |t.had|
    && r.start == t.starts[k] && r.end in t.had[k] && lo <= r.completed <= t.counters[k]
  }

  ghost predicate AllRead(t: Transfer, lo: seq<int>, got: seq<Record>)
    reads t
  {
    |got| <= |lo| && forall j | 0 <= j < |got| :: ReadFrom(t, j, lo[j], got[j])
  }

  /** The resume invariant for one row: its counter is no older than `lo` and within its slot's durable prefix. */
  ghost predicate Barred(t: Transfer, k: nat, lo: int, r: Record)
    reads t
  {
    ReadFrom(t, k, lo, r) && t.Kept(k, r.completed)
  }

  ghost predicate AllBarred(t: Transfer, lo: seq<int>, got: seq<Record>)
    reads t
  {
    |got| <= |lo| && forall j | 0 <= j < |got| :: Barred(t, j, lo[j], got[j])
  }

  /** Every row is as it was, or keeps the resume invariant with a counter read during the call. */
  ghost predicate RowsBarred(t: Transfer, lo: seq<int>, before: Rows, after: Rows)
    reads t
  {
    && (forall k | k in before :: k in after)
    && (forall k | k in after :: (k in before && after[k] == before[k]) || (k < |lo| && Barred(t, k, lo[k], after[k])))
  }

  /** The first n slots have been offered to the store, one after the other, each with a row that keeps the resume
      invariant; what it took is there. */
  ghost predicate Offered(t: Transfer, lo: seq<int>, n: nat, before: seq<Offer>, after: seq<Offer>, rows: Rows)
    reads t
  {
    && n <= |lo| && |after| == |before| + n && before <= after
    && forall k | 0 <= k < n :: OfferOk(t, k, lo[k], after[|before| + k], rows)
  }

  ghost predicate OfferOk(t: Transfer, k: nat, lo: int, x: Offer, rows: Rows)
    reads t
  {
    x.k == k && Barred(t, k, lo, x.r) && (x.taken ==> k in rows && rows[k] == x.r)
  }

  /** The database took all n offers made since. */
  predicate AllTaken(before: seq<Offer>, n: nat, after: seq<Offer>) {
    |after| == |before| + n && forall j | |before| <= j < |after| :: after[j].taken
  }

  class Checkpointer {
    const file: Transfer
    const store: Store

    constructor (file: Transfer, store: Store)
      ensures this.file == file && this.store == store
    {
      this.file, this.store := file, store;
    }

    /** One row of the live plan, read in two loads. */
    method SegView(i: nat) returns (r: Record)
      requires file.Valid() && i < |file.starts|
      modifies file
      ensures file.Valid() && file.Onward() && file.syncs == old(file.syncs)
      ensures ReadFrom(file, i, old(file.counters[i]), r) && r.end == old(file.ends[i])
    {
      var end := file.ends[i];
      file.Interfere();
      r := Record(file.starts[i], end, file.counters[i]);
    }

    /** Reads every slot that is active now. */
    method Snapshot() returns (got: seq<Record>)
      requires file.Valid()
      modifies file
      ensures file.Valid() && file.Onward() && file.syncs == old(file.syncs)
      ensures |got| == |old(file.counters)| && AllRead(file, old(file.counters), got)
    {
      var n := |file.starts|;
      got := [];
      for i := 0 to n
        invariant file.Valid() && file.Onward() && file.syncs == old(file.syncs)
        invariant |got| == i && AllRead(file, old(file.counters), got)
      {
        var r := SegView(i);
        got := got + [r];
      }
    }

    /** Offers row k of those read. */
    method Persist(k: nat, got: seq<Record>, ghost lo: seq<int>, ghost before: Rows, ghost first: seq<Offer>)
      returns (stored: bool)
      requires file.Valid() && k < |got| && AllBarred(file, lo, got) && RowsBarred(file, lo, before, store.rows)
      requires Offered(file, lo, k, first, store.offers, store.rows)
      modifies file, store
      ensures file.Valid() && file.Onward() && file.syncs == old(file.syncs)
      ensures AllBarred(file, lo, got) && RowsBarred(file, lo, before, store.rows)
      ensures Offered(file, lo, k + 1, first, store.offers, store.rows)
      ensures stored == store.offers[|first| + k].taken && old(store.offers) <= store.offers
    {
      stored := store.UpdateSegment(k, got[k]);
      file.Interfere();
    }

    method PersistAll(got: seq<Record>, ghost lo: seq<int>) returns (done: bool)
      requires file.Valid() && AllBarred(file, lo, got)
      modifies file, store
      ensures file.Valid() && file.Onward() && file.syncs == old(file.syncs)
      ensures RowsBarred(file, lo, old(store.rows), store.rows)
      ensures Offered(file, lo, |got|, old(store.offers), store.offers, store.rows)
      ensures done <==> AllTaken(old(store.offers), |got|, store.offers)
    {
      done := true;
      for i := 0 to |got|
        invariant file.Valid() && file.Onward() && file.syncs == old(file.syncs)
        invariant AllBarred(file, lo, got) && RowsBarred(file, lo, old(store.rows), store.rows)
        invariant Offered(file, lo, i, old(store.offers), store.offers, store.rows)
        invariant done <==> AllTaken(old(store.offers), i, store.offers)
      {
        var stored := Persist(i, got, lo, old(store.rows), old(store.offers));
        done := done && stored;
      }
    }

    /** Snapshot, one fsync, persist. Whatever workers and thieves do in between: after an fsync that fails nothing is
        offered to the store; after one that succeeds every slot that was active when the call began is, with a row that
        counts only bytes of its durable prefix, and no fewer than the slot had then. The round is done exactly if
        neither the fsync nor a write failed. */
    method Tick() returns (done: bool)
      requires file.Valid()
      modifies file, store
      ensures file.Valid() && file.Onward()
      ensures |file.syncs| == |old(file.syncs)| + 1 && old(file.syncs) <= file.syncs
      ensures RowsBarred(file, old(file.counters), old(store.rows), store.rows)
      ensures var n := |old(file.counters)|;
        if file.syncs[|old(file.syncs)|] then
          && Offered(file, old(file.counters), n, old(store.offers), store.offers, store.rows)
          && (done <==> AllTaken(old(store.offers), n, store.offers))
        else
          !done && store.rows == old(store.rows) && store.offers == old(store.offers)
    {
      ghost var lo := file.counters;
      var got := Snapshot();
      done := file.Sync();
      if done {
        done := PersistAll(got, lo);
      }
    }

    /** The same for one segment whose stream has ended. */
    method FlushFinal(i: nat) returns (done: bool)
      requires file.Valid() && i < |file.starts|
      modifies file, store
      ensures file.Valid() && file.Onward()
      ensures |file.syncs| == |old(file.syncs)| + 1 && old(file.syncs) <= file.syncs
      ensures !file.syncs[|old(file.syncs)|] ==> !done && store.offers == old(store.offers)
      ensures file.syncs[|old(file.syncs)|] ==>
        && |store.offers| == |old(store.offers)| + 1 && old(store.offers) <= store.offers
        && OfferOk(file, i, old(file.counters[i]), store.offers[|old(store.offers)|], store.rows)
        && done == store.offers[|old(store.offers)|].taken
      ensures store.rows == if done then old(store.rows)[i := store.offers[|old(store.offers)|].r] else old(store.rows)
    {
      var r := SegView(i);
      done := file.Sync();
      if done {
        done := store.UpdateSegment(i, r);
      }
    }
  }
}
