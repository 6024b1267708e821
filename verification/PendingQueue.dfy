/** The Manager's pending set (internal/engine/manager.go): an unordered slice with swap-with-last removal that
    behaves as a stable priority queue. */
module PendingQueue {

  type Id = string

  datatype Item = Item(id: Id, priority: int, rank: nat)   // rank: the enqueue sequence number

  /** Dispatch order: higher priority first, then earlier enqueued. */
  predicate Before(a: Item, b: Item) {
    a.priority > b.priority || (a.priority == b.priority && a.rank < b.rank)
  }

  ghost predicate DistinctRanks(s: seq<Item>) {
    forall i, j | 0 <= i < j < |s| :: s[i].rank != s[j].rank
  }

  ghost predicate InOrder(q: seq<Item>) {
    forall i, j | 0 <= i < j < |q| :: Before(q[i], q[j])
  }

  // ----- the specification: a list kept in dispatch order

  function Insert(x: Item, q: seq<Item>): seq<Item> {
    if q == [] then [x]
    else if Before(x, q[0]) then [x] + q
    else [q[0]] + Insert(x, q[1..])
  }

  /** The queue a pending slice stands for. */
  function Queue(s: seq<Item>): seq<Item> {
    if s == [] then [] else Insert(s[|s| - 1], Queue(s[..|s| - 1]))
  }

  lemma {:induction false} InsertContents(x: Item, q: seq<Item>)
    ensures multiset(Insert(x, q)) == multiset(q) + multiset{x}
  {
    if q != [] && !Before(x, q[0]) {
      InsertContents(x, q[1..]);
      assert q == [q[0]] + q[1..];
    }
  }

  lemma {:induction false} InsertInOrder(x: Item, q: seq<Item>)
    requires InOrder(q) && forall i | 0 <= i < |q| :: q[i].rank != x.rank
    ensures InOrder(Insert(x, q))
  {
    if q != [] && !Before(x, q[0]) {
      var rest := Insert(x, q[1..]);
      InsertInOrder(x, q[1..]);
      InsertContents(x, q[1..]);
      forall j | 0 <= j < |rest| ensures Before(q[0], rest[j]) {
        assert rest[j] in multiset(rest);
        assert rest[j] == x || rest[j] in q[1..];
      }
    }
  }

  lemma SplitLast(s: seq<Item>)
    requires s != []
    ensures multiset(s) == multiset(s[..|s| - 1]) + multiset{s[|s| - 1]}
  {
    assert s == s[..|s| - 1] + [s[|s| - 1]];
  }

  lemma SplitFirst(x: Item, q: seq<Item>)
    ensures multiset([x] + q) == multiset(q) + multiset{x}
  {
  }

  lemma PrependInOrder(x: Item, q: seq<Item>)
    requires InOrder(q) && forall j | 0 <= j < |q| :: Before(x, q[j])
    ensures InOrder([x] + q)
  {
  }

  lemma {:induction false} QueueContents(s: seq<Item>)
    ensures multiset(Queue(s)) == multiset(s)
  {
    if s == [] {
    } else {
      var last := |s| - 1;
      QueueContents(s[..last]);
      InsertContents(s[last], Queue(s[..last]));
      SplitLast(s);
    }
  }

  /** The queue loses and duplicates nothing; along it priorities never rise, and among equal priorities those that
      were enqueued first come first. */
  lemma QueueInOrder(s: seq<Item>)
    requires DistinctRanks(s)
    ensures multiset(Queue(s)) == multiset(s)
    ensures forall i, j | 0 <= i < j < |Queue(s)| ::
      && Queue(s)[i].priority >= Queue(s)[j].priority
      && (Queue(s)[i].priority == Queue(s)[j].priority ==> Queue(s)[i].rank < Queue(s)[j].rank)
  {
    QueueSorted(s);
    var q := Queue(s);
    forall i, j | 0 <= i < j < |q|
      ensures q[i].priority >= q[j].priority && (q[i].priority == q[j].priority ==> q[i].rank < q[j].rank)
    {
      assert Before(q[i], q[j]);
    }
  }

  lemma {:induction false} QueueSorted(s: seq<Item>)
    requires DistinctRanks(s)
    ensures InOrder(Queue(s)) && multiset(Queue(s)) == multiset(s)
  {
    QueueContents(s);
    if s == [] {
    } else {
      var last := |s| - 1;
      QueueSorted(s[..last]);
      var q := Queue(s[..last]);
      forall i | 0 <= i < |q| ensures q[i].rank != s[last].rank {
        assert q[i] in multiset(q);
        assert q[i] in s[..last];
      }
      InsertInOrder(s[last], q);
    }
  }

  lemma FirstIsSame(a: seq<Item>, b: seq<Item>)
    requires InOrder(a) && InOrder(b) && multiset(a) == multiset(b) && a != []
    ensures b != [] && a[0] == b[0]
  {
    assert a[0] in multiset(b);
    var j :| 0 <= j < |b| && b[j] == a[0];
    assert b[0] in multiset(a);
    var i :| 0 <= i < |a| && a[i] == b[0];
  }

  /** Dispatch order determines the list. */
  lemma {:induction false} OrderIsUnique(a: seq<Item>, b: seq<Item>)
    requires InOrder(a) && InOrder(b) && multiset(a) == multiset(b)
    ensures a == b
    decreases |a|
  {
    if a == [] {
      assert |multiset(b)| == 0;
    } else {
      FirstIsSame(a, b);
      TailContents(a);
      TailContents(b);
      OrderIsUnique(a[1..], b[1..]);
      assert a == [a[0]] + a[1..] && b == [b[0]] + b[1..];
    }
  }

  lemma TailContents(a: seq<Item>)
    requires a != []
    ensures multiset(a[1..]) == multiset(a) - multiset{a[0]}
  {
    assert a == [a[0]] + a[1..];
  }

  /** Whatever lists the same items in dispatch order is the queue. */
  lemma IsQueue(s: seq<Item>, q: seq<Item>)
    requires DistinctRanks(s) && InOrder(q) && multiset(q) == multiset(s)
    ensures q == Queue(s)
  {
    QueueSorted(s);
    OrderIsUnique(Queue(s), q);
  }

  // ----- swap-with-last removal

  function SwapRemove(s: seq<Item>, i: nat): seq<Item>
    requires i < |s|
  {
    s[i := s[|s| - 1]][..|s| - 1]
  }

  lemma SwapRemoveContents(s: seq<Item>, i: nat)
    requires i < |s|
    ensures multiset(s) == multiset(SwapRemove(s, i)) + multiset{s[i]}
  {
    var last := |s| - 1;
    assert s == s[..last] + [s[last]];
    if i < last {
      assert s[..last] == s[..i] + [s[i]] + s[i + 1..last];
      assert SwapRemove(s, i) == s[..i] + [s[last]] + s[i + 1..last];
    } else {
      assert SwapRemove(s, i) == s[..last];
    }
  }

  lemma SwapRemoveDistinct(s: seq<Item>, i: nat)
    requires DistinctRanks(s) && i < |s|
    ensures DistinctRanks(SwapRemove(s, i))
    ensures forall j | 0 <= j < |SwapRemove(s, i)| ::
      SwapRemove(s, i)[j].rank != s[i].rank && exists k :: 0 <= k < |s| && k != i && SwapRemove(s, i)[j] == s[k]
  {
    forall j | 0 <= j < |SwapRemove(s, i)|
      ensures exists k :: 0 <= k < |s| && k != i && SwapRemove(s, i)[j] == s[k]
    {
      var k := if j == i then |s| - 1 else j;
      assert SwapRemove(s, i)[j] == s[k];
    }
  }

  /** What holds of every item of a slice holds along its queue. */
  lemma AlongQueue(s: seq<Item>, j: nat) returns (k: nat)
    requires DistinctRanks(s) && j < |Queue(s)|
    ensures k < |s| && s[k] == Queue(s)[j]
  {
    QueueSorted(s);
    assert Queue(s)[j] in multiset(s);
    k :| 0 <= k < |s| && s[k] == Queue(s)[j];
  }

  /** Removing the front item takes the head off the queue, however the slice was permuted. */
  lemma RemoveFront(s: seq<Item>, best: nat)
    requires DistinctRanks(s) && best < |s|
    requires forall i | 0 <= i < |s| && i != best :: Before(s[best], s[i])
    ensures DistinctRanks(SwapRemove(s, best))
    ensures Queue(s) == [s[best]] + Queue(SwapRemove(s, best))
  {
    var rest := SwapRemove(s, best);
    SwapRemoveContents(s, best);
    SwapRemoveDistinct(s, best);
    QueueSorted(rest);
    var q := Queue(rest);
    forall j | 0 <= j < |q| ensures Before(s[best], q[j]) {
      var k := AlongQueue(rest, j);
    }
    PrependInOrder(s[best], q);
    SplitFirst(s[best], q);
    IsQueue(s, [s[best]] + q);
  }

  /** Changing one item's priority moves that item alone, to where its original rank puts it among its new equals. */
  lemma Reprioritized(s: seq<Item>, k: nat, p: int)
    requires DistinctRanks(s) && k < |s|
    ensures DistinctRanks(s[k := s[k].(priority := p)])
    ensures Queue(s[k := s[k].(priority := p)]) == Insert(s[k].(priority := p), Queue(SwapRemove(s, k)))
  {
    var x := s[k].(priority := p);
    var t := s[k := x];
    var rest := SwapRemove(s, k);
    SwapRemoveContents(t, k);
    assert SwapRemove(t, k) == rest;
    SwapRemoveDistinct(s, k);
    QueueSorted(rest);
    var q := Queue(rest);
    forall i | 0 <= i < |q| ensures q[i].rank != x.rank {
      var j := AlongQueue(rest, i);
    }
    InsertInOrder(x, q);
    InsertContents(x, q);
    IsQueue(t, Insert(x, q));
  }

  /** Item k has the highest priority, and was enqueued first among those that share it. */
  predicate GoesFirst(s: seq<Item>, k: nat)
    requires k < |s|
  {
    forall j | 0 <= j < |s| && j != k ::
      s[j].priority < s[k].priority || (s[j].priority == s[k].priority && s[j].rank > s[k].rank)
  }

  lemma FirstIsBefore(s: seq<Item>, k: nat)
    requires k < |s| && GoesFirst(s, k)
    ensures forall j | 0 <= j < |s| && j != k :: Before(s[k], s[j])
  {
  }

  // ----- the code

  class Pending {
    var items: seq<Item>
    var counter: nat
    var closed: bool

    ghost predicate Valid()
      reads this
    {
      DistinctRanks(items) && forall i | 0 <= i < |items| :: items[i].rank <= counter
    }

    constructor ()
      ensures Valid() && Queue(items) == [] && !closed
    {
      items, counter, closed := [], 0, false;
    }

    /** A newcomer waits behind every item of its own priority. */
    method Enqueue(id: Id, priority: int) returns (ok: bool)
      requires Valid()
      modifies this
      ensures Valid() && closed == old(closed) && ok == !closed
      ensures !ok ==> items == old(items) && counter == old(counter)
      ensures ok ==> counter == old(counter) + 1 && items == old(items) + [Item(id, priority, counter)]
      ensures ok ==> Queue(items) == Insert(Item(id, priority, counter), Queue(old(items)))
      ensures ok ==> forall i | 0 <= i < |old(items)| :: old(items)[i].rank < counter
    {
      if closed {
        return false;
      }
      counter := counter + 1;
      items := items + [Item(id, priority, counter)];
      assert items[..|items| - 1] == old(items);
      return true;
    }

    /** The scan of the slice. */
    method Highest() returns (best: nat)
      requires Valid() && items != []
      ensures best < |items| && GoesFirst(items, best)
    {
      best := 0;
      for i := 1 to |items|
        invariant best < i
        invariant forall j | 0 <= j < i && j != best ::
          || items[j].priority < items[best].priority
          || (items[j].priority == items[best].priority && items[j].rank > items[best].rank)
      {
        if items[i].priority > items[best].priority
           || (items[i].priority == items[best].priority && items[i].rank < items[best].rank) {
          best := i;
        }
      }
    }

    /** Removes the head of the queue: no pending item has a higher priority, and none of its own was enqueued before
        it. */
    method PopHighest() returns (id: Id)
      requires Valid() && items != []
      modifies this`items
      ensures Valid()
      ensures Queue(old(items)) != [] && id == Queue(old(items))[0].id
      ensures Queue(items) == Queue(old(items))[1..]
      ensures exists k | 0 <= k < |old(items)| ::
        && id == old(items)[k].id && GoesFirst(old(items), k)
        && multiset(old(items)) == multiset(items) + multiset{old(items)[k]}
    {
      var best := Highest();
      FirstIsBefore(items, best);
      RemoveFront(items, best);
      SwapRemoveContents(items, best);
      id := items[best].id;
      var last := |items| - 1;
      items := items[best := items[last]];
      items := items[..last];
      assert items == SwapRemove(old(items), best);
    }

    /** Reorders the download's first pending entry in the slice, which keeps its place in enqueue order. */
    method SetPriority(id: Id, priority: int)
      requires Valid()
      modifies this`items
      ensures Valid()
      ensures (forall i | 0 <= i < |old(items)| :: old(items)[i].id != id) ==> items == old(items)
      ensures (exists i :: 0 <= i < |old(items)| && old(items)[i].id == id) ==>
        exists k | 0 <= k < |old(items)| ::
          && old(items)[k].id == id && (forall j | 0 <= j < k :: old(items)[j].id != id)
          && items == old(items)[k := old(items)[k].(priority := priority)]
          && Queue(items) == Insert(old(items)[k].(priority := priority), Queue(SwapRemove(old(items), k)))
    {
      for i := 0 to |items|
        invariant items == old(items)
        invariant forall j | 0 <= j < i :: items[j].id != id
      {
        if items[i].id == id {
          Reprioritized(items, i, priority);
          items := items[i := items[i].(priority := priority)];
          return;
        }
      }
    }
  }
}
