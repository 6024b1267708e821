/** No interleaving of a work-stealing run goes on for ever: every step lowers a well-founded measure. */
module Termination {
  import opened Tiling
  import opened Protocol
  import opened P = ProtocolInv
  import opened Steps = ProtocolSteps
  import opened Facts = ProtocolFacts

  lemma {:induction false} SumUpdate(xs: seq<int>, k: nat, v: int)
    requires k < |xs|
    ensures Sum(xs[k := v]) == Sum(xs) - xs[k] + v
  {
    var last := |xs| - 1;
    if k < last {
      SumUpdate(xs[..last], k, v);
      assert xs[k := v][..last] == xs[..last][k := v];
    } else {
      assert xs[k := v][..last] == xs[..last];
    }
  }

  lemma {:induction false} SumBound(xs: seq<int>, hi: int)
    requires hi >= 0 && forall i | 0 <= i < |xs| :: xs[i] <= hi
    ensures Sum(xs) <= |xs| * hi
  {
    if |xs| == 0 {
    } else {
      SumBound(xs[..|xs| - 1], hi);
      assert |xs| * hi == (|xs| - 1) * hi + hi;
    }
  }

  lemma {:induction false} FewBelow(xs: set<nat>, n: nat)
    requires forall x | x in xs :: x < n
    ensures |xs| <= n
  {
    if n > 0 {
      FewBelow(xs - {n - 1}, n - 1);
      assert xs <= (xs - {n - 1}) + {n - 1};
      if n - 1 in xs {
        assert |xs - {n - 1}| == |xs| - 1;
      } else {
        assert xs - {n - 1} == xs;
      }
    } else {
      assert xs == {};
    }
  }

  // ----- the measure

  function Rank(w: Worker): nat {
    match w
    case Enter(_) => 8
    case Stream(_, _, _) => 7
    case Loaded(_, _, _, _, _) => 6
    case Written(_, _, _, _, _, _) => 5
    case Clipped(_, _, _) => 4
    case Attempt(_, _) => 3
    case Idle => 2
    case InNext => 1
    case Exited => 0
    case Failed => 0
  }

  function Ranks(ws: seq<Worker>): nat {
    if |ws| == 0 then 0 else Ranks(ws[..|ws| - 1]) + Rank(ws[|ws| - 1])
  }

  lemma {:induction false} RanksUpdate(ws: seq<Worker>, w: nat, x: Worker)
    requires w < |ws|
    ensures Ranks(ws[w := x]) == Ranks(ws) - Rank(ws[w]) + Rank(x)
  {
    var last := |ws| - 1;
    if w < last {
      RanksUpdate(ws[..last], w, x);
      assert ws[w := x][..last] == ws[..last][w := x];
    } else {
      assert ws[w := x][..last] == ws[..last];
    }
  }

  /** How often a slot's retry loop may run at most. */
  function LoopBound(c: Config): nat { c.retries + 1 + c.max + c.workers }

  function CallsLeft(c: Config, s: State): int { c.max + c.workers - s.calls }

  function DonorsLeft(c: Config, s: State): int { if s.mu.Free? then 0 else c.max - |s.mu.excluded| }

  function ScanLeft(s: State): int {
    match s.mu
    case Free => 0
    case Undoing(_, _, _, _) => 1
    case Shrunk(_, _, _, _, _, _) => 2
    case Chosen(_, _, _, _, _) => 3
    case Scanning(_, _, i, _, _, _) => 4 + |s.starts| - i
  }

  function LoopsLeft(c: Config, s: State): int { c.max * LoopBound(c) - Sum(s.iters) }

  function BytesLeft(c: Config, s: State): int { |c.remote| - Sum(s.completed) }

  lemma MeasureBounded(c: Config, s: State)
    requires Inv(c, s)
    ensures CallsLeft(c, s) >= 0 && DonorsLeft(c, s) >= 0 && ScanLeft(s) >= 0
    ensures LoopsLeft(c, s) >= 0 && BytesLeft(c, s) >= 0
  {
    CallsBounded(c, s);
    LoopsBounded(c, s);
    BytesBounded(c, s);
    if !s.mu.Free? {
      FewBelow(s.mu.excluded, |s.starts|);
    }
  }

  lemma CallsBounded(c: Config, s: State)
    requires Inv(c, s)
    ensures CallsLeft(c, s) >= 0
    ensures forall k | 0 <= k < |s.starts| :: s.iters[k] <= LoopBound(c)
  {
    if !s.mu.Free? {
      HolderIsInNext(s.mu, s.workers);
    }
    ExitsBound(s.workers);
    forall k | 0 <= k < |s.starts| ensures s.iters[k] <= LoopBound(c) {
      assert RowOk(c, RowOf(s, k), |s.starts| == 1, k < |s.handed|);
    }
  }

  lemma Scale(a: int, b: int, k: nat)
    requires a <= b
    ensures a * k <= b * k
  {
  }

  lemma LoopsBounded(c: Config, s: State)
    requires Inv(c, s)
    ensures LoopsLeft(c, s) >= 0
  {
    CallsBounded(c, s);
    SumBound(s.iters, LoopBound(c));
    Scale(|s.starts|, c.max, LoopBound(c));
  }

  lemma BytesBounded(c: Config, s: State)
    requires Inv(c, s)
    ensures BytesLeft(c, s) >= 0
  {
    if RowOf(s, 0).Fits() || |s.starts| > 1 {
      var eff := Eff(s.ends, s.mu);
      forall i | 0 <= i < |s.starts| ensures s.completed[i] <= eff[i] - s.starts[i] + 1 {
        assert RowOk(c, RowOf(s, i), |s.starts| == 1, i < |s.handed|);
      }
      SumAtMost(s.starts, eff, s.completed);
    } else {
      assert RowOk(c, RowOf(s, 0), true, 0 < |s.handed|);
      assert s.completed[..0] == [];
      assert Sum(s.completed) == Sum(s.completed[..0]) + s.completed[0];
    }
  }

  /** The measure of s is lexicographically above the measure of t. */
  predicate Below(c: Config, t: State, s: State) {
    || CallsLeft(c, t) < CallsLeft(c, s)
    || (CallsLeft(c, t) == CallsLeft(c, s) &&
        (|| DonorsLeft(c, t) < DonorsLeft(c, s)
         || (DonorsLeft(c, t) == DonorsLeft(c, s) &&
             (|| ScanLeft(t) < ScanLeft(s)
              || (ScanLeft(t) == ScanLeft(s) &&
                  (|| LoopsLeft(c, t) < LoopsLeft(c, s)
                   || (LoopsLeft(c, t) == LoopsLeft(c, s) &&
                       (|| BytesLeft(c, t) < BytesLeft(c, s)
                        || (BytesLeft(c, t) == BytesLeft(c, s) && Ranks(t.workers) < Ranks(s.workers))))))))))
  }

  lemma ThiefLowers(c: Config, s: State, a: Action)
    requires Inv(c, s) && Enabled(c, s, a)
    requires a.ScanSlot? || a.ScanDone? || a.Shrink? || a.Recheck? || a.Undo? || a.Commit?
    ensures Below(c, Apply(c, s, a), s)
  {
    FewBelow(s.mu.excluded, |s.starts|);
    if a.Undo? {
      assert |s.mu.excluded + {s.mu.donor}| == |s.mu.excluded| + 1;
    }
  }

  /** A step of worker w that leaves the mutex, the retry loop and the counters alone lowers its rank. */
  lemma RankLowers(c: Config, s: State, w: nat, x: Worker)
    requires w < |s.workers| && Rank(x) < Rank(s.workers[w])
    ensures Below(c, SetWorker(s, w, x), s)
  {
    RanksUpdate(s.workers, w, x);
  }

  lemma PublishLowers(c: Config, s: State, w: nat)
    requires Shape(s) && Enabled(c, s, Publish(w)) && s.workers[w].n >= 0
    requires s.workers[w].how.More? ==> s.workers[w].n >= 1
    ensures Below(c, DoPublish(c, s, w), s)
  {
    var t := DoPublish(c, s, w);
    var k := s.workers[w].slot;
    SumUpdate(s.completed, k, t.completed[k]);
    RanksUpdate(s.workers, w, t.workers[w]);
  }

  lemma PcLowers(c: Config, s: State, a: Action)
    requires Shape(s) && Enabled(c, s, a) && (a.EnterSegment? || a.Retry? || a.Eof? || a.Load? || a.Abort?)
    ensures Below(c, Apply(c, s, a), s)
  {
    RankLowers(c, s, a.w, Apply(c, s, a).workers[a.w]);
  }

  lemma SettleLowers(c: Config, s: State, w: nat)
    requires Shape(s) && Enabled(c, s, Settle(w))
    ensures Below(c, DoSettle(s, w), s)
  {
    RanksUpdate(s.workers, w, DoSettle(s, w).workers[w]);
  }

  lemma WriteLowers(c: Config, s: State, w: nat, n: int)
    requires Shape(s) && Enabled(c, s, WriteBytes(w, n))
    ensures Below(c, DoWrite(c, s, w, n), s)
  {
    RanksUpdate(s.workers, w, DoWrite(c, s, w, n).workers[w]);
  }

  lemma OpenLowers(c: Config, s: State, w: nat)
    requires Shape(s) && Enabled(c, s, Open(w))
    ensures Below(c, DoOpen(s, w), s)
  {
    var k := s.workers[w].slot;
    if Frontier(s, k) > s.ends[k] {
      RankLowers(c, s, w, Failed);
    } else {
      SumUpdate(s.iters, k, s.iters[k] + 1);
    }
  }

  /** Every step of every goroutine lowers the measure. */
  lemma StepLowers(c: Config, s: State, a: Action)
    requires Inv(c, s) && Enabled(c, s, a)
    ensures Below(c, Apply(c, s, a), s)
  {
    match a
    case NextInitial(w) =>
    case NextSteal(w) =>
    case Open(w) => OpenLowers(c, s, w);
    case WriteBytes(w, n) => WriteLowers(c, s, w, n);
    case Publish(w) =>
      var k, r := OwnSlot(c, s, w);
      PublishLowers(c, s, w);
    case Settle(w) => SettleLowers(c, s, w);
    case EnterSegment(_) => PcLowers(c, s, a);
    case Retry(_) => PcLowers(c, s, a);
    case Eof(_) => PcLowers(c, s, a);
    case Load(_, _) => PcLowers(c, s, a);
    case Abort(_) => PcLowers(c, s, a);
    case _ => ThiefLowers(c, s, a);
  }

  ghost predicate InfiniteRun(c: Config, at: nat -> State, act: nat -> Action) {
    forall i: nat :: Shape(at(i)) && Enabled(c, at(i), act(i)) && at(i + 1) == Apply(c, at(i), act(i))
  }

  /** There is no infinite run: whatever the scheduler, the network and the thieves do, the workers return. The proof
      is the recursion itself, on the measure. */
  lemma {:induction false} NoInfiniteRun(c: Config, at: nat -> State, act: nat -> Action, i: nat)
    requires InfiniteRun(c, at, act) && Inv(c, at(i))
    ensures false
    decreases CallsLeft(c, at(i)), DonorsLeft(c, at(i)), ScanLeft(at(i)), LoopsLeft(c, at(i)), BytesLeft(c, at(i)),
      Ranks(at(i).workers)
  {
    MeasureBounded(c, at(i));
    StepKeepsInv(c, at(i), act(i));
    StepLowers(c, at(i), act(i));
    NoInfiniteRun(c, at, act, i + 1);
  }

  /** Every run from a startable layout ends. */
  lemma RunsEnd(c: Config, segs: seq<Segment>, file: seq<byte>, at: nat -> State, act: nat -> Action)
    requires Startable(c, segs, file) && at(0) == Init(c, segs, file)
    ensures !InfiniteRun(c, at, act)
  {
    if InfiniteRun(c, at, act) {
      InitInv(c, segs, file);
      NoInfiniteRun(c, at, act, 0);
    }
  }
}
