/** What the work-stealing run guarantees, over every interleaving and every run. */
module ProtocolFacts {
  import opened Tiling
  import opened Layout
  import opened Protocol
  import opened ProtocolInv
  import opened ProtocolSteps

  // ----- runs

  ghost predicate ValidRun(c: Config, s: State, run: seq<Action>)
    decreases |run|
  {
    Shape(s) && (run == [] || (Enabled(c, s, run[0]) && ValidRun(c, Apply(c, s, run[0]), run[1..])))
  }

  ghost function After(c: Config, s: State, run: seq<Action>): State
    requires ValidRun(c, s, run)
    decreases |run|
  {
    if run == [] then s else After(c, Apply(c, s, run[0]), run[1..])
  }

  lemma {:induction false} RunKeepsInv(c: Config, s: State, run: seq<Action>)
    requires Inv(c, s) && ValidRun(c, s, run)
    ensures Inv(c, After(c, s, run))
    decreases |run|
  {
    if run == [] {
    } else {
      StepKeepsInv(c, s, run[0]);
      RunKeepsInv(c, Apply(c, s, run[0]), run[1..]);
    }
  }

  /** Every state any interleaving can reach from a startable layout satisfies the invariant. */
  lemma ReachableOk(c: Config, segs: seq<Segment>, file: seq<byte>, run: seq<Action>)
    requires Startable(c, segs, file) && ValidRun(c, Init(c, segs, file), run)
    ensures Inv(c, After(c, Init(c, segs, file), run))
  {
    InitInv(c, segs, file);
    RunKeepsInv(c, Init(c, segs, file), run);
  }

  // ----- tiling

  /** At every point of every run: with no window open the live ranges put each byte of the layout in exactly one
      slot; inside a window they do so once the donor's End is read as the End an undo would restore. */
  lemma TiledThroughout(c: Config, segs: seq<Segment>, file: seq<byte>, run: seq<Action>)
    requires Startable(c, segs, file) && ValidRun(c, Init(c, segs, file), run)
    ensures var s := After(c, Init(c, segs, file), run);
      if s.mu.Shrunk? || s.mu.Undoing? then
        && s.mu.donor < |s.ends| && s.ends[s.mu.donor] < s.mu.oldEnd
        && Tiled(c.cover, s.starts, s.ends[s.mu.donor := s.mu.oldEnd])
      else
        Tiled(c.cover, s.starts, s.ends)
  {
    ReachableOk(c, segs, file, run);
  }

  /** No step but a commit reshapes the committed layout; in particular a window that is undone leaves no trace. */
  lemma OnlyCommitReshapes(c: Config, s: State, a: Action)
    requires Inv(c, s) && Enabled(c, s, a) && !a.Commit?
    ensures var t := Apply(c, s, a); t.starts == s.starts && Eff(t.ends, t.mu) == Eff(s.ends, s.mu)
  {
    var t := Apply(c, s, a);
    assert Eff(t.ends, t.mu) == Eff(s.ends, s.mu);
  }

  /** A commit splits one committed range in two and leaves the others alone; nothing fetched or in flight is in the
      tail, and no unfetched byte is lost or counted twice. */
  lemma CommitSplits(c: Config, s: State)
    requires Inv(c, s) && Enabled(c, s, Commit)
    ensures var t, d, k := Apply(c, s, Commit), s.mu.donor, |s.starts|;
      var e, e' := Eff(s.ends, s.mu), Eff(t.ends, t.mu);
      && d < k < |t.starts| == k + 1
      && t.starts[..k] == s.starts && e'[..k] == e[d := s.mu.mid]
      && t.starts[k] == e'[d] + 1 && e'[k] == e[d]
      && t.starts[d] + t.wrote[d] <= t.starts[k] && t.completed[k] == 0
      && Remaining(t, d) + Remaining(t, k) == Remaining(s, d)
  {
    var t := Apply(c, s, Commit);
    CommitEff(c, s);
    assert RowOk(c, RowOf(s, s.mu.donor), |s.starts| == 1, s.mu.donor < |s.handed|);
    assert t.starts[..|s.starts|] == s.starts;
    assert Eff(t.ends, t.mu)[..|s.starts|] == Eff(s.ends, s.mu)[s.mu.donor := s.mu.mid];
  }

  // ----- steal safety

  /** Whatever a flush is about to write lies in its own slot's committed range, and no slot has written it before. */
  lemma NoByteWrittenTwice(c: Config, s: State, w: nat, n: int, b: int)
    requires Inv(c, s) && Enabled(c, s, WriteBytes(w, n))
    requires var pos := Frontier(s, s.workers[w].slot); pos <= b < pos + n
    ensures b !in s.owner
    ensures Has(s.starts, Eff(s.ends, s.mu), s.workers[w].slot, b)
    ensures Apply(c, s, WriteBytes(w, n)).owner[b] == s.workers[w].slot
    ensures Apply(c, s, WriteBytes(w, n)).file[b] == c.remote[b]
  {
    var k, r := OwnSlot(c, s, w);
    WriteRow(c, s, w, n, k, r);
    assert Has(s.starts, Eff(s.ends, s.mu), k, b);
    if b in s.owner {
      BeyondOwned(c, s, k, b);
    }
  }

  /** A byte of slot k's committed range that has been written is not one the slot has still to write. */
  lemma BeyondOwned(c: Config, s: State, k: nat, b: int)
    requires Inv(c, s) && k < |s.starts| && b in s.owner && Has(s.starts, Eff(s.ends, s.mu), k, b)
    ensures b < s.starts[k] + s.wrote[k]
  {
    assert OwnedBy(b, s.owner[b], s.starts, s.wrote, Eff(s.ends, s.mu));
    assert Has(s.starts, Eff(s.ends, s.mu), s.owner[b], b);
  }

  lemma EffShrinks(c: Config, s: State, a: Action)
    requires Inv(c, s) && Enabled(c, s, a)
    ensures var t := Apply(c, s, a);
      && |s.starts| <= |t.starts| && t.starts[..|s.starts|] == s.starts
      && forall i | 0 <= i < |s.starts| :: Eff(t.ends, t.mu)[i] <= Eff(s.ends, s.mu)[i]
  {
    if a.Commit? {
      CommitSplits(c, s);
    } else {
      OnlyCommitReshapes(c, s, a);
    }
  }

  lemma {:induction false} EffShrinksOverRun(c: Config, s: State, run: seq<Action>)
    requires Inv(c, s) && ValidRun(c, s, run)
    ensures var t := After(c, s, run);
      && |s.starts| <= |t.starts| && t.starts[..|s.starts|] == s.starts && |t.ends| == |t.starts|
      && forall i | 0 <= i < |s.starts| :: Eff(t.ends, t.mu)[i] <= Eff(s.ends, s.mu)[i]
    decreases |run|
  {
    if run == [] {
    } else {
      var t := Apply(c, s, run[0]);
      StepKeepsInv(c, s, run[0]);
      EffShrinks(c, s, run[0]);
      EffShrinksOverRun(c, t, run[1..]);
      var u := After(c, t, run[1..]);
      assert u.starts[..|s.starts|] == u.starts[..|t.starts|][..|s.starts|];
    }
  }

  /** Once a steal commits, whatever happens afterwards the donor never has a byte of the tail written or in flight,
      and the tail's slot never a byte of what the donor kept. */
  lemma StolenTailIsNeverTouched(c: Config, s: State, run: seq<Action>, b: int)
    requires Inv(c, s) && Enabled(c, s, Commit) && ValidRun(c, Apply(c, s, Commit), run)
    requires b in After(c, Apply(c, s, Commit), run).owner
    ensures var writer := After(c, Apply(c, s, Commit), run).owner[b];
      && (writer == s.mu.donor ==> b <= s.mu.mid)
      && (writer == |s.starts| ==> s.mu.mid < b <= s.mu.oldEnd)
  {
    var t := Apply(c, s, Commit);
    StepKeepsInv(c, s, Commit);
    CommitSplits(c, s);
    EffShrinksOverRun(c, t, run);
    RunKeepsInv(c, t, run);
    var u := After(c, t, run);
    assert OwnedBy(b, u.owner[b], u.starts, u.wrote, Eff(u.ends, u.mu));
    assert u.starts[..|t.starts|][|s.starts|] == t.starts[|s.starts|];
  }

  // ----- the clip/undo handshake

  /** Worker w has clipped, or is about to clip, at the End it loaded. */
  predicate Clipping(s: State, w: nat, k: nat, end: int)
    requires Shape(s) && k < |s.starts|
  {
    && w < |s.workers|
    && match s.workers[w]
       case Loaded(j, _, _, len, e) => j == k && e == end && len >= end - Frontier(s, k) + 1
       case Written(j, _, _, _, how, e) => j == k && e == end && how.Clip?
       case Clipped(j, _, e) => j == k && e == end
       case _ => false
  }

  /** A donor that clips at the tentative End always makes the thief's re-check undo it. */
  lemma ClipForcesUndo(c: Config, segs: seq<Segment>, file: seq<byte>, run: seq<Action>, w: nat)
    requires Startable(c, segs, file) && ValidRun(c, Init(c, segs, file), run)
    requires var s := After(c, Init(c, segs, file), run);
      && Shape(s) && s.mu.Shrunk? && s.mu.donor < |s.starts| && Clipping(s, w, s.mu.donor, s.mu.mid)
    ensures var s := After(c, Init(c, segs, file), run); Enabled(c, s, Recheck) && !Enabled(c, s, Commit)
  {
    ReachableOk(c, segs, file, run);
    var s := After(c, Init(c, segs, file), run);
    assert WorkerOk(c, s, s.workers[w]);
  }

  lemma SettledIsFinal(c: Config, s: State, a: Action, k: nat)
    requires Inv(c, s) && Enabled(c, s, a) && k in s.settled
    ensures var t := Apply(c, s, a);
      k in t.settled && k < |s.ends| <= |t.ends| && t.ends[k] == s.ends[k]
  {
    if s.mu.Chosen? || s.mu.Shrunk? || s.mu.Undoing? {
      NotSettled(c, s);
    }
  }

  /** A thief that has picked a donor did not pick a settled one. */
  lemma NotSettled(c: Config, s: State)
    requires Shape(s) && MuOk(c, s.mu, s.cursor, s.settled, s.starts, s.ends, s.completed)
    requires s.mu.Chosen? || s.mu.Shrunk? || s.mu.Undoing?
    ensures s.mu.donor !in s.settled
  {
  }

  /** Once settled says yes, the slot's End is final over any continuation, and no thief picks the slot again. */
  lemma {:induction false} SettledIsFinalOverRun(c: Config, s: State, run: seq<Action>, k: nat)
    requires Inv(c, s) && ValidRun(c, s, run) && k in s.settled
    ensures var t := After(c, s, run);
      && k in t.settled && k < |s.ends| <= |t.ends| && t.ends[k] == s.ends[k]
      && (t.mu.Chosen? || t.mu.Shrunk? || t.mu.Undoing? ==> t.mu.donor != k)
    decreases |run|
  {
    if run == [] {
      if s.mu.Chosen? || s.mu.Shrunk? || s.mu.Undoing? {
        NotSettled(c, s);
      }
    } else {
      StepKeepsInv(c, s, run[0]);
      SettledIsFinal(c, s, run[0], k);
      SettledIsFinalOverRun(c, Apply(c, s, run[0]), run[1..], k);
    }
  }

  // ----- dispatch

  /** Over a whole run next hands out 0, 1, 2, ... without repetition, the initial slots before any stolen one, and
      the live slots never outgrow the arrays pre-sized for them. */
  lemma DispatchInOrder(c: Config, segs: seq<Segment>, file: seq<byte>, run: seq<Action>)
    requires Startable(c, segs, file) && ValidRun(c, Init(c, segs, file), run)
    ensures var t := After(c, Init(c, segs, file), run);
      && |t.starts| <= c.max
      && |t.handed| <= |t.starts| && (forall i | 0 <= i < |t.handed| :: t.handed[i] == i)
      && (|t.starts| > c.initial ==> |t.handed| == |t.starts|)
  {
    ReachableOk(c, segs, file, run);
  }

  /** Two workers never stream the same slot. */
  lemma OneWorkerPerSlot(c: Config, segs: seq<Segment>, file: seq<byte>, run: seq<Action>, v: nat, w: nat)
    requires Startable(c, segs, file) && ValidRun(c, Init(c, segs, file), run)
    requires var s := After(c, Init(c, segs, file), run);
      Shape(s) && On(s, v) && On(s, w) && SlotOf(s.workers[v]) == SlotOf(s.workers[w])
    ensures v == w
  {
    ReachableOk(c, segs, file, run);
  }

  // ----- the retry loop

  /** Each budget-free retry is paid for by an undone steal of that slot, each call of next undoes a slot at most
      once, and there are at most max + workers calls; so the retry loop of a slot runs a bounded number of times. */
  lemma RetriesAreBounded(c: Config, segs: seq<Segment>, file: seq<byte>, run: seq<Action>, k: nat)
    requires Startable(c, segs, file) && ValidRun(c, Init(c, segs, file), run)
    requires k < |After(c, Init(c, segs, file), run).starts|
    ensures var t := After(c, Init(c, segs, file), run);
      && Shape(t)
      && t.frees[k] <= t.undos[k] <= t.calls <= c.max + c.workers
      && t.iters[k] <= c.retries + 1 + t.frees[k]
  {
    ReachableOk(c, segs, file, run);
    var t := After(c, Init(c, segs, file), run);
    assert RowOk(c, RowOf(t, k), |t.starts| == 1, k < |t.handed|);
    if !t.mu.Free? {
      HolderIsInNext(t.mu, t.workers);
    }
    ExitsBound(t.workers);
  }

  // ----- exhaustion

  /** Unfetched bytes of slot i's committed range. */
  function Remaining(s: State, i: nat): int
    requires Shape(s) && i < |s.starts|
  {
    Eff(s.ends, s.mu)[i] - Frontier(s, i) + 1
  }

  /** Remainders only ever shrink, and a new slot starts with no more than its donor had. */
  lemma RemaindersShrink(c: Config, s: State, a: Action, i: nat)
    requires Inv(c, s) && Enabled(c, s, a)
    requires Shape(Apply(c, s, a)) && i < |Apply(c, s, a).starts|
    ensures i < |s.starts| ==> Remaining(Apply(c, s, a), i) <= Remaining(s, i)
    ensures i >= |s.starts| ==>
      s.mu.Shrunk? && s.mu.donor < |s.starts| && Remaining(Apply(c, s, a), i) <= Remaining(s, s.mu.donor)
  {
    EffShrinks(c, s, a);
    if a.Commit? {
      CommitSplits(c, s);
    } else {
      CountersGrow(c, s, a, i);
    }
  }

  lemma CountersGrow(c: Config, s: State, a: Action, i: nat)
    requires Inv(c, s) && Enabled(c, s, a) && !a.Commit? && i < |s.starts|
    ensures var t := Apply(c, s, a); |t.completed| == |s.completed| && t.completed[i] >= s.completed[i]
  {
    if a.Publish? {
      var k, r := OwnSlot(c, s, a.w);
    } else {
      CountersKept(c, s, a);
    }
  }

  lemma CountersKept(c: Config, s: State, a: Action)
    requires Shape(s) && Enabled(c, s, a) && !a.Commit? && !a.Publish?
    ensures Apply(c, s, a).completed == s.completed
  {
  }

  /** No slot is worth splitting, and no thief is past its scan. */
  predicate Spent(c: Config, s: State)
    requires Shape(s)
  {
    && (s.mu.Free? || (s.mu.Scanning? && s.mu.rem < 2 * c.floor))
    && forall i: nat | i < |s.starts| :: Remaining(s, i) < 2 * c.floor
  }

  /** A scan that found nothing worth splitting leaves the run spent exactly when the donors it passed over, whose
      steals this call had undone, are not worth splitting either; otherwise the worker exits too early. */
  lemma FruitlessScanMeansSpent(c: Config, s: State)
    requires Inv(c, s) && Enabled(c, s, ScanDone) && s.mu.rem < 2 * c.floor
    ensures Spent(c, Apply(c, s, ScanDone)) <==> PassedOverSpent(c, s)
  {
    var t := Apply(c, s, ScanDone);
    forall i: nat | i < |t.starts| && i !in s.mu.excluded ensures Remaining(t, i) < 2 * c.floor {
      assert s.ends[i] - (s.starts[i] + s.completed[i]) + 1 <= s.mu.rem;
    }
    forall i: nat | i < |t.starts| ensures Remaining(t, i) == Remaining(s, i) {
    }
  }

  /** The donors the scan passes over have less left than a split needs. */
  predicate PassedOverSpent(c: Config, s: State)
    requires Shape(s) && s.mu.Scanning?
  {
    forall i: nat | i < |s.starts| && i in s.mu.excluded :: Remaining(s, i) < 2 * c.floor
  }

  lemma SpentStep(c: Config, s: State, a: Action)
    requires Inv(c, s) && Spent(c, s) && Enabled(c, s, a)
    ensures var t := Apply(c, s, a); Shape(t) && Spent(c, t) && t.starts == s.starts && t.ends == s.ends
  {
    var t := Apply(c, s, a);
    StepKeepsInv(c, s, a);
    OnlyCommitReshapes(c, s, a);
    SpentMutex(c, s, a);
    forall i: nat | i < |t.starts| ensures Remaining(t, i) < 2 * c.floor {
      RemaindersShrink(c, s, a, i);
    }
  }

  lemma SpentMutex(c: Config, s: State, a: Action)
    requires c.floor > 0 && Shape(s) && Spent(c, s) && Enabled(c, s, a)
    ensures var t := Apply(c, s, a);
      (t.mu.Free? || (t.mu.Scanning? && t.mu.rem < 2 * c.floor)) && t.ends == s.ends && !a.Commit?
  {
    if a.ScanSlot? {
      assert Remaining(s, s.mu.i) == s.ends[s.mu.i] - Frontier(s, s.mu.i) + 1;
    }
  }

  /** Once nothing is stealable nothing ever becomes stealable: no later call of next activates a slot. */
  lemma {:induction false} SpentForever(c: Config, s: State, run: seq<Action>)
    requires Inv(c, s) && Spent(c, s) && ValidRun(c, s, run)
    ensures var t := After(c, s, run); Shape(t) && Spent(c, t) && t.starts == s.starts && t.ends == s.ends
    decreases |run|
  {
    if run == [] {
    } else {
      StepKeepsInv(c, s, run[0]);
      SpentStep(c, s, run[0]);
      SpentForever(c, Apply(c, s, run[0]), run[1..]);
    }
  }

  /** So the worker that exits on a scan that passed over no such donor, none at all for one, is right to: however the
      run goes on, the live layout is final. */
  lemma FruitlessScanIsFinal(c: Config, segs: seq<Segment>, file: seq<byte>, run: seq<Action>, rest: seq<Action>)
    requires Startable(c, segs, file) && ValidRun(c, Init(c, segs, file), run)
    requires var s := After(c, Init(c, segs, file), run);
      && Shape(s) && Enabled(c, s, ScanDone) && s.mu.rem < 2 * c.floor && PassedOverSpent(c, s)
      && ValidRun(c, Apply(c, s, ScanDone), rest)
    ensures var s := After(c, Init(c, segs, file), run); var t := After(c, Apply(c, s, ScanDone), rest);
      t.starts == s.starts && t.ends == s.ends
  {
    ReachableOk(c, segs, file, run);
    var s := After(c, Init(c, segs, file), run);
    FruitlessScanMeansSpent(c, s);
    StepKeepsInv(c, s, ScanDone);
    SpentForever(c, Apply(c, s, ScanDone), rest);
  }

  /** Both pieces of a split hold at least floor bytes the thief saw unfetched, and a donor that has not moved
      since is never undone. */
  lemma SplitIsWorthwhile(c: Config, segs: seq<Segment>, file: seq<byte>, run: seq<Action>)
    requires Startable(c, segs, file) && ValidRun(c, Init(c, segs, file), run)
    requires After(c, Init(c, segs, file), run).mu.Shrunk?
    ensures var s := After(c, Init(c, segs, file), run);
      && s.mu.mid - s.mu.from + 1 >= c.floor && s.mu.oldEnd - s.mu.mid >= c.floor
      && Shape(s) && s.mu.donor < |s.starts|
      && (Frontier(s, s.mu.donor) == s.mu.from ==> Enabled(c, s, Commit))
  {
    ReachableOk(c, segs, file, run);
  }

  // ----- completeness

  /** When every worker has returned and the gate opens, the part file holds the remote bytes, whatever mix of short
      bodies, failed attempts, retries, steals and undone steals led there. */
  lemma GateMeansRemote(c: Config, s: State)
    requires Inv(c, s) && Quiet(s) && |c.remote| > 0
    requires GateOpen(|c.remote|, ActiveSegments(s), s.completed)
    ensures s.file[..|c.remote|] == c.remote
  {
    QuietIsFree(c, s);
    if RowOf(s, 0).Fits() || |s.starts| > 1 {
      CountersFit(c, s);
      SumAtMost(s.starts, s.ends, s.completed);
      forall b | 0 <= b < |c.remote| ensures s.file[b] == c.remote[b] {
        FetchedByte(c, s, b);
      }
    } else {
      assert s.completed[..0] == [];
      assert Sum(s.completed) == Sum(s.completed[..0]) + s.completed[0];
      assert RowOk(c, RowOf(s, 0), true, 0 < |s.handed|);
      assert Agrees(c.remote, s.file, s.starts[0], s.starts[0] + s.wrote[0]);
    }
  }

  /** End to end for one run: whatever the interleaving, workers gone and gate open mean the remote file. */
  lemma StealingRunIsExact(c: Config, segs: seq<Segment>, file: seq<byte>, run: seq<Action>)
    requires Startable(c, segs, file) && ValidRun(c, Init(c, segs, file), run) && |c.remote| > 0
    requires var t := After(c, Init(c, segs, file), run);
      Shape(t) && Quiet(t) && GateOpen(|c.remote|, ActiveSegments(t), t.completed)
    ensures var t := After(c, Init(c, segs, file), run);
      |c.remote| <= |t.file| && t.file[..|c.remote|] == c.remote
  {
    ReachableOk(c, segs, file, run);
    GateMeansRemote(c, After(c, Init(c, segs, file), run));
  }

  lemma QuietIsFree(c: Config, s: State)
    requires Inv(c, s) && Quiet(s)
    ensures s.mu.Free? && Tiled(c.cover, s.starts, s.ends)
  {
    if !s.mu.Free? {
      HolderIsInNext(s.mu, s.workers);
      assert false;
    }
  }

  lemma HolderIsInNext(mu: Mutex, ws: seq<Worker>)
    requires MutexHeld(mu, ws) && !mu.Free?
    ensures mu.who < |ws| && ws[mu.who].InNext?
  {
  }

  lemma CountersFit(c: Config, s: State)
    requires Inv(c, s) && s.mu.Free? && (RowOf(s, 0).Fits() || |s.starts| > 1)
    ensures forall i | 0 <= i < |s.starts| :: 0 <= s.completed[i] <= s.ends[i] - s.starts[i] + 1
  {
    forall i | 0 <= i < |s.starts|
      ensures 0 <= s.completed[i] <= s.ends[i] - s.starts[i] + 1
    {
      assert RowOk(c, RowOf(s, i), |s.starts| == 1, i < |s.handed|);
    }
  }

  lemma FetchedByte(c: Config, s: State, b: int)
    requires Inv(c, s) && s.mu.Free? && Tiled(c.cover, s.starts, s.ends)
    requires forall i | 0 <= i < |s.starts| :: 0 <= s.completed[i] <= s.ends[i] - s.starts[i] + 1
    requires GateOpen(|c.remote|, ActiveSegments(s), s.completed)
    requires Sum(s.completed) <= c.cover == SumSizes(s.starts, s.ends)
    requires 0 <= b < |c.remote|
    ensures s.file[b] == c.remote[b]
  {
    assert Covered(s.starts, s.ends, b);
    var i :| 0 <= i < |s.starts| && Has(s.starts, s.ends, i, b);
    assert ActiveSegments(s)[i].Size() == s.ends[i] - s.starts[i] + 1;
    assert RowOk(c, RowOf(s, i), |s.starts| == 1, i < |s.handed|);
    assert Agrees(c.remote, s.file, s.starts[i], s.starts[i] + s.wrote[i]);
  }

  /** A run whose layout stops short of the file can only pass the gate as a lone row already claiming all of it. */
  lemma ShortLayoutIsRefused(c: Config, s: State)
    requires Inv(c, s) && Quiet(s) && c.cover < |c.remote|
    requires GateOpen(|c.remote|, ActiveSegments(s), s.completed)
    ensures |s.starts| == 1 && s.completed[0] == |c.remote|
  {
    QuietIsFree(c, s);
    if RowOf(s, 0).Fits() || |s.starts| > 1 {
      CountersFit(c, s);
      SumAtMost(s.starts, s.ends, s.completed);
      assert false;
    } else {
      assert s.completed[..0] == [];
      assert Sum(s.completed) == Sum(s.completed[..0]) + s.completed[0];
    }
  }
}
