/** What the steps of a run do, in plain numbers: when a worker gives up, whom a thief robs and of how much, and that a
    run never gets stuck (internal/engine/segment.go:40-125, internal/engine/steal.go:103-180). */
module ProtocolMoves {
  import opened Tiling
  import opened Protocol
  import opened ProtocolInv
  import opened ProtocolSteps
  import opened ProtocolFacts

  // ----- the retry budget

  /** A step in which an attempt of worker w ends without having filled its segment. */
  predicate EndsAttempt(s: State, a: Action, w: nat)
    requires Shape(s)
  {
    && On(s, w)
    && match a
       case Retry(v) => v == w
       case Eof(v) => v == w && s.workers[w].Stream? && !Covers(s, SlotOf(s.workers[w]))
       case Publish(v) => v == w && s.workers[w].Written? && s.workers[w].how.IoError?
       case _ => false
  }

  /** The slot has a size, and its counter reaches it. */
  predicate Covers(s: State, k: nat)
    requires Shape(s) && k < |s.starts|
  {
    s.ends[k] >= 0 && s.starts[k] + s.completed[k] > s.ends[k]
  }

  /** An attempt that did not fill its segment is followed by another until 1 + MaxRetries of them have been made, not
      counting those that an undone steal made free; only then does the worker give up. */
  lemma GivesUpExactly(c: Config, segs: seq<Segment>, file: seq<byte>, run: seq<Action>, a: Action, w: nat)
    requires Startable(c, segs, file) && ValidRun(c, Init(c, segs, file), run)
    requires var s := After(c, Init(c, segs, file), run); Shape(s) && Enabled(c, s, a) && EndsAttempt(s, a, w)
    ensures var s := After(c, Init(c, segs, file), run); var k := SlotOf(s.workers[w]);
      var x := Apply(c, s, a).workers[w];
      if s.iters[k] == c.retries + 1 + s.frees[k] then x == Failed else x.Attempt? && x.slot == k
  {
    ReachableOk(c, segs, file, run);
    var k, r := OwnSlot(c, After(c, Init(c, segs, file), run), w);
  }

  /** And a worker gives up for no other reason, short of being cancelled, than that a failed flush had already filled
      its segment: filling up to an End that a thief took back, in particular, costs it nothing. */
  lemma FailsOnlyThen(c: Config, segs: seq<Segment>, file: seq<byte>, run: seq<Action>, a: Action, w: nat)
    requires Startable(c, segs, file) && ValidRun(c, Init(c, segs, file), run)
    requires var s := After(c, Init(c, segs, file), run);
      && Shape(s) && Enabled(c, s, a) && w < |s.workers| && w < |Apply(c, s, a).workers|
      && !s.workers[w].Failed? && Apply(c, s, a).workers[w].Failed?
    ensures var s := After(c, Init(c, segs, file), run);
      || a == Abort(w)
      || EndsAttempt(s, a, w)
      || (a == Open(w) && On(s, w) && s.starts[SlotOf(s.workers[w])] + s.completed[SlotOf(s.workers[w])]
                                      > s.ends[SlotOf(s.workers[w])])
  {
    var s := After(c, Init(c, segs, file), run);
    match a
    case Eof(v) =>
    case Retry(v) =>
    case Publish(v) =>
    case Abort(v) =>
    case _ => OthersNeverFail(c, s, a, w);
  }

  lemma OthersNeverFail(c: Config, s: State, a: Action, w: nat)
    requires Shape(s) && Enabled(c, s, a) && !a.Eof? && !a.Retry? && !a.Publish? && a != Abort(w)
    requires w < |s.workers| && w < |Apply(c, s, a).workers|
    requires !s.workers[w].Failed? && Apply(c, s, a).workers[w].Failed?
    ensures a == Open(w) && On(s, w) && s.starts[SlotOf(s.workers[w])] + s.completed[SlotOf(s.workers[w])]
                                        > s.ends[SlotOf(s.workers[w])]
  {
  }

  /** Opening an attempt asks for everything from the first unfetched byte to the End as it stands, and counts it. */
  lemma AsksForTheRest(c: Config, s: State, w: nat)
    requires Shape(s) && Enabled(c, s, Open(w))
    requires var k := SlotOf(s.workers[w]); s.starts[k] + s.completed[k] <= s.ends[k]
    ensures var k := SlotOf(s.workers[w]); var t := Apply(c, s, Open(w));
      && |t.workers| == |s.workers| && t.workers[w].Stream? && t.workers[w].slot == k
      && t.workers[w].reqEnd == s.ends[k] && t.workers[w].attempt == s.workers[w].attempt
      && t.completed == s.completed && t.iters == s.iters[k := s.iters[k] + 1]
  {
  }

  // ----- a flush

  /** A flush of len bytes loads the End; unless nothing is left before it, it will write up to it and no further. */
  lemma LoadsTheEnd(c: Config, s: State, w: nat, len: int)
    requires Shape(s) && Enabled(c, s, Load(w, len))
    ensures var k := SlotOf(s.workers[w]); var room := s.ends[k] - (s.starts[k] + s.completed[k]) + 1;
      var x := Apply(c, s, Load(w, len)).workers[w];
      if room <= 0 then x == Clipped(k, s.workers[w].attempt, s.ends[k])
      else x == Loaded(k, s.workers[w].attempt, s.workers[w].reqEnd, len, s.ends[k])
  {
  }

  /** A buffer can be written in full up to the End that was loaded, and unless the write fails it is; the bytes land at
      the first unfetched one. */
  lemma WritesUpToIt(c: Config, s: State, w: nat, n: int)
    requires Inv(c, s) && On(s, w) && s.workers[w].Loaded?
    requires var x := s.workers[w]; var room := x.end - (s.starts[x.slot] + s.completed[x.slot]) + 1;
      n == if x.len < room then x.len else room
    ensures Enabled(c, s, WriteBytes(w, n))
    ensures var x := s.workers[w]; var pos := s.starts[x.slot] + s.completed[x.slot];
      var t := Apply(c, s, WriteBytes(w, n));
      && 0 <= pos <= pos + n <= |t.file| && pos + n <= |c.remote| && t.file[pos..pos + n] == c.remote[pos..pos + n]
      && t.workers[w] == Written(x.slot, x.attempt, x.reqEnd, n, if x.len < x.end - pos + 1 then More else Clip, x.end)
  {
    var k, r := OwnSlot(c, s, w);
    assert Enabled(c, s, WriteBytes(w, n));
    BytesLand(c, s, w, n);
  }

  lemma BytesLand(c: Config, s: State, w: nat, n: int)
    requires Shape(s) && Enabled(c, s, WriteBytes(w, n))
    ensures var x := s.workers[w]; var pos := s.starts[x.slot] + s.completed[x.slot];
      var t := Apply(c, s, WriteBytes(w, n));
      && |t.file| == |s.file| && t.file[pos..pos + n] == c.remote[pos..pos + n]
      && t.workers[w] == Written(x.slot, x.attempt, x.reqEnd, n,
           if n < x.len && n < x.end - pos + 1 then IoError else if x.len < x.end - pos + 1 then More else Clip, x.end)
  {
  }

  /** What was written is counted, and the stream goes on unless it was clipped or the write failed. */
  lemma CountsWhatItWrote(c: Config, s: State, w: nat)
    requires Shape(s) && Enabled(c, s, Publish(w))
    ensures var x := s.workers[w]; var t := Apply(c, s, Publish(w));
      && t.completed == s.completed[x.slot := s.completed[x.slot] + x.n]
      && (x.how.More? ==> t.workers[w] == Stream(x.slot, x.attempt, x.reqEnd))
      && (x.how.Clip? ==> t.workers[w] == Clipped(x.slot, x.attempt, x.end))
  {
  }

  /** A worker that filled up to an End it had loaded is done if, with no thief about, that was the real one, and
      otherwise begins the same attempt anew. */
  lemma SettlesOrGoesOn(c: Config, s: State, w: nat)
    requires Shape(s) && Enabled(c, s, Settle(w))
    ensures var k := SlotOf(s.workers[w]); var x := Apply(c, s, Settle(w)).workers[w];
      if s.starts[k] + s.completed[k] > s.ends[k] then x == Idle else x == Attempt(k, s.workers[w].attempt)
  {
  }

  /** A connection can fail or a body end after any byte, a buffer hold any part of what the body still has, and a
      cancellation be seen wherever a worker waits. */
  lemma TroubleAnywhere(c: Config, s: State, w: nat, len: int)
    requires Inv(c, s) && w < |s.workers|
    ensures s.workers[w].Stream? ==> Enabled(c, s, Retry(w)) && Enabled(c, s, Eof(w))
    ensures s.workers[w].Clipped? ==> Enabled(c, s, Retry(w))
    ensures var x := s.workers[w];
      x.Stream? && 1 <= len <= c.margin ==>
        && x.slot < |s.starts|
        && (Enabled(c, s, Load(w, len)) <==> s.starts[x.slot] + s.completed[x.slot] + len <= x.reqEnd + 1)
    ensures var x := s.workers[w];
      Enabled(c, s, Abort(w)) <==> x.Idle? || x.Attempt? || x.Stream? || x.Clipped?
  {
    assert WorkerOk(c, s, s.workers[w]);
  }

  /** A write can stop after any of its bytes. */
  lemma WritesStopAnywhere(c: Config, s: State, w: nat, n: int)
    requires Inv(c, s) && On(s, w) && s.workers[w].Loaded?
    ensures var x := s.workers[w];
      Enabled(c, s, WriteBytes(w, n)) <==>
        0 <= n <= x.len && s.starts[x.slot] + s.completed[x.slot] + n <= x.end + 1
  {
    var k, r := OwnSlot(c, s, w);
  }

  // ----- the thief

  /** A scan goes on to a split exactly if some slot it did not pass over had twice the floor left, and then robs one
      that no other of them exceeds. */
  lemma RobsTheFattest(c: Config, s: State)
    requires Inv(c, s) && Enabled(c, s, ScanDone)
    ensures var t := Apply(c, s, ScanDone); t.mu.Chosen? <==> s.mu.rem >= 2 * c.floor
    ensures var t := Apply(c, s, ScanDone);
      if t.mu.Chosen? then
        && t.mu.donor < |s.starts| && t.mu.donor !in s.mu.excluded
        && s.ends[t.mu.donor] - t.mu.from + 1 == t.mu.rem
        && forall j | 0 <= j < |s.starts| && j !in s.mu.excluded ::
             s.ends[j] - (s.starts[j] + s.completed[j]) + 1 <= t.mu.rem
      else
        t.mu.Free? && t.workers == s.workers[s.mu.who := Exited]
  {
  }

  /** The split leaves the donor half of what the thief saw, rounded down, and is undone exactly when the donor has come
      within one buffer of it. */
  lemma SplitsInHalf(c: Config, s: State)
    requires Inv(c, s) && s.mu.Shrunk?
    ensures var kept, taken := s.mu.mid - s.mu.from + 1, s.mu.oldEnd - s.mu.mid; kept <= taken <= kept + 1
    ensures s.mu.donor < |s.starts| && s.ends[s.mu.donor] == s.mu.mid
    ensures Enabled(c, s, Recheck) <==> s.starts[s.mu.donor] + s.completed[s.mu.donor] + c.margin > s.mu.mid
    ensures Enabled(c, s, Commit) <==> s.starts[s.mu.donor] + s.completed[s.mu.donor] + c.margin <= s.mu.mid
  {
    if !s.mu.Free? { HolderIsInNext(s.mu, s.workers); }
  }

  // ----- progress

  /** A run never gets stuck: unless every worker has returned, some step other than a cancellation can be taken. */
  lemma NeverStuck(c: Config, segs: seq<Segment>, file: seq<byte>, run: seq<Action>) returns (a: Action)
    requires Startable(c, segs, file) && ValidRun(c, Init(c, segs, file), run)
    requires var s := After(c, Init(c, segs, file), run); Shape(s) && !Quiet(s)
    ensures var s := After(c, Init(c, segs, file), run); Shape(s) && Enabled(c, s, a) && !a.Abort?
  {
    ReachableOk(c, segs, file, run);
    var s := After(c, Init(c, segs, file), run);
    if !s.mu.Free? {
      a := ThiefMoves(c, s);
    } else {
      var w :| 0 <= w < |s.workers| && !s.workers[w].Exited? && !s.workers[w].Failed?;
      a := WorkerMoves(c, s, w);
    }
  }

  lemma ThiefMoves(c: Config, s: State) returns (a: Action)
    requires Inv(c, s) && !s.mu.Free?
    ensures Enabled(c, s, a) && !a.Abort?
  {
    HolderIsInNext(s.mu, s.workers);
    match s.mu
    case Scanning(_, _, i, _, _, _) => a := if i < |s.starts| then ScanSlot else ScanDone;
    case Chosen(_, _, _, _, _) => a := Shrink;
    case Shrunk(_, _, d, _, _, mid) => a := if MustUndo(Frontier(s, d), mid, c.margin) then Recheck else Commit;
    case Undoing(_, _, _, _) => a := Undo;
  }

  lemma WorkerMoves(c: Config, s: State, w: nat) returns (a: Action)
    requires Inv(c, s) && s.mu.Free? && w < |s.workers| && !s.workers[w].Exited? && !s.workers[w].Failed?
    ensures Enabled(c, s, a) && !a.Abort?
  {
    assert WorkerOk(c, s, s.workers[w]);
    match s.workers[w]
    case Idle => a := if s.cursor < c.initial then NextInitial(w) else NextSteal(w);
    case Enter(_) => a := EnterSegment(w);
    case Attempt(_, _) => a := Open(w);
    case Stream(_, _, _) => a := Eof(w);
    case Loaded(_, _, _, _, _) =>
      var k, r := OwnSlot(c, s, w);
      a := WriteBytes(w, 0);
    case Written(_, _, _, _, _, _) => a := Publish(w);
    case Clipped(_, _, _) => a := Settle(w);
  }
}
