/** One lemma per group of the invariant and per kind of change, each assuming only what it needs. */
module ProtocolFrames {
  import opened Tiling
  import opened Protocol
  import opened ProtocolInv

  // ----- dispatch

  lemma DispatchMove(c: Config, n: nat, cursor: nat, mu: Mutex, ws: seq<Worker>, handed: seq<nat>, calls: nat,
                     w: nat, x: Worker)
    requires DispatchOk(c, n, cursor, mu, ws, handed, calls) && w < |ws|
    requires !ws[w].InNext? && !ws[w].Exited? && !x.InNext? && !x.Exited?
    requires SlotOf(x) < 0 || SlotOf(x) == SlotOf(ws[w])
    ensures DispatchOk(c, n, cursor, mu, ws[w := x], handed, calls)
  {
    ExitsUpdate(ws, w, x);
  }

  lemma DispatchSameHolder(c: Config, n: nat, cursor: nat, mu: Mutex, mu': Mutex, ws: seq<Worker>, handed: seq<nat>,
                           calls: nat)
    requires DispatchOk(c, n, cursor, mu, ws, handed, calls)
    requires !mu.Free? && !mu'.Free? && mu'.who == mu.who
    ensures DispatchOk(c, n, cursor, mu', ws, handed, calls)
  {
  }

  lemma DispatchAcquire(c: Config, n: nat, cursor: nat, ws: seq<Worker>, handed: seq<nat>, calls: nat, w: nat,
                        mu': Mutex)
    requires DispatchOk(c, n, cursor, Free, ws, handed, calls) && w < |ws| && ws[w].Idle? && cursor >= c.initial
    requires !mu'.Free? && mu'.who == w
    ensures DispatchOk(c, n, cursor, mu', ws[w := InNext], handed, calls + 1)
  {
    ExitsUpdate(ws, w, InNext);
  }

  lemma DispatchExit(c: Config, n: nat, cursor: nat, ws: seq<Worker>, handed: seq<nat>, calls: nat, w: nat)
    requires DispatchOk(c, n, cursor, Free, ws, handed, calls) && w < |ws| && ws[w].Idle?
    ensures DispatchOk(c, n, cursor, Free, ws[w := Exited], handed, calls + 1)
  {
    ExitsUpdate(ws, w, Exited);
  }

  lemma DispatchRelease(c: Config, n: nat, cursor: nat, mu: Mutex, ws: seq<Worker>, handed: seq<nat>, calls: nat)
    requires DispatchOk(c, n, cursor, mu, ws, handed, calls) && !mu.Free?
    ensures DispatchOk(c, n, cursor, Free, ws[mu.who := Exited], handed, calls)
  {
    ExitsUpdate(ws, mu.who, Exited);
  }

  lemma DispatchInitial(c: Config, n: nat, cursor: nat, ws: seq<Worker>, handed: seq<nat>, calls: nat, w: nat)
    requires DispatchOk(c, n, cursor, Free, ws, handed, calls) && w < |ws| && ws[w].Idle? && cursor < c.initial
    ensures DispatchOk(c, n, cursor + 1, Free, ws[w := Enter(cursor)], handed + [cursor], calls + 1)
  {
    ExitsUpdate(ws, w, Enter(cursor));
  }

  lemma DispatchCommit(c: Config, n: nat, cursor: nat, mu: Mutex, ws: seq<Worker>, handed: seq<nat>, calls: nat)
    requires DispatchOk(c, n, cursor, mu, ws, handed, calls) && !mu.Free? && cursor == c.initial
    ensures DispatchOk(c, n + 1, cursor, Free, ws[mu.who := Enter(n)], handed + [n], calls)
  {
    ExitsUpdate(ws, mu.who, Enter(n));
  }

  // ----- rows and program points

  /** Rows and workers are as before, except perhaps one worker that now holds no slot. */
  lemma SameRows(c: Config, s: State, t: State, who: nat)
    requires Shape(s) && RowsOk(c, s) && WorkersOk(c, s)
    requires Shape(t) && |t.starts| == |s.starts| && t.handed == s.handed
    requires forall k: nat | k < |s.starts| :: RowOf(t, k) == RowOf(s, k)
    requires who < |s.workers| && |t.workers| == |s.workers| && WorkerOk(c, s, t.workers[who])
    requires forall v | 0 <= v < |s.workers| && v != who :: t.workers[v] == s.workers[v]
    ensures RowsOk(c, t) && WorkersOk(c, t)
  {
  }

  /** r2 is r1 with its window opened or closed; closing one by undo is counted. */
  predicate Rewindowed(r1: Row, r2: Row) {
    && r2 == r1.(end := r2.end, undos := r2.undos, open := r2.open)
    && r1.undos <= r2.undos
    && (r1.open ==> r2.undos > r1.undos)
  }

  lemma WindowRows(c: Config, s: State, t: State)
    requires Shape(s) && RowsOk(c, s) && WorkersOk(c, s)
    requires Shape(t) && |t.starts| == |s.starts| && t.workers == s.workers && t.handed == s.handed
    requires forall k: nat | k < |s.starts| :: RowOf(t, k) == RowOf(s, k) || Rewindowed(RowOf(s, k), RowOf(t, k))
    ensures RowsOk(c, t) && WorkersOk(c, t)
  {
  }

  // ----- one slot

  /** Inside a window the live End is the tentative one, below what an undo would restore. */
  lemma EndOfRow(c: Config, s: State, k: nat)
    requires Shape(s) && k < |s.starts|
    requires MuOk(c, s.mu, s.cursor, s.settled, s.starts, s.ends, s.completed)
    ensures RowOf(s, k).end <= RowOf(s, k).eff
    ensures !RowOf(s, k).open ==> RowOf(s, k).end == RowOf(s, k).eff
  {
  }

  lemma LoadPc(c: Config, r: Row, k: nat, att: nat, reqEnd: int, len: int, lone: bool)
    requires RowOk(c, r, lone, true) && PcOk(c, r, Stream(k, att, reqEnd))
    requires r.end <= r.eff && (!r.open ==> r.end == r.eff)
    requires 1 <= len <= c.margin && r.Frontier() + len - 1 <= reqEnd
    ensures r.end - r.Frontier() + 1 <= 0 ==> PcOk(c, r, Clipped(k, att, r.end))
    ensures r.end - r.Frontier() + 1 > 0 ==> PcOk(c, r, Loaded(k, att, reqEnd, len, r.end))
  {
  }

  lemma CommitPc(c: Config, r: Row, w: Worker, oldEnd: int, lone: bool, handed: bool)
    requires RowOk(c, r, lone, handed) && r.open && r.eff == oldEnd && r.end < oldEnd
    requires r.Frontier() <= r.end - c.margin
    ensures var q := r.(eff := r.end, open := false);
      RowOk(c, q, false, handed) && (PcOk(c, r, w) ==> PcOk(c, q, w))
  {
  }

  // ----- the mutex holder

  lemma ScanSlotMu(c: Config, s: State)
    requires Shape(s) && s.mu.Scanning? && s.mu.i < |s.starts|
    requires MuOk(c, s.mu, s.cursor, s.settled, s.starts, s.ends, s.completed)
    requires SettledOk(s.settled, s.starts, s.ends, s.completed)
    requires s.completed[s.mu.i] >= 0
    ensures MuOk(c, DoScanSlot(s).mu, s.cursor, s.settled, s.starts, s.ends, s.completed)
  {
  }
}
