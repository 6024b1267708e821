/** Histories on the static path that end with a wrong byte: a terminal fsync that fails unnoticed, and a power loss
    after the part file has been renamed (internal/engine/download_run.go:162-191). */
module DurabilityWitness {
  import opened Tiling
  import opened Layout
  import opened Durability
  import W = Protocol

  const ONE: seq<byte> := [7]

  /** A one-byte download on the static path, with one checkpointer. */
  function At(layout: nat, completed: int, pending: int, cache: seq<byte>, disk: seq<byte>, row: int, ever: set<int>,
              proc: Proc, phase: Phase, outs: seq<seq<byte>>): State {
    State([Segment(0, 0, 0, layout)], [completed], [pending], cache, disk, [row], [ever], [proc], phase, outs)
  }

  function Fetching(completed: int, pending: int, cache: byte): State {
    At(0, completed, pending, [cache], [0], 0, {0}, Resting, Running, [])
  }

  /** One more event at the end of a history. */
  lemma {:induction false} Then(remote: seq<byte>, s: State, es: seq<Event>, t: State, e: Event)
    requires ValidHistory(remote, s, es) && AfterAll(remote, s, es) == t && Shape(t) && Enabled(remote, t, e)
    ensures ValidHistory(remote, s, es + [e]) && AfterAll(remote, s, es + [e]) == Step(remote, t, e)
    decreases |es|
  {
    var all := es + [e];
    if es == [] {
      assert all[1..] == [];
      assert ValidHistory(remote, Step(remote, t, e), []);
    } else {
      assert all[0] == es[0] && all[1..] == es[1..] + [e];
      Then(remote, Step(remote, s, es[0]), es[1..], t, e);
    }
  }

  /** Event e leads from s to t. */
  ghost predicate Leads(s: State, e: Event, t: State) {
    Shape(s) && Enabled(ONE, s, e) && Step(ONE, s, e) == t && Shape(t)
  }

  lemma Onward(s: State, es: seq<Event>, t: State, e: Event, u: State) returns (more: seq<Event>)
    requires ValidHistory(ONE, s, es) && AfterAll(ONE, s, es) == t && Leads(t, e, u)
    ensures more == es + [e] && ValidHistory(ONE, s, more) && AfterAll(ONE, s, more) == u
  {
    Then(ONE, s, es, t, e);
    more := es + [e];
  }

  lemma FetchingBegins()
    ensures Begins(ONE, Fetching(0, 0, 0))
  {
  }

  lemma Writes()
    ensures Leads(Fetching(0, 0, 0), Write(0, 1), Fetching(0, 1, 7))
  {
    var file: seq<byte> := [0];
    assert ONE[0..1] == [7];
    assert W.WriteAt(file, 0, [7]) == [7];
  }

  /** The byte is fetched and counted. */
  lemma Fetches() returns (es: seq<Event>)
    ensures var s := Fetching(0, 0, 0); ValidHistory(ONE, s, es) && AfterAll(ONE, s, es) == Fetching(1, 0, 7)
    ensures TerminalSyncsSucceed(es) && es == [] + [Write(0, 1)] + [Publish(0)]
  {
    var s := Fetching(0, 0, 0);
    Writes();
    es := Onward(s, [], s, Write(0, 1), Fetching(0, 1, 7));
    es := Onward(s, es, Fetching(0, 1, 7), Publish(0), Fetching(1, 0, 7));
  }

  // ----- a terminal fsync that fails

  function Ended(cache: byte): State {
    At(0, 1, 0, [cache], [0], 1, {0, 1}, Resting, Down, [])
  }

  /** The run fails; its fsync fails too, but its counter is saved; then the power goes. */
  lemma Fails()
    ensures Leads(Fetching(1, 0, 7), EndRun(false, true), Ended(7))
    ensures Leads(Ended(7), PowerLoss([0], [1]), Ended(0))
  {
    assert Fetching(1, 0, 7).ever[0] + {1} == {0, 1};
  }

  /** A run that trusts its counter over a zero byte passes the gate. */
  function Trusting(outs: seq<seq<byte>>): State {
    At(1, 1, 0, [0], [0], 1, {0, 1}, Resting, Running, outs)
  }

  lemma Trusts(s: State, outs: seq<seq<byte>>)
    requires s == At(0, 1, 0, [0], [0], 1, {0, 1}, Resting, Down, outs)
          || s == At(0, 0, 0, [0], [0], 1, {0, 1}, Resting, Down, outs)
    ensures Leads(s, Resume([Segment(0, 0, 0, 1)]), Trusting(outs))
  {
    assert Stored(s) == [Segment(0, 0, 0, 1)];
    assert Capped([Segment(0, 0, 0, 1)], 1) == [Segment(0, 0, 0, 1)];
    assert IsRepair(1, Stored(s), Stored(s));
  }

  lemma Passes(outs: seq<seq<byte>>)
    ensures Leads(Trusting(outs), Gate, Trusting(outs).(phase := Gated))
    ensures var t := Trusting(outs).(cache := [], disk := [], phase := Emptied([0]), outs := outs + [[0]]);
      Leads(Trusting(outs).(phase := Gated), Rename, t)
  {
    assert Trusting(outs).completed[..0] == [];
    assert Sum(Trusting(outs).completed) == 1;
  }

  /** The wrong byte is put in place. */
  lemma Completes(t: State, outs: seq<seq<byte>>) returns (es: seq<Event>)
    requires t == At(0, 1, 0, [0], [0], 1, {0, 1}, Resting, Down, outs)
          || t == At(0, 0, 0, [0], [0], 1, {0, 1}, Resting, Down, outs)
    ensures ValidHistory(ONE, t, es) && AfterAll(ONE, t, es).outs == outs + [[0]] && TerminalSyncsSucceed(es)
  {
    Trusts(t, outs);
    Passes(outs);
    es := Onward(t, [], t, Resume([Segment(0, 0, 0, 1)]), Trusting(outs));
    es := Onward(t, es, Trusting(outs), Gate, Trusting(outs).(phase := Gated));
    var gone := Trusting(outs).(cache := [], disk := [], phase := Emptied([0]), outs := outs + [[0]]);
    es := Onward(t, es, Trusting(outs).(phase := Gated), Rename, gone);
  }

  lemma NotDurable()
    ensures Shape(Ended(0)) && !RowsDurable(ONE, Ended(0))
  {
    var disk: seq<byte> := [0];
    assert disk[0] == 0 && ONE[0] == 7;
    assert !Durable(ONE, disk, disk, Ended(0).segs[0], Ended(0).rows[0]);
  }

  /** The failing terminal fsync is real: from a fresh download, one fetched byte, a failed run whose fsync fails, and a
      power loss leave a stored counter beyond the durable prefix, and the next run finishes with the wrong byte. */
  lemma LostClaimFinishes() returns (s: State, es: seq<Event>, t: State, rest: seq<Event>)
    ensures Begins(ONE, s) && ValidHistory(ONE, s, es) && AfterAll(ONE, s, es) == t
    ensures es == [] + [Write(0, 1)] + [Publish(0)] + [EndRun(false, true)] + [PowerLoss([0], [1])]
    ensures Shape(t) && !RowsDurable(ONE, t) && ValidHistory(ONE, t, rest)
    ensures AfterAll(ONE, t, rest).outs == [[0]]
  {
    s, t := Fetching(0, 0, 0), Ended(0);
    FetchingBegins();
    Fails();
    es := Fetches();
    es := Onward(s, es, Fetching(1, 0, 7), EndRun(false, true), Ended(7));
    es := Onward(s, es, Ended(7), PowerLoss([0], [1]), t);
    NotDurable();
    rest := Completes(t, []);
  }

  // ----- a power loss after the rename

  /** The checkpointer stores the row, the gate opens, and the part file is renamed. */
  lemma Finishes(s: State, es: seq<Event>) returns (more: seq<Event>)
    requires ValidHistory(ONE, s, es) && AfterAll(ONE, s, es) == Fetching(1, 0, 7)
    ensures ValidHistory(ONE, s, more) && AfterAll(ONE, s, more) == Renamed()
    ensures TerminalSyncsSucceed(es) ==> TerminalSyncsSucceed(more)
  {
    more := Stores(s, es);
    var stored := At(0, 1, 0, [7], [7], 1, {0, 1}, Resting, Running, []);
    assert stored.completed[..0] == [];
    assert Sum(stored.completed) == 1;
    more := Onward(s, more, stored, Gate, stored.(phase := Gated));
    more := Onward(s, more, stored.(phase := Gated), Rename, Renamed());
  }

  function Renamed(): State {
    At(0, 1, 0, [], [], 1, {0, 1}, Resting, Emptied([7]), [[7]])
  }

  /** One round of the checkpointer. */
  function Busy(disk: byte, proc: Proc): State {
    At(0, 1, 0, [7], [disk], 0, {0}, proc, Running, [])
  }

  lemma Reads()
    ensures Leads(Fetching(1, 0, 7), Begin(0, [0]), Busy(0, Reading([0], [])))
    ensures Leads(Busy(0, Reading([0], [])), Read(0), Busy(0, Reading([], [(0, 1)])))
  {
    var s := Busy(0, Reading([0], []));
    assert s.procs[0].todo[1..] == [] && s.procs[0].got + [(0, 1)] == [(0, 1)];
    assert s.procs[0 := Reading([], [(0, 1)])] == [Reading([], [(0, 1)])];
  }

  lemma Syncs()
    ensures Leads(Busy(0, Reading([], [(0, 1)])), Sync(0, true), Busy(7, Synced([(0, 1)])))
    ensures Leads(Busy(7, Synced([(0, 1)])), Persist(0, true), At(0, 1, 0, [7], [7], 1, {0, 1}, Resting, Running, []))
  {
    assert Busy(7, Synced([(0, 1)])).ever[0] + {1} == {0, 1};
  }

  lemma Snapshots(s: State, es: seq<Event>) returns (more: seq<Event>)
    requires ValidHistory(ONE, s, es) && AfterAll(ONE, s, es) == Fetching(1, 0, 7)
    ensures ValidHistory(ONE, s, more) && (TerminalSyncsSucceed(es) ==> TerminalSyncsSucceed(more))
    ensures AfterAll(ONE, s, more) == Busy(0, Reading([], [(0, 1)]))
  {
    Reads();
    more := Onward(s, es, Fetching(1, 0, 7), Begin(0, [0]), Busy(0, Reading([0], [])));
    more := Onward(s, more, Busy(0, Reading([0], [])), Read(0), Busy(0, Reading([], [(0, 1)])));
  }

  lemma Stores(s: State, es: seq<Event>) returns (more: seq<Event>)
    requires ValidHistory(ONE, s, es) && AfterAll(ONE, s, es) == Fetching(1, 0, 7)
    ensures ValidHistory(ONE, s, more) && (TerminalSyncsSucceed(es) ==> TerminalSyncsSucceed(more))
    ensures AfterAll(ONE, s, more) == At(0, 1, 0, [7], [7], 1, {0, 1}, Resting, Running, [])
  {
    more := Snapshots(s, es);
    Syncs();
    var synced := Busy(7, Synced([(0, 1)]));
    more := Onward(s, more, Busy(0, Reading([], [(0, 1)])), Sync(0, true), synced);
    more := Onward(s, more, synced, Persist(0, true), At(0, 1, 0, [7], [7], 1, {0, 1}, Resting, Running, []));
  }

  /** The power goes before the record is saved, and again before the run over the missing part file has stored
      anything. */
  lemma LosesPowerTwice() returns (es: seq<Event>, t: State)
    ensures ValidHistory(ONE, Renamed(), es) && AfterAll(ONE, Renamed(), es) == t && TerminalSyncsSucceed(es)
    ensures t == At(0, 0, 0, [0], [0], 1, {0, 1}, Resting, Down, [[7]])
  {
    var s := Renamed();
    var down := s.(phase := Down);
    var zeros := At(0, 0, 0, [0], [0], 1, {0, 1}, Resting, Running, [[7]]);
    es := Onward(s, [], s, PowerLoss([], [1]), down);
    StartsOver(down, zeros);
    es := Onward(s, es, down, Resume([Segment(0, 0, 0, 0)]), zeros);
    t := zeros.(phase := Down);
    es := Onward(s, es, zeros, PowerLoss([0], [1]), t);
  }

  lemma StartsOver(down: State, zeros: State)
    requires down == Renamed().(phase := Down)
    requires zeros == At(0, 0, 0, [0], [0], 1, {0, 1}, Resting, Running, [[7]])
    ensures Leads(down, Resume([Segment(0, 0, 0, 0)]), zeros)
  {
    assert Stored(down) == [Segment(0, 0, 0, 1)];
    assert Capped([Segment(0, 0, 0, 1)], 0) == [Segment(0, 0, 0, 0)];
    assert IsRepair(1, Stored(down), Stored(down));
  }

  lemma {:induction false} Joined(s: State, first: seq<Event>, second: seq<Event>)
    requires ValidHistory(ONE, s, first) && ValidHistory(ONE, AfterAll(ONE, s, first), second)
    ensures ValidHistory(ONE, s, first + second)
    ensures AfterAll(ONE, s, first + second) == AfterAll(ONE, AfterAll(ONE, s, first), second)
    decreases |first|
  {
    var all := first + second;
    if first == [] {
      assert all == second;
    } else {
      assert all[0] == first[0] && all[1..] == first[1..] + second;
      Joined(Step(ONE, s, first[0]), first[1..], second);
    }
  }

  /** All fsyncs succeed; the power goes between the rename and the saving of the record, and once more; a zero byte is
      put over the good file. The second run leaves a debt, and the third resumes on it. */
  lemma PowerLossAfterRename() returns (s: State, es: seq<Event>)
    ensures Begins(ONE, s) && ValidHistory(ONE, s, es) && AfterAll(ONE, s, es).outs == [[7], [0]]
    ensures TerminalSyncsSucceed(es) && !DebtsPaid(ONE, s, {}, es)
  {
    s := Fetching(0, 0, 0);
    FetchingBegins();
    es := Fetches();
    es := Finishes(s, es);
    var more, t := LosesPowerTwice();
    Joined(s, es, more);
    var rest := Completes(t, [[7]]);
    Joined(s, es + more, rest);
    es := es + more + rest;
    Unpaid(s, es);
  }

  lemma Unpaid(s: State, es: seq<Event>)
    requires Begins(ONE, s) && ValidHistory(ONE, s, es) && AfterAll(ONE, s, es).outs == [[7], [0]]
    requires TerminalSyncsSucceed(es)
    ensures !DebtsPaid(ONE, s, {}, es)
  {
    var wrong: seq<byte> := [0];
    assert ONE[0] != wrong[0] && !(ONE <= wrong);
    if DebtsPaid(ONE, s, {}, es) {
      PowerLossIsExact(ONE, s, es, 1);
    }
  }
}
