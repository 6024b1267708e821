/** Streaming a body into the part file (internal/engine/segment.go, internal/engine/copy.go): the offset writer, the
    progress writer that clips at the slot's live End, the copy loop, and the two retry loops around it. */
module Streaming {
  import opened Tiling
  import opened Layout
  import P = ProtocolInv

  // ----- the outside

  /** Everything that may go wrong outside the part file: the server, the connection, the limiters, the watchdog. */
  class World {
    ghost var troubles: nat      // how often something has gone wrong
    ghost var stopped: bool      // the context has been seen cancelled

    method Goes() returns (well: bool)
      modifies this`troubles
      ensures troubles == if well then old(troubles) else old(troubles) + 1
    {
      well := *;
      troubles := if well then troubles else troubles + 1;
    }

    method Cancelled() returns (yes: bool)
      modifies this`stopped
      ensures stopped == (old(stopped) || yes)
    {
      yes := *;
      stopped := stopped || yes;
    }
  }

  // ----- writers

  /** Appends to a tracked offset of the part file. */
  class OffsetWriter {
    const f: PartFile
    var off: nat

    constructor (f: PartFile, off: nat)
      ensures this.f == f && this.off == off
    {
      this.f, this.off := f, off;
    }

    method Write(b: seq<byte>) returns (n: nat, failed: bool)
      modifies this, f
      ensures n <= |b| && (!failed ==> n == |b|) && off == old(off) + n
      ensures f.content == Overlay(old(f.content), old(off), b[..n])
      ensures f.failures == if failed then old(f.failures) + 1 else old(f.failures)
    {
      n, failed := f.WriteAt(b, off);
      off := off + n;
    }
  }

  /** A slot's live End, which thieves move, and its counter, which only its own worker advances. */
  class Slot {
    var end: int
    var completed: int
    ghost var had: seq<int>    // the Ends it has had, each time a thief may have come by

    /** A thief shrinks the End, or gives it back, or leaves it. */
    method Interfere()
      modifies this`end, this`had
      ensures had == old(had) + [end]
    {
      end := *;
      had := had + [end];
    }
  }

  /** How a write or a copy ended: without an error, with one, or filled up to the live End. */
  datatype Outcome = Fine | Failed | Stolen

  class ProgressWriter {
    const dst: OffsetWriter
    const slot: Slot
    const world: World
    const live: bool      // a work-stealing run, whose Ends move
    const start: nat
    const base: nat       // completed bytes when this stream began
    var written: nat

    ghost predicate Valid()
      reads this, dst, slot
    {
      dst.off == start + base + written && slot.completed == base + written
    }

    constructor (f: PartFile, slot: Slot, world: World, live: bool, start: nat)
      requires slot.completed >= 0
      ensures Valid() && fresh(dst) && dst.f == f && this.slot == slot && this.world == world
      ensures this.live == live && this.start == start
      ensures written == 0 && base == slot.completed
    {
      dst := new OffsetWriter(f, start + slot.completed);
      this.slot, this.world, this.live, this.start := slot, world, live, start;
      base, written := slot.completed, 0;
    }

    /** One flush. `loaded` is the End the flush saw: nothing is written beyond it, whatever the End is by now; the
        flush reports Stolen exactly when it has filled up to it, Fine only short of it, and Failed exactly when the
        limiter or the file let it down. Without trouble it writes all the buffer that fits. */
    method Write(b: seq<byte>) returns (n: nat, how: Outcome, ghost loaded: int)
      requires Valid()
      modifies this`written, slot, dst, dst.f, world`troubles
      ensures Valid() && n <= |b| && written == old(written) + n
      ensures old(world.troubles) <= world.troubles && old(dst.f.failures) <= dst.f.failures
      ensures how.Failed? <==> world.troubles > old(world.troubles) || dst.f.failures > old(dst.f.failures)
      ensures live && !how.Failed? ==> var room := loaded - (start + old(slot.completed)) + 1;
        n == if room <= 0 then 0 else if |b| < room then |b| else room
      ensures dst.f.content == Overlay(old(dst.f.content), old(dst.off), b[..n])
      ensures how.Fine? ==> n == |b|
      ensures old(slot.had) <= slot.had
      ensures live && !how.Failed? ==> |old(slot.had)| < |slot.had| && loaded == slot.had[|old(slot.had)|]
      ensures !live ==> slot.end == old(slot.end) && !how.Stolen?
      ensures live && n > 0 ==> start + slot.completed <= loaded + 1
      ensures live && how.Fine? ==> start + slot.completed <= loaded
      ensures how.Stolen? ==> start + slot.completed >= loaded + 1
      ensures live && how.Stolen? && start + old(slot.completed) <= loaded + 1 ==> start + slot.completed == loaded + 1
    {
      loaded := slot.end;
      var admitted := world.Goes();   // the rate limiters, which give up only when the context is cancelled
      if !admitted {
        return 0, Failed, slot.end;
      }
      var failed;
      if live {
        slot.Interfere();
        loaded := slot.end;
        var room := (slot.end - start + 1) - (base + written);
        slot.Interfere();
        if room <= 0 {
          return 0, Stolen, loaded;
        }
        if |b| >= room {
          n, failed := dst.Write(b[..room]);
          assert b[..room][..n] == b[..n];
          if n > 0 {
            written := written + n;
            slot.completed := base + written;
          }
          if failed {
            return n, Failed, loaded;
          }
          return n, Stolen, loaded;
        }
      }
      n, failed := dst.Write(b);
      if n > 0 {
        written := written + n;
        slot.completed := base + written;
      }
      how := if failed then Failed else Fine;
    }
  }

  // ----- the copy loop

  /** The bytes a response will deliver, in whatever chunks, before it ends or breaks off. */
  class Body {
    const all: seq<byte>
    const world: World
    var pos: nat
    ghost var broken: bool    // a read has failed

    ghost predicate Valid() reads this { pos <= |all| }

    constructor (all: seq<byte>, world: World)
      ensures Valid() && this.all == all && this.world == world && pos == 0 && !broken
    {
      this.all, this.world, pos, broken := all, world, 0, false;
    }

    method Read(most: nat) returns (chunk: seq<byte>, eof: bool, failed: bool)
      requires Valid() && most >= 1
      modifies this, world`troubles
      ensures world.troubles == if failed then old(world.troubles) + 1 else old(world.troubles)
      ensures broken == (old(broken) || failed)
      ensures Valid() && old(pos) <= pos && chunk == all[old(pos)..pos] && |chunk| <= most
      ensures eof ==> !failed && pos == |all|
      ensures !eof && !failed ==> chunk != []
    {
      var well := world.Goes();
      failed := !well;
      broken := broken || failed;
      var left := |all| - pos;
      var n :| 0 <= n <= left && n <= most && (failed || n > 0 || left == 0);
      chunk := all[pos..pos + n];
      pos := pos + n;
      eof := !failed && pos == |all|;
    }
  }

  lemma OverlayTwice(file: seq<byte>, off: nat, a: seq<byte>, b: seq<byte>)
    ensures Overlay(Overlay(file, off, a), off + |a|, b) == Overlay(file, off, a + b)
  {
    if a == [] {
      assert a + b == b;
    } else if b == [] {
      assert a + b == a;
    } else {
      var mid := Overlay(file, off, a);
      var r, t := Overlay(mid, off + |a|, b), Overlay(file, off, a + b);
      assert |r| == |t|;
      forall p | 0 <= p < |r|
        ensures r[p] == t[p]
      {
        if p < |mid| { OverlayByte(file, off, a, p); }
        OverlayByte(file, off, a + b, p);
        OverlayByte(mid, off + |a|, b, p);
      }
    }
  }

  /** The first `copied` bytes of the body are in the file, and nothing else happened to it. */
  ghost predicate Delivered(was: seq<byte>, now: seq<byte>, off: nat, all: seq<byte>, copied: nat) {
    copied <= |all| && now == Overlay(was, off, all[..copied])
  }

  lemma TakeMore(s: seq<byte>, i: nat, to: nat, n: nat)
    requires i + n <= to <= |s|
    ensures s[..i + n] == s[..i] + s[i..to][..n] && |s[..i]| == i
  {
  }

  lemma MoreCopied(was: seq<byte>, before: seq<byte>, after: seq<byte>, off: nat, all: seq<byte>, copied: nat, to: nat,
                   chunk: seq<byte>, n: nat)
    requires Delivered(was, before, off, all, copied)
    requires copied <= to <= |all| && chunk == all[copied..to] && n <= |chunk|
    requires after == Overlay(before, off + copied, chunk[..n])
    ensures Delivered(was, after, off, all, copied + n)
  {
    var a, b := all[..copied], chunk[..n];
    TakeMore(all, copied, to, n);
    OverlayTwice(was, off, a, b);
  }

  /** Nothing has gone wrong since the counts were these. */
  ghost predicate Smooth(dst: ProgressWriter, troubles: nat, failures: nat)
    reads dst, dst.world, dst.dst, dst.dst.f
  {
    dst.world.troubles == troubles && dst.dst.f.failures == failures
  }

  /** How often something has gone wrong, outside or with the file. */
  ghost function Faults(dst: ProgressWriter): nat
    reads dst, dst.world, dst.dst, dst.dst.f
  {
    dst.world.troubles + dst.dst.f.failures
  }

  /** The counter has reached an End that the slot has had since there were `from` of them. */
  ghost predicate Reached(dst: ProgressWriter, from: nat)
    reads dst, dst.slot
  {
    exists k | from <= k < |dst.slot.had| :: dst.start + dst.slot.completed > dst.slot.had[k]
  }

  /** Writes all[pos..to] behind all[..pos]. */
  method WriteChunk(dst: ProgressWriter, chunk: seq<byte>, ghost was: seq<byte>, ghost at: nat, ghost all: seq<byte>,
                    ghost pos: nat, ghost to: nat)
    returns (n: nat, how: Outcome)
    requires dst.Valid() && dst.dst.off == at + pos && pos <= to <= |all| && chunk == all[pos..to]
    requires Delivered(was, dst.dst.f.content, at, all, pos)
    modifies dst`written, dst.slot, dst.dst, dst.dst.f, dst.world`troubles
    ensures Smooth(dst, old(dst.world.troubles), old(dst.dst.f.failures)) <==> !how.Failed?
    ensures old(dst.world.troubles) <= dst.world.troubles && old(dst.dst.f.failures) <= dst.dst.f.failures
    ensures dst.Valid() && dst.written == old(dst.written) + n && dst.dst.off == at + pos + n
    ensures pos + n <= |all| && Delivered(was, dst.dst.f.content, at, all, pos + n)
    ensures how.Fine? ==> n == |chunk|
    ensures old(dst.slot.had) <= dst.slot.had && (how.Stolen? ==> Reached(dst, |old(dst.slot.had)|))
    ensures !dst.live ==> dst.slot.end == old(dst.slot.end) && !how.Stolen?
  {
    ghost var before := dst.dst.f.content;
    ghost var loaded;
    n, how, loaded := dst.Write(chunk);
    MoreCopied(was, before, dst.dst.f.content, at, all, pos, to, chunk, n);
  }

  /** One buffer: read, then write what was read before looking at why the read stopped. */
  method CopyBuffer(dst: ProgressWriter, src: Body, bufLen: nat, ghost was: seq<byte>, ghost at: nat)
    returns (n: nat, how: Outcome, ended: bool)
    requires dst.Valid() && src.Valid() && bufLen >= 1 && dst.dst.off == at + src.pos && src.world == dst.world
    requires !src.broken
    requires Delivered(was, dst.dst.f.content, at, src.all, src.pos)
    modifies dst`written, dst.slot, dst.dst, dst.dst.f, src, dst.world`troubles
    ensures old(dst.world.troubles) <= dst.world.troubles && old(dst.dst.f.failures) <= dst.dst.f.failures
    ensures how.Failed? ==> ended && !Smooth(dst, old(dst.world.troubles), old(dst.dst.f.failures))
    ensures how.Fine? ==> Smooth(dst, old(dst.world.troubles), old(dst.dst.f.failures))
    ensures dst.Valid() && src.Valid() && dst.written == old(dst.written) + n && dst.dst.off == at + old(src.pos) + n
    ensures Delivered(was, dst.dst.f.content, at, src.all, old(src.pos) + n)
    ensures !ended ==> how.Fine? && old(src.pos) < src.pos == old(src.pos) + n
    ensures src.broken ==> ended
    ensures src.broken && !how.Stolen? && Faults(dst) <= old(Faults(dst)) + 1 ==> src.pos == old(src.pos) + n
    ensures ended && how.Fine? ==> old(src.pos) + n == |src.all|
    ensures old(dst.slot.had) <= dst.slot.had && (how.Stolen? ==> ended && Reached(dst, |old(dst.slot.had)|))
    ensures !dst.live ==> dst.slot.end == old(dst.slot.end) && !how.Stolen?
  {
    var chunk, eof, failed := src.Read(bufLen);
    if chunk == [] {
      return 0, if failed then Failed else Fine, failed || eof;
    }
    n, how := WriteChunk(dst, chunk, was, at, src.all, old(src.pos), src.pos);
    if !how.Fine? {
      return n, how, true;
    }
    return n, if failed then Failed else Fine, failed || eof;
  }

  /** What reached the file is a prefix of the body, at the stream's own offset. All of it is there when the copy ends
      without an error; it ends with one only if something went wrong, and as stolen only at an End the slot has had
      meanwhile. */
  method CopySegment(dst: ProgressWriter, src: Body, bufLen: nat) returns (copied: nat, how: Outcome)
    requires dst.Valid() && src.Valid() && src.pos == 0 && !src.broken && bufLen >= 1 && src.world == dst.world
    modifies dst`written, dst.slot, dst.dst, dst.dst.f, src, dst.world`troubles
    ensures old(dst.world.troubles) <= dst.world.troubles && old(dst.dst.f.failures) <= dst.dst.f.failures
    ensures how.Failed? ==> !Smooth(dst, old(dst.world.troubles), old(dst.dst.f.failures))
    ensures how.Fine? ==> Smooth(dst, old(dst.world.troubles), old(dst.dst.f.failures))
    ensures dst.Valid() && dst.written == old(dst.written) + copied
    ensures Delivered(old(dst.dst.f.content), dst.dst.f.content, old(dst.dst.off), src.all, copied)
    ensures how.Fine? ==> copied == |src.all|
    ensures how.Stolen? ==> Reached(dst, |old(dst.slot.had)|)
    // What was read before the connection broke is written, unless that goes wrong, too.
    ensures src.broken && !how.Stolen? && Faults(dst) <= old(Faults(dst)) + 1 ==> copied == src.pos
    ensures !dst.live ==> dst.slot.end == old(dst.slot.end) && !how.Stolen?
  {
    copied := 0;
    while true
      invariant dst.Valid() && src.Valid() && copied == src.pos && dst.written == old(dst.written) + copied
      invariant dst.dst.off == old(dst.dst.off) + copied
      invariant Delivered(old(dst.dst.f.content), dst.dst.f.content, old(dst.dst.off), src.all, copied)
      invariant !dst.live ==> dst.slot.end == old(dst.slot.end)
      invariant old(dst.slot.had) <= dst.slot.had && !src.broken
      invariant Smooth(dst, old(dst.world.troubles), old(dst.dst.f.failures))
      decreases |src.all| - src.pos
    {
      var n, ended;
      n, how, ended := CopyBuffer(dst, src, bufLen, old(dst.dst.f.content), old(dst.dst.off));
      copied := copied + n;
      if ended {
        return copied, how;
      }
    }
  }

  // ----- the retry loops

  /** The counter's claim: that many bytes of the slot are the remote's. */
  ghost predicate Backs(content: seq<byte>, remote: seq<byte>, start: nat, completed: int) {
    0 <= completed && P.Agrees(remote, content, start, start + completed)
  }

  /** Bytes outside [lo, hi] are as they were. */
  ghost predicate SameOutside(before: seq<byte>, after: seq<byte>, lo: int, hi: int) {
    |before| == |after| && forall p | 0 <= p < |before| && !(lo <= p <= hi) :: after[p] == before[p]
  }

  /** Delivering a prefix of what was asked for extends the claim and touches nothing else. */
  lemma DeliveryExtends(was: seq<byte>, now: seq<byte>, remote: seq<byte>, start: nat, done: nat, len: nat, n: nat)
    requires Backs(was, remote, start, done) && start + done + len <= |was| && start + done + len <= |remote|
    requires Delivered(was, now, start + done, remote[start + done..start + done + len], n)
    ensures Backs(now, remote, start, done + n) && SameOutside(was, now, start + done, start + done + n - 1)
  {
    var at := start + done;
    OverlayAt(was, at, remote[at..at + len][..n]);
  }

  /** One request of a segment's remainder, whose body is a prefix of what was asked for, and all of it unless something
      goes wrong. Without trouble the segment is full after it. */
  method Stream(remote: seq<byte>, part: PartFile, slot: Slot, world: World, start: nat, bufLen: nat)
    returns (clean: bool)
    requires bufLen >= 1 && 0 <= slot.end < |remote| && slot.end < |part.content|
    requires Backs(part.content, remote, start, slot.completed) && start + slot.completed <= slot.end + 1
    modifies part, slot, world`troubles
    ensures old(world.troubles) <= world.troubles && old(part.failures) <= part.failures
    ensures world.troubles == old(world.troubles) && part.failures == old(part.failures) ==>
      clean && slot.completed == slot.end - start + 1
    ensures slot.end == old(slot.end) && old(slot.completed) <= slot.completed <= slot.end - start + 1
    ensures Backs(part.content, remote, start, slot.completed)
    ensures SameOutside(old(part.content), part.content, start + old(slot.completed), slot.end)
  {
    var from := start + slot.completed;
    var len := slot.end - from + 1;
    var whole := world.Goes();
    if !whole {
      len :| 0 <= len <= slot.end - from + 1;
    }
    var body := new Body(remote[from..from + len], world);
    var writer := new ProgressWriter(part, slot, world, false, start);
    ghost var was, done := part.content, slot.completed;
    var copied, how := CopySegment(writer, body, bufLen);
    DeliveryExtends(was, part.content, remote, start, done, len, copied);
    return how.Fine?;
  }

  /** A segment on the static path, where Ends do not move. Success means the whole segment holds the remote's bytes;
      failure leaves the counter a true claim that has not gone back; nothing outside the segment is ever written. It
      gives up only when cancelled, or after 1 + MaxRetries attempts in each of which something went wrong, or when a
      failing one has filled the segment. */
  method RunSegment(remote: seq<byte>, part: PartFile, slot: Slot, world: World, start: nat, retries: nat, bufLen: nat)
    returns (ok: bool)
    requires bufLen >= 1 && 0 <= slot.end < |remote| && slot.end < |part.content|
    requires Backs(part.content, remote, start, slot.completed)
    modifies part, slot, world
    ensures slot.end == old(slot.end) && old(slot.completed) <= slot.completed
    ensures slot.completed == old(slot.completed) || slot.completed <= slot.end - start + 1
    ensures Backs(part.content, remote, start, slot.completed)
    ensures SameOutside(old(part.content), part.content, start + old(slot.completed), slot.end)
    ensures ok ==> slot.completed >= slot.end - start + 1
    ensures old(slot.completed) >= slot.end - start + 1 ==> ok && slot.completed == old(slot.completed)
    ensures !ok ==>
      || world.stopped
      || (world.troubles - old(world.troubles)) + (part.failures - old(part.failures)) >= retries + 1
      || (slot.completed == slot.end - start + 1
          && world.troubles + part.failures > old(world.troubles) + old(part.failures))
  {
    if slot.completed >= slot.end - start + 1 {
      return true;
    }
    for attempt := 0 to retries + 1
      invariant slot.end == old(slot.end) && old(slot.completed) <= slot.completed <= slot.end - start + 1
      invariant attempt == 0 ==> slot.completed == old(slot.completed)
      invariant Backs(part.content, remote, start, slot.completed)
      invariant SameOutside(old(part.content), part.content, start + old(slot.completed), slot.end)
      invariant old(world.troubles) <= world.troubles && old(part.failures) <= part.failures
      invariant (world.troubles - old(world.troubles)) + (part.failures - old(part.failures)) >= attempt
    {
      var cancelled := world.Cancelled();
      if cancelled {
        return false;
      }
      if start + slot.completed > slot.end {
        return false;
      }
      var answered := world.Goes();
      if !answered {
        continue;
      }
      var clean := Stream(remote, part, slot, world, start, bufLen);
      var moving := world.Goes();
      if !moving || !clean {
        continue;
      }
      if slot.completed >= slot.end - start + 1 {
        return true;
      }
    }
    return false;
  }

  /** The fallback without ranges: every attempt starts the file over. Success means the file is what one response
      delivered to its clean end, and the whole of it when the size is known, whatever the file held before. It gives up
      only when cancelled, when the file cannot be emptied, or after 1 + MaxRetries attempts in each of which something
      went wrong or the file was not of the size it was said to have. */
  method RunWholeBody(remote: seq<byte>, totalSize: int, part: PartFile, slot: Slot, world: World, retries: nat,
                      bufLen: nat)
    returns (ok: bool, emptied: bool)
    requires bufLen >= 1
    modifies part, slot, world
    ensures ok ==> part.content <= remote && slot.completed == |part.content|
    ensures ok && totalSize > 0 ==> |part.content| == totalSize
    ensures ok && totalSize == |remote| > 0 ==> part.content == remote
    ensures !emptied ==> world.troubles > old(world.troubles)
    ensures !ok && emptied && (totalSize <= 0 || totalSize == |remote|) ==>
      || world.stopped
      || (world.troubles - old(world.troubles)) + (part.failures - old(part.failures)) >= retries + 1
  {
    emptied := true;
    for attempt := 0 to retries + 1
      invariant old(world.troubles) <= world.troubles && old(part.failures) <= part.failures && emptied
      invariant totalSize <= 0 || totalSize == |remote| ==>
        (world.troubles - old(world.troubles)) + (part.failures - old(part.failures)) >= attempt
    {
      var cancelled := world.Cancelled();
      if cancelled {
        return false, true;
      }
      emptied := world.Goes();
      if !emptied {
        return false, false;
      }
      part.Truncate(0);
      slot.completed := 0;
      var answered := world.Goes();
      if !answered {
        continue;
      }
      var clean := StreamBody(remote, part, slot, world, bufLen);
      var moving := world.Goes();
      if !moving || !clean {
        continue;
      }
      if totalSize > 0 && slot.completed != totalSize {
        continue;
      }
      return true, true;
    }
    return false, true;
  }

  /** One response streamed into an empty file. */
  method StreamBody(remote: seq<byte>, part: PartFile, slot: Slot, world: World, bufLen: nat) returns (clean: bool)
    requires bufLen >= 1 && part.content == [] && slot.completed == 0
    modifies part, slot, world`troubles
    ensures old(world.troubles) <= world.troubles && old(part.failures) <= part.failures
    ensures part.content <= remote && slot.completed == |part.content|
    ensures world.troubles == old(world.troubles) && part.failures == old(part.failures) ==>
      clean && part.content == remote
  {
    var len := |remote|;
    var whole := world.Goes();
    if !whole {
      len :| 0 <= len <= |remote|;
    }
    var body := new Body(remote[..len], world);
    var writer := new ProgressWriter(part, slot, world, false, 0);
    var copied, how := CopySegment(writer, body, bufLen);
    OverlayAt([], 0, body.all[..copied]);
    assert part.content == remote[..copied];
    return how.Fine?;
  }
}
