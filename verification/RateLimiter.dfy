/** The token bucket that caps bandwidth (internal/engine/ratelimit.go). Instants and sleeps are whole nanoseconds, as
    the clock's are; tokens are exact where the program rounds them to floating point. */
module RateLimiter {

  const SECOND := 1_000_000_000.0
  const MICROSECOND := 1_000   // the sleep when the wait truncates to nothing

  datatype Bucket = Bucket(rate: real, burst: real, tokens: real, last: int)

  predicate Sound(b: Bucket) { 0.0 < b.rate && 0.0 < b.burst && 0.0 <= b.tokens <= b.burst }

  function Min(x: real, y: real): real { if x < y then x else y }

  /** Tokens accrued over a number of nanoseconds. */
  function Accrued(rate: real, elapsed: int): real { Scaled(rate, elapsed as real) }

  function Scaled(rate: real, elapsed: real): real { elapsed / SECOND * rate }

  function Refill(b: Bucket, now: int): Bucket {
    if now <= b.last then b
    else b.(tokens := Min(b.burst, b.tokens + Accrued(b.rate, now - b.last)), last := now)
  }

  /** What a flush of n bytes takes from the bucket. */
  function Need(b: Bucket, n: nat): real { Min(n as real, b.burst) }

  predicate Admits(b: Bucket, now: int, n: nat) { Need(b, n) <= Refill(b, now).tokens }

  /** One locked section of WaitN, by any caller: refill, then consume or leave. */
  function Poll(b: Bucket, now: int, n: nat): Bucket {
    var r := Refill(b, now);
    if Admits(b, now, n) then r.(tokens := r.tokens - Need(b, n)) else r
  }

  /** Tokens are earned at the rate, a billionth of it each nanosecond, up to the capacity; a clock that stands still or
      runs back earns none. */
  lemma Earns(b: Bucket, now: int)
    requires Sound(b)
    ensures var r := Refill(b, now); r.rate == b.rate && r.burst == b.burst
    ensures now <= b.last ==> Refill(b, now) == b
    ensures now > b.last ==> Refill(b, now).last == now
    ensures var earned := b.tokens + (now - b.last) as real / 1000000000.0 * b.rate;
      now > b.last ==> Refill(b, now).tokens == if earned <= b.burst then earned else b.burst
  {
  }

  /** An attempt is let through exactly if, after earning, the bucket holds what it needs, and then takes that, all or
      nothing; one larger than the bucket needs the whole of it. */
  lemma TakesWhatItNeeds(b: Bucket, now: int, n: nat)
    requires Sound(b)
    ensures var held := Refill(b, now).tokens; var need := if n as real <= b.burst then n as real else b.burst;
      && (Admits(b, now, n) <==> need <= held)
      && Poll(b, now, n) == Refill(b, now).(tokens := if need <= held then held - need else held)
  {
  }

  // ----- the aggregate cap

  datatype Attempt = Attempt(now: int, n: nat)

  function After(b: Bucket, polls: seq<Attempt>): Bucket
    decreases |polls|
  {
    if polls == [] then b else After(Poll(b, polls[0].now, polls[0].n), polls[1..])
  }

  /** The bytes those locked sections let through, all callers together. */
  function Admitted(b: Bucket, polls: seq<Attempt>): nat
    decreases |polls|
  {
    if polls == [] then 0
    else
      (if Admits(b, polls[0].now, polls[0].n) then polls[0].n else 0)
      + Admitted(Poll(b, polls[0].now, polls[0].n), polls[1..])
  }

  /** The total of a history is that of its parts, and that of one attempt is all its bytes or none. */
  lemma {:induction false} AdmittedAdds(b: Bucket, first: seq<Attempt>, second: seq<Attempt>)
    ensures After(b, first + second) == After(After(b, first), second)
    ensures Admitted(b, first + second) == Admitted(b, first) + Admitted(After(b, first), second)
    ensures |first| == 1 ==> Admitted(b, first) == if Admits(b, first[0].now, first[0].n) then first[0].n else 0
    decreases |first|
  {
    if first == [] {
      assert first + second == second;
    } else {
      assert (first + second)[1..] == first[1..] + second;
      AdmittedAdds(Poll(b, first[0].now, first[0].n), first[1..], second);
    }
  }

  predicate Fits(b: Bucket, polls: seq<Attempt>) {
    forall k | 0 <= k < |polls| :: polls[k].n as real <= b.burst
  }

  predicate Within(polls: seq<Attempt>, t1: int, t2: int) {
    forall k | 0 <= k < |polls| :: t1 <= polls[k].now <= t2
  }

  lemma AccruedMonotone(rate: real, a: int, b: int)
    requires 0.0 < rate && a <= b
    ensures Accrued(rate, a) <= Accrued(rate, b)
    ensures 0 <= a ==> 0.0 <= Accrued(rate, a)
  {
  }

  lemma RefillIsSound(b: Bucket, now: int)
    requires Sound(b)
    ensures Sound(Refill(b, now)) && b.last <= Refill(b, now).last && now <= Refill(b, now).last
    ensures b.tokens <= Refill(b, now).tokens
  {
  }

  lemma PollIsSound(b: Bucket, now: int, n: nat)
    requires Sound(b)
    ensures Sound(Poll(b, now, n)) && Poll(b, now, n).rate == b.rate && Poll(b, now, n).burst == b.burst
    ensures Poll(b, now, n).last == Refill(b, now).last
    ensures Admits(b, now, n) && n as real <= b.burst ==> Poll(b, now, n).tokens + n as real == Refill(b, now).tokens
  {
  }

  /** Whatever callers interleave, the bucket never holds less than nothing or more than its capacity. */
  lemma {:induction false} TokensStayInRange(b: Bucket, polls: seq<Attempt>)
    requires Sound(b)
    ensures Sound(After(b, polls)) && After(b, polls).rate == b.rate && After(b, polls).burst == b.burst
    decreases |polls|
  {
    if polls == [] {
    } else {
      PollIsSound(b, polls[0].now, polls[0].n);
      TokensStayInRange(Poll(b, polls[0].now, polls[0].n), polls[1..]);
    }
  }

  /** What can accrue until t2. */
  function Headroom(b: Bucket, t2: int): real {
    if t2 <= b.last then 0.0 else Accrued(b.rate, t2 - b.last)
  }

  lemma RefillSpendsHeadroom(b: Bucket, now: int, t2: int)
    requires Sound(b) && now <= t2
    ensures Refill(b, now).tokens + Headroom(Refill(b, now), t2) <= b.tokens + Headroom(b, t2)
  {
  }

  lemma {:induction false} AdmittedUntil(b: Bucket, polls: seq<Attempt>, t2: int)
    requires Sound(b) && Fits(b, polls) && forall k | 0 <= k < |polls| :: polls[k].now <= t2
    ensures Admitted(b, polls) as real <= b.tokens + Headroom(b, t2)
    decreases |polls|
  {
    if polls == [] {
      AccruedMonotone(b.rate, 0, if t2 <= b.last then 0 else t2 - b.last);
    } else {
      var p := polls[0];
      var c := Poll(b, p.now, p.n);
      PollIsSound(b, p.now, p.n);
      RefillSpendsHeadroom(b, p.now, t2);
      AdmittedUntil(c, polls[1..], t2);
    }
  }

  lemma WindowFrom(b: Bucket, polls: seq<Attempt>, t1: int, t2: int)
    requires Sound(b) && Fits(b, polls) && Within(polls, t1, t2) && t1 <= t2
    ensures Admitted(b, polls) as real <= b.burst + Accrued(b.rate, t2 - t1)
  {
    AccruedMonotone(b.rate, 0, t2 - t1);
    if polls != [] {
      var p := polls[0];
      var c := Poll(b, p.now, p.n);
      PollIsSound(b, p.now, p.n);
      RefillIsSound(b, p.now);
      AdmittedUntil(c, polls[1..], t2);
      if c.last < t2 { AccruedMonotone(b.rate, t2 - c.last, t2 - t1); }
    }
  }

  /** The cap: over any stretch of any history of locked sections, by however many callers, the bytes let through while
      the clock read between t1 and t2 are at most one burst plus what the rate earns in that time. Nothing is assumed
      about the order in which the clock readings come. */
  lemma WindowBound(b: Bucket, polls: seq<Attempt>, i: nat, j: nat, t1: int, t2: int)
    requires Sound(b) && Fits(b, polls) && i <= j <= |polls| && t1 <= t2 && Within(polls[i..j], t1, t2)
    ensures UnderCap(Admitted(After(b, polls[..i]), polls[i..j]), b.burst, b.rate, t2 - t1)
  {
    TokensStayInRange(b, polls[..i]);
    assert Fits(b, polls[i..j]);
    WindowFrom(After(b, polls[..i]), polls[i..j], t1, t2);
    AccruedIsUnder(After(b, polls[..i]), Admitted(After(b, polls[..i]), polls[i..j]), t2 - t1);
  }

  /** So many bytes in so many nanoseconds keep to the rate, but for one burst. */
  predicate UnderCap(bytes: nat, burst: real, rate: real, elapsed: int) {
    bytes as real <= burst + elapsed as real / 1000000000.0 * rate
  }

  lemma AccruedIsUnder(b: Bucket, bytes: nat, elapsed: int)
    requires bytes as real <= b.burst + Accrued(b.rate, elapsed)
    ensures UnderCap(bytes, b.burst, b.rate, elapsed)
  {
  }

  // ----- the capacity floor

  /** Go's integer division, which truncates toward zero. */
  function Quotient(x: int, y: int): int
    requires y > 0
  {
    if x >= 0 then x / y else -(-x / y)
  }

  method RateBurst(rate: int, bufSize: int, cfgBurst: int) returns (burst: int)
    ensures burst >= 2 * bufSize && (cfgBurst > 0 ==> burst >= cfgBurst)
    ensures burst != 2 * bufSize ==> burst == if cfgBurst > 0 then cfgBurst else Quotient(rate, 10)
    ensures cfgBurst <= 0 ==> burst >= Quotient(rate, 10)
    ensures cfgBurst <= 0 && bufSize >= 0 ==> 10 * burst > rate - 10   // at least 100 ms of bandwidth
    ensures cfgBurst > 0 ==> burst == if cfgBurst < 2 * bufSize then 2 * bufSize else cfgBurst
    ensures cfgBurst <= 0 && rate >= 0 ==> burst == if rate / 10 < 2 * bufSize then 2 * bufSize else rate / 10
  {
    burst := cfgBurst;
    if burst <= 0 {
      burst := Quotient(rate, 10);
    }
    var floor := 2 * bufSize;
    if burst < floor {
      burst := floor;
    }
    if cfgBurst > 0 { return; }
    assert rate >= 0 ==> 10 * Quotient(rate, 10) > rate - 10;
  }

  // ----- one caller

  /** How long a deficit takes to accrue, truncated to whole nanoseconds. */
  function Wait(deficit: real, rate: real): int
    requires 0.0 < rate
  {
    (deficit / rate * SECOND).Floor
  }

  /** The clock. A sleep lasts at least as long as asked, unless the caller's context is cancelled first. */
  class Clock {
    var now: int
    ghost var asked: seq<int>     // the sleeps asked for
    ghost var cancels: nat        // those that a cancelled context cut short

    method Sleep(d: int) returns (cancelled: bool)
      requires d > 0
      modifies this
      ensures old(now) <= now
      ensures !cancelled ==> old(now) + d <= now
      ensures asked == old(asked) + [d] && cancels == if cancelled then old(cancels) + 1 else old(cancels)
    {
      var late: nat :| late >= 0;
      cancelled := *;
      now := if cancelled then now + late else now + d + late;
      asked, cancels := asked + [d], if cancelled then cancels + 1 else cancels;
    }
  }

  class Limiter {
    const rate: real
    const burst: real
    var tokens: real
    var last: int

    ghost predicate Valid() reads this { Sound(Contents()) }

    function Contents(): Bucket reads this { Bucket(rate, burst, tokens, last) }

    /** The bucket starts full. */
    constructor (rate: int, burst: int, clk: Clock)
      requires rate > 0 && burst > 0
      ensures Valid() && Contents() == Bucket(rate as real, burst as real, burst as real, clk.now)
    {
      this.rate := rate as real;
      this.burst := burst as real;
      tokens := burst as real;
      last := clk.now;
    }

    /** The locked section: refill, then consume if there is enough. */
    method TryTake(now: int, need: real) returns (taken: bool)
      requires Valid() && 0.0 <= need <= burst
      modifies this`tokens, this`last
      ensures taken == (need <= Refill(old(Contents()), now).tokens)
      ensures var r := Refill(old(Contents()), now); Contents() == if taken then r.(tokens := r.tokens - need) else r
      ensures now > old(last) ==>
        var earned := old(tokens) + (now - old(last)) as real / 1000000000.0 * rate;
        taken == (need <= burst && need <= earned)
      ensures Valid()
    {
      RefillIsSound(Contents(), now);
      var elapsed := now - last;
      if elapsed > 0 {
        tokens := tokens + elapsed as real / SECOND * rate;
        if tokens > burst {
          tokens := burst;
        }
        last := now;
      }
      taken := tokens >= need;
      if taken {
        tokens := tokens - need;
      }
    }

    /** With no other caller about, a wait ends after at most two sleeps: the first may fall short by the fraction of a
        nanosecond that was truncated, the second makes up for it. Admission takes exactly the need; cancellation takes
        nothing. */
    method WaitN(n: int, clk: Clock) returns (admitted: bool, sleeps: nat)
      requires Valid() && last <= clk.now
      modifies this`tokens, this`last, clk
      ensures Valid() && last <= clk.now && sleeps <= 2 && |clk.asked| == |old(clk.asked)| + sleeps
      ensures admitted <==> clk.cancels == old(clk.cancels)
      ensures n <= 0 ==> admitted && sleeps == 0 && Contents() == old(Contents())
      ensures n > 0 && admitted ==> Contents() == Poll(old(Contents()), last, n) && Admits(old(Contents()), last, n)
      ensures n > 0 && !admitted ==> Contents() == Refill(old(Contents()), last)
      ensures Need(old(Contents()), if n > 0 then n else 0) <= old(tokens) ==> admitted && sleeps == 0
    {
      sleeps := 0;
      if n <= 0 {
        return true, 0;
      }
      var need := n as real;
      if need > burst {
        need := burst;
      }
      ghost var was := Contents();
      while true
        invariant Sound(was) && was.rate == rate && was.burst == burst && need == Need(was, n)
        invariant Valid() && Contents() == Refill(was, last) && was.last <= last <= clk.now
        invariant |clk.asked| == |old(clk.asked)| + sleeps && clk.cancels == old(clk.cancels)
        invariant sleeps == 0 ==> Contents() == was
        invariant sleeps >= 1 ==> was.tokens < need
        invariant Waited(was, clk.now, need, sleeps)
        decreases 2 - sleeps
      {
        RefillTwice(was, last, clk.now);
        RefillIsSound(was, clk.now);
        ghost var full := Refill(was, clk.now);
        var taken := TryTake(clk.now, need);
        if taken {
          assert Contents() == full.(tokens := full.tokens - need);
          return true, sleeps;
        }
        assert Contents() == full && full.tokens < need;
        var cancelled := SleepOff(need, clk, was, sleeps);
        sleeps := sleeps + 1;
        if cancelled {
          return false, sleeps;
        }
      }
    }

    /** Sleeps for what the bucket lacks. */
    method SleepOff(need: real, clk: Clock, ghost was: Bucket, ghost sleeps: nat) returns (cancelled: bool)
      requires Valid() && Sound(was) && was.rate == rate && was.burst == burst && need <= burst
      requires Contents() == Refill(was, last) && was.last <= last == clk.now && tokens < need
      requires Waited(was, last, need, sleeps) && sleeps < 2
      modifies clk
      ensures clk.now >= old(clk.now) && (!cancelled ==> Waited(was, clk.now, need, sleeps + 1))
      ensures |clk.asked| == |old(clk.asked)| + 1 && old(clk.asked) <= clk.asked
      ensures clk.cancels == if cancelled then old(clk.cancels) + 1 else old(clk.cancels)
      ensures JustEnough(need - tokens, rate, clk.asked[|old(clk.asked)|])
    {
      var wait := Wait(need - tokens, rate);
      WaitIsEnough(need - tokens, rate);
      if wait <= 0 {
        wait := MICROSECOND;
      }
      cancelled := clk.Sleep(wait);
      if !cancelled {
        SleepHelps(was, last, clk.now, need, sleeps, wait);
      }
    }
  }

  /** The sleep is the whole nanoseconds in which the deficit accrues, or a microsecond if there are none. */
  predicate JustEnough(deficit: real, rate: real, sleep: int)
    requires 0.0 < rate
  {
    var exact := deficit / rate * 1000000000.0;
    if exact < 1.0 then sleep == 1000 else sleep as real <= exact < (sleep + 1) as real
  }

  /** What the sleeps so far have brought. */
  predicate Waited(b: Bucket, now: int, need: real, sleeps: nat) {
    && sleeps <= 2
    && (sleeps == 1 ==> need < Refill(b, now).tokens + Accrued(b.rate, 1))
    && (sleeps == 2 ==> need <= Refill(b, now).tokens)
  }

  lemma SleepHelps(b: Bucket, last: int, now: int, need: real, sleeps: nat, wait: int)
    requires Sound(b) && b.last <= last && need <= b.burst && sleeps < 2
    requires var r := Refill(b, last);
      && Waited(b, last, need, sleeps) && r.tokens < need && 0 < wait <= now - last
      && (if need - r.tokens < Accrued(b.rate, 1) then need - r.tokens <= Accrued(b.rate, wait)
          else need - r.tokens < Accrued(b.rate, wait) + Accrued(b.rate, 1))
    ensures Waited(b, now, need, sleeps + 1)
  {
    RefillTwice(b, last, now);
    AccruedMonotone(b.rate, wait, now - last);
    AccruedMonotone(b.rate, 0, 1);
  }

  /** Refilling in two steps is refilling once. */
  lemma RefillTwice(b: Bucket, t1: int, t2: int)
    requires Sound(b) && t1 <= t2
    ensures Refill(Refill(b, t1), t2) == Refill(b, t2)
  {
  }

  /** The truncated wait leaves less than a nanosecond's worth missing; where it truncates to nothing, the fixed sleep
      covers the deficit. */
  lemma WaitIsEnough(deficit: real, rate: real)
    requires 0.0 < rate && 0.0 < deficit
    ensures var wait := Wait(deficit, rate);
      && 0 <= wait && wait as real <= deficit / rate * 1000000000.0 < (wait + 1) as real
      && deficit < Accrued(rate, wait) + Accrued(rate, 1)
      && (deficit < Accrued(rate, 1) ==> wait == 0)
      && (wait == 0 ==> deficit <= Accrued(rate, MICROSECOND))
  {
    var x := deficit / rate * SECOND;
    var wait := Wait(deficit, rate);
    Scales(rate, x, (wait + 1) as real);
    AccruedMonotone(rate, 1, MICROSECOND);
    Scales(rate, 1.0, x);
  }

  lemma Scales(rate: real, x: real, y: real)
    requires 0.0 < rate
    ensures x < y ==> Scaled(rate, x) < Scaled(rate, y)
    ensures x <= y ==> Scaled(rate, x) <= Scaled(rate, y)
  {
  }
}
