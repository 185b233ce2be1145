/** The token bucket of eval/quota_guard.py over real time. */
module Throttle {

  const MAX_NAP := 5.0

  /** A clock that never runs backwards; time may pass whenever it is looked at. */
  class Clock {
    var now: real
    ghost var asked: real

    constructor (start: real)
      ensures now == start
    {
      now, asked := start, 0.0;
    }

    method Read() returns (t: real)
      modifies this
      ensures t == now >= old(now) && asked == old(asked)
    {
      var passed: real :| passed >= 0.0;
      now := now + passed;
      t := now;
    }

    /** A sleep lasts at least as long as was asked. */
    method Sleep(seconds: real)
      requires seconds >= 0.0
      modifies this
      ensures now >= old(now) + seconds && asked == seconds
    {
      var oversleep: real :| oversleep >= 0.0;
      now, asked := now + seconds + oversleep, seconds;
    }
  }

  // ----- Arithmetic of the bucket -----

  /** The tokens that a span of time adds. */
  function Earned(rpm: real, elapsed: real): real {
    elapsed * (rpm / 60.0)
  }

  function Refill(rpm: real, tokens: real, elapsed: real): real {
    var more := tokens + Earned(rpm, elapsed);
    if rpm < more then rpm else more
  }

  function Nap(rpm: real, tokens: real): real
    requires rpm > 0.0
  {
    var wait := (1.0 - tokens) * (60.0 / rpm);
    if wait < MAX_NAP then wait else MAX_NAP
  }

  function Ceiling(x: real): int { -((-x).Floor) }

  /** How many naps a bucket with so many tokens needs at most. */
  function NapsLeft(rpm: real, tokens: real): int
    requires rpm > 0.0
  {
    Ceiling((1.0 - tokens) * (12.0 / rpm))
  }

  lemma EarnedSum(rpm: real, a: real, b: real)
    ensures Earned(rpm, a) + Earned(rpm, b) == Earned(rpm, a + b)
  {}

  lemma EarnedGrows(rpm: real, a: real, b: real)
    requires rpm >= 0.0 && a <= b
    ensures Earned(rpm, a) <= Earned(rpm, b)
  {
    assert 0.0 <= (b - a) * (rpm / 60.0);
  }

  lemma CeilingFalls(x: real, y: real)
    requires x <= y - 1.0
    ensures Ceiling(x) <= Ceiling(y) - 1
  {}

  lemma Scale(x: real, y: real, factor: real)
    requires x <= y && factor >= 0.0
    ensures x * factor <= y * factor
  {}

  lemma NapEarns(rpm: real, tokens: real)
    requires rpm > 0.0
    ensures Nap(rpm, tokens) == (1.0 - tokens) * (60.0 / rpm) ==> Earned(rpm, Nap(rpm, tokens)) == 1.0 - tokens
    ensures Nap(rpm, tokens) == MAX_NAP ==> Earned(rpm, Nap(rpm, tokens)) == rpm / 12.0
  {
    var missing := 1.0 - tokens;
    assert 60.0 / rpm * (rpm / 60.0) == 1.0;
    assert missing * (60.0 / rpm) * (rpm / 60.0) == missing * (60.0 / rpm * (rpm / 60.0));
  }

  /** A nap is as long as the missing part of a token takes, or five seconds, whichever is
      shorter. */
  lemma NapIsShort(rpm: real, tokens: real)
    requires rpm > 0.0 && tokens < 1.0
    ensures var nap := Nap(rpm, tokens);
            && 0.0 <= nap <= 5.0 && tokens + Earned(rpm, nap) <= 1.0
            && (nap == 5.0 || tokens + Earned(rpm, nap) == 1.0)
  {
    var wait := (1.0 - tokens) * (60.0 / rpm);
    WaitEarns(rpm, 1.0 - tokens, wait);
    if wait >= MAX_NAP {
      EarnedGrows(rpm, MAX_NAP, wait);
    }
    assert wait >= 0.0;
  }

  lemma WaitEarns(rpm: real, missing: real, wait: real)
    requires rpm > 0.0 && wait == missing * (60.0 / rpm)
    ensures Earned(rpm, wait) == missing
  {
    assert 60.0 / rpm * (rpm / 60.0) == 1.0;
    assert missing * (60.0 / rpm) * (rpm / 60.0) == missing * (60.0 / rpm * (rpm / 60.0));
  }

  lemma OneNapLess(rpm: real, before: real, after: real)
    requires rpm > 0.0 && after >= before + rpm / 12.0
    ensures NapsLeft(rpm, after) <= NapsLeft(rpm, before) - 1
  {
    assert rpm / 12.0 * (12.0 / rpm) == 1.0;
    Scale(1.0 - after, 1.0 - before - rpm / 12.0, 12.0 / rpm);
    assert (1.0 - before - rpm / 12.0) * (12.0 / rpm) == (1.0 - before) * (12.0 / rpm) - 1.0;
    CeilingFalls((1.0 - after) * (12.0 / rpm), (1.0 - before) * (12.0 / rpm));
  }

  /** After a nap there is a token, or one nap less to take. */
  lemma NapHelps(rpm: real, tokens: real, elapsed: real)
    requires rpm >= 1.0 && tokens < 1.0 && elapsed >= Nap(rpm, tokens)
    ensures var after := Refill(rpm, tokens, elapsed);
            after >= 1.0 || NapsLeft(rpm, after) <= NapsLeft(rpm, tokens) - 1
  {
    NapEarns(rpm, tokens);
    EarnedGrows(rpm, Nap(rpm, tokens), elapsed);
    var after := Refill(rpm, tokens, elapsed);
    if after < 1.0 {
      OneNapLess(rpm, tokens, after);
    }
  }

  lemma NapsArePositive(rpm: real, tokens: real)
    requires rpm > 0.0 && tokens < 1.0
    ensures NapsLeft(rpm, tokens) >= 1
  {
    assert (1.0 - tokens) * (12.0 / rpm) > 0.0;
    CeilingOfPositive((1.0 - tokens) * (12.0 / rpm));
  }

  lemma CeilingOfPositive(x: real)
    requires x > 0.0
    ensures Ceiling(x) >= 1
  {}

  lemma AtMostTwelveOverRpm(rpm: real, tokens: real)
    requires rpm > 0.0 && 0.0 <= tokens
    ensures NapsLeft(rpm, tokens) <= Ceiling(12.0 / rpm)
  {
    Scale(1.0 - tokens, 1.0, 12.0 / rpm);
  }

  predicate HoldsOneAfter(rpm: real, tokens: real, elapsed: real) {
    elapsed >= 0.0 && Refill(rpm, tokens, elapsed) >= 1.0
  }

  ghost predicate EverHoldsOne(rpm: real, tokens: real) {
    exists elapsed :: HoldsOneAfter(rpm, tokens, elapsed)
  }

  /** A bucket of less than one token never holds one: exactly a rate below one call per
      minute makes `acquire` wait for ever. */
  lemma AcquiresOnlyIfOnePerMinute(rpm: real, tokens: real)
    requires rpm > 0.0 && 0.0 <= tokens <= rpm
    ensures EverHoldsOne(rpm, tokens) <==> rpm >= 1.0
  {
    assert forall elapsed :: HoldsOneAfter(rpm, tokens, elapsed) ==> rpm >= 1.0;
    if rpm >= 1.0 {
      assert Earned(rpm, 60.0) == rpm;
      assert HoldsOneAfter(rpm, tokens, 60.0);
    }
  }

  // ----- Any sequence of visits -----

  /** A look at the bucket some time after the last one, and whether it takes a token. */
  datatype Visit = Visit(elapsed: real, takes: bool)

  function AfterVisit(rpm: real, tokens: real, v: Visit): real {
    Refill(rpm, tokens, v.elapsed) - (if v.takes then 1.0 else 0.0)
  }

  function AfterVisits(rpm: real, tokens: real, vs: seq<Visit>): real
    decreases |vs|
  {
    if vs == [] then tokens else AfterVisits(rpm, AfterVisit(rpm, tokens, vs[0]), vs[1..])
  }

  /** Time only passes, and a token is taken only if there is one. */
  predicate Allowed(rpm: real, tokens: real, vs: seq<Visit>)
    decreases |vs|
  {
    vs == [] ||
    (vs[0].elapsed >= 0.0 && (vs[0].takes ==> Refill(rpm, tokens, vs[0].elapsed) >= 1.0)
     && Allowed(rpm, AfterVisit(rpm, tokens, vs[0]), vs[1..]))
  }

  function Taken(vs: seq<Visit>): real {
    if vs == [] then 0.0 else (if vs[0].takes then 1.0 else 0.0) + Taken(vs[1..])
  }

  function Duration(vs: seq<Visit>): real {
    if vs == [] then 0.0 else vs[0].elapsed + Duration(vs[1..])
  }

  /** Over any visits, the bucket stays within bounds and gives out at most what it held
      and what the time earned. */
  lemma {:induction false} TakesAreBounded(rpm: real, tokens: real, vs: seq<Visit>)
    requires 0.0 <= tokens <= rpm && Allowed(rpm, tokens, vs)
    ensures 0.0 <= AfterVisits(rpm, tokens, vs) <= rpm
    ensures Taken(vs) + AfterVisits(rpm, tokens, vs) <= tokens + Earned(rpm, Duration(vs))
    decreases |vs|
  {
    if vs == [] {
      assert Earned(rpm, 0.0) == 0.0;
    } else {
      EarnedGrows(rpm, 0.0, vs[0].elapsed);
      TakesAreBounded(rpm, AfterVisit(rpm, tokens, vs[0]), vs[1..]);
      EarnedSum(rpm, vs[0].elapsed, Duration(vs[1..]));
    }
  }

  // ----- The bucket -----

  /** Between any two acquisitions, both counted, there are at most as many as the bucket
      holds and the time between them earns. */
  ghost predicate Bounded(rpm: real, times: seq<real>) {
    forall i, j :: 0 <= i <= j < |times| ==> (j - i + 1) as real <= rpm + Earned(rpm, times[j] - times[i])
  }

  class TokenBucket {
    const rpm: real
    var tokens: real
    var lastRefill: real
    ghost var acquired: seq<real>

    ghost predicate Valid()
      reads this
    {
      && 0.0 <= tokens <= rpm
      && Bounded(rpm, acquired)
      && (forall i :: 0 <= i < |acquired| ==>
            (|acquired| - i) as real + tokens <= rpm + Earned(rpm, lastRefill - acquired[i]))
    }

    constructor (rpm: real, clock: Clock)
      requires rpm >= 0.0
      modifies clock
      ensures Valid() && this.rpm == rpm && tokens == rpm && acquired == []
      ensures lastRefill == clock.now >= old(clock.now)
    {
      this.rpm := rpm;
      this.tokens := rpm;
      this.acquired := [];
      var now := clock.Read();
      this.lastRefill := now;
    }

    method RefillNow(now: real)
      requires Valid() && lastRefill <= now
      modifies this`tokens, this`lastRefill
      ensures Valid() && lastRefill == now && tokens == Refill(rpm, old(tokens), now - old(lastRefill))
    {
      var elapsed := now - lastRefill;
      tokens := Refill(rpm, tokens, elapsed);
      EarnedGrows(rpm, 0.0, elapsed);
      forall i | 0 <= i < |acquired|
        ensures (|acquired| - i) as real + tokens <= rpm + Earned(rpm, now - acquired[i])
      {
        EarnedSum(rpm, lastRefill - acquired[i], elapsed);
      }
      lastRefill := now;
    }

    method Take()
      requires Valid() && tokens >= 1.0
      modifies this`tokens, this`acquired
      ensures Valid() && tokens == old(tokens) - 1.0 && acquired == old(acquired) + [lastRefill]
    {
      tokens := tokens - 1.0;
      acquired := acquired + [lastRefill];
      assert Earned(rpm, 0.0) == 0.0;
    }

    /** One nap, and what it earns. */
    method NapAndRefill(clock: Clock)
      requires Valid() && rpm >= 1.0 && tokens < 1.0 && lastRefill == clock.now
      modifies this`tokens, this`lastRefill, clock
      ensures Valid() && lastRefill == clock.now >= old(clock.now)
      ensures tokens >= 1.0 || NapsLeft(rpm, tokens) <= NapsLeft(rpm, old(tokens)) - 1
      ensures clock.asked == Nap(rpm, old(tokens))
    {
      clock.Sleep(Nap(rpm, tokens));
      var now := clock.Read();
      NapHelps(rpm, tokens, now - lastRefill);
      RefillNow(now);
    }

    /** Returns once it has taken a token, after a bounded number of naps. */
    method Acquire(clock: Clock) returns (naps: nat)
      requires Valid() && rpm >= 1.0 && lastRefill <= clock.now
      modifies this`tokens, this`lastRefill, this`acquired, clock
      ensures Valid() && lastRefill == clock.now >= old(clock.now)
      ensures acquired == old(acquired) + [clock.now]
      ensures naps <= Ceiling(12.0 / rpm)
    {
      naps := 0;
      var now := clock.Read();
      RefillNow(now);
      AtMostTwelveOverRpm(rpm, tokens);
      while tokens < 1.0
        invariant Valid() && acquired == old(acquired) && lastRefill == clock.now >= old(clock.now)
        invariant tokens < 1.0 ==> naps + NapsLeft(rpm, tokens) <= Ceiling(12.0 / rpm)
        invariant naps <= Ceiling(12.0 / rpm)
        decreases if tokens < 1.0 then NapsLeft(rpm, tokens) else 0
      {
        NapsArePositive(rpm, tokens);
        NapAndRefill(clock);
        naps := naps + 1;
      }
      Take();
    }
  }

  /** Any acquisitions that fall into a window of w seconds: at most rpm + w * rpm / 60. */
  lemma WindowBound(rpm: real, times: seq<real>, i: nat, j: nat, start: real, w: real)
    requires rpm >= 0.0 && Bounded(rpm, times) && i <= j < |times|
    requires start <= times[i] && times[j] <= start + w
    ensures (j - i + 1) as real <= rpm + w * rpm / 60.0
  {
    EarnedGrows(rpm, times[j] - times[i], w);
    assert Earned(rpm, w) == w * rpm / 60.0;
  }
}
