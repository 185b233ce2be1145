/** The generation cache, the quota guard and the resumable runner (eval/cache.py,
    eval/quota_guard.py, eval/runner.py). A process may die at any `if *`; what it wrote
    before stays, as each write is one committed transaction. */
module QuotaRunner {
  import opened Basics
  import opened Throttle

  const MAX_RETRIES: nat := 6
  const MAX_BACKOFF_S := 60.0
  const SECONDS_PER_DAY := 86400.0

  type Raw = string

  type Key = string

  /** What is hashed. SHA-256 is taken to have no collisions, so the text is the key. */
  function CacheKey(prompt: string, model: string, paramsJson: string): Key {
    model + "\n" + paramsJson + "\n" + prompt
  }

  lemma SameStart(a: string, b: string, x: string, y: string)
    requires OneLine(a) && OneLine(b) && a + "\n" + x == b + "\n" + y
    ensures a == b && x == y
  {
    var s, t := a + "\n" + x, b + "\n" + y;
    assert s[|a|] == '\n' && t[|b|] == '\n';
    assert forall i :: 0 <= i < |a| ==> s[i] == a[i];
    assert forall i :: 0 <= i < |b| ==> t[i] == b[i];
    assert |a| == |b|;
    assert s[..|a|] == a && t[..|b|] == b;
    assert s[|a| + 1..] == x && t[|b| + 1..] == y;
  }

  /** With a model name on one line (JSON is on one line anyway), different prompts, models
      or parameters have different keys. */
  lemma KeysDiffer(p: string, q: string, m: string, n: string, j: string, k: string)
    requires OneLine(m) && OneLine(n) && OneLine(j) && OneLine(k)
    ensures CacheKey(p, m, j) == CacheKey(q, n, k) <==> p == q && m == n && j == k
  {
    assert CacheKey(p, m, j) == m + "\n" + (j + "\n" + p);
    assert CacheKey(q, n, k) == n + "\n" + (k + "\n" + q);
    if CacheKey(p, m, j) == CacheKey(q, n, k) {
      SameStart(m, n, j + "\n" + p, k + "\n" + q);
      SameStart(j, k, p, q);
    }
  }

  /** The line break in the model name does matter: with one, two requests share a key. */
  lemma KeysCollide(prompt: string, model: string, j: string, k: string)
    ensures CacheKey(k + "\n" + prompt, model, j) == CacheKey(prompt, model + "\n" + j, k)
  {
    assert model + "\n" + j + "\n" + (k + "\n" + prompt) == (model + "\n" + j) + "\n" + k + "\n" + prompt;
  }

  /** Some request for model m has the key of one for model n; parameters are JSON, and so
      on one line. */
  ghost predicate ShareAKey(m: string, n: string) {
    exists p, q, j, k :: OneLine(j) && OneLine(k) && CacheKey(p, m, j) == CacheKey(q, n, k)
  }

  /** Model name n is m, a line break, and perhaps more. */
  predicate GoesOnFrom(m: string, n: string) {
    |m| < |n| && n[..|m|] == m && n[|m|] == '\n'
  }

  /** A text with a first line. */
  lemma FirstLine(s: string) returns (first: string, others: string)
    requires !OneLine(s)
    ensures OneLine(first) && s == first + "\n" + others
  {
    var i := 0;
    while s[i] != '\n'
      invariant i < |s| && OneLine(s[..i]) && exists k :: i <= k < |s| && s[k] == '\n'
      decreases |s| - i
    {
      assert s[..i + 1] == s[..i] + [s[i]];
      i := i + 1;
    }
    first, others := s[..i], s[i + 1..];
  }

  lemma GoesOnShares(m: string, n: string)
    requires GoesOnFrom(m, n)
    ensures ShareAKey(m, n)
  {
    var more := n[|m| + 1..];
    assert n == m + "\n" + more;
    if OneLine(more) {
      KeysCollide("", m, more, "{}");
      assert CacheKey("{}" + "\n" + "", m, more) == CacheKey("", n, "{}");
    } else {
      var first, others := FirstLine(more);
      var prompt := others + "\n" + "{}" + "\n" + "";
      assert m + "\n" + first + "\n" + prompt == (m + "\n" + (first + "\n" + others)) + "\n" + "{}" + "\n" + "";
      assert CacheKey(prompt, m, first) == CacheKey("", n, "{}");
    }
  }

  lemma LongerGoesOn(m: string, n: string, x: string, y: string)
    requires m + "\n" + x == n + "\n" + y && |m| < |n|
    ensures GoesOnFrom(m, n)
  {
    var s, t := m + "\n" + x, n + "\n" + y;
    assert s[..|m|] == m && s[|m|] == '\n';
    assert t[..|m|] == n[..|m|] && t[|m|] == n[|m|];
  }

  lemma SameLengthSame(m: string, n: string, x: string, y: string)
    requires m + "\n" + x == n + "\n" + y && |m| == |n|
    ensures m == n
  {
    assert (m + "\n" + x)[..|m|] == m && (n + "\n" + y)[..|n|] == n;
  }

  /** Two models can share a key if and only if one name is the other, a line break, and
      perhaps more. */
  lemma KeysAreSharedExactly(m: string, n: string)
    requires m != n
    ensures ShareAKey(m, n) <==> GoesOnFrom(m, n) || GoesOnFrom(n, m)
  {
    if p, q, j, k :| OneLine(j) && OneLine(k) && CacheKey(p, m, j) == CacheKey(q, n, k) {
      var x, y := j + "\n" + p, k + "\n" + q;
      assert CacheKey(p, m, j) == m + "\n" + x && CacheKey(q, n, k) == n + "\n" + y;
      if |m| < |n| {
        LongerGoesOn(m, n, x, y);
      } else if |n| < |m| {
        LongerGoesOn(n, m, y, x);
      } else {
        SameLengthSame(m, n, x, y);
      }
    }
    if GoesOnFrom(m, n) {
      GoesOnShares(m, n);
    }
    if GoesOnFrom(n, m) {
      GoesOnShares(n, m);
      SharingIsMutual(n, m);
    }
  }

  lemma SharingIsMutual(m: string, n: string)
    requires ShareAKey(m, n)
    ensures ShareAKey(n, m)
  {
    var p, q, j, k :| OneLine(j) && OneLine(k) && CacheKey(p, m, j) == CacheKey(q, n, k);
    assert CacheKey(q, n, k) == CacheKey(p, m, j);
  }

  /** A model name can share a key with another name on one line if and only if it has a
      line break itself. */
  lemma LineBreakSharesExactly(m: string)
    ensures (exists n :: n != m && OneLine(n) && ShareAKey(m, n)) <==> !OneLine(m)
  {
    if n :| n != m && OneLine(n) && ShareAKey(m, n) {
      KeysAreSharedExactly(m, n);
      assert m[|n|] == '\n';
    }
    if !OneLine(m) {
      var first, others := FirstLine(m);
      assert m[..|first|] == first && m[|first|] == '\n';
      KeysAreSharedExactly(m, first);
    }
  }

  // ----- The cache -----

  datatype LogOutcome = ApiCall | DryRun | CallError | BudgetStop

  datatype LogRow = LogRow(run: string, question: string, outcome: LogOutcome, day: int)

  datatype RunKey = RunKey(run: string, question: string)

  datatype RunRow = RunRow(key: Key, raw: Raw, cacheHit: bool)

  /** The UTC day of a time. */
  function DayOf(t: real): int { (t / SECONDS_PER_DAY).Floor }

  /** Day d is the 86400 seconds from its start on. */
  lemma DayIsLong(t: real, d: int)
    ensures DayOf(t) == d <==> d as real * 86400.0 <= t < (d + 1) as real * 86400.0
  {
    var q := t / SECONDS_PER_DAY;
    assert q * 86400.0 == t;
    DayBounds(q, d);
  }

  lemma DayBounds(q: real, d: int)
    ensures q.Floor == d <==> d as real * 86400.0 <= q * 86400.0 < (d + 1) as real * 86400.0
  {}

  lemma DaysPass(s: real, t: real)
    requires s <= t
    ensures DayOf(s) <= DayOf(t)
  {
    assert s / SECONDS_PER_DAY <= t / SECONDS_PER_DAY;
  }

  function CountOn(calls: seq<LogRow>, day: int): nat {
    if calls == [] then 0
    else
      var last := calls[|calls| - 1];
      CountOn(calls[..|calls| - 1], day) + (if last.outcome == ApiCall && last.day == day then 1 else 0)
  }

  function Successes(calls: seq<LogRow>): nat {
    if calls == [] then 0
    else Successes(calls[..|calls| - 1]) + (if calls[|calls| - 1].outcome == ApiCall then 1 else 0)
  }

  /** Some day from one time to the other has as many logged successes as the budget allows. */
  ghost predicate DayFull(calls: seq<LogRow>, dailyBudget: int, from: real, to: real) {
    exists day :: DayOf(from) <= day <= DayOf(to) && dailyBudget <= CountOn(calls, day)
  }

  class GenerationCache {
    var generations: map<Key, Raw>
    var results: map<RunKey, RunRow>
    var calls: seq<LogRow>

    constructor ()
      ensures generations == map[] && results == map[] && calls == []
    {
      generations, results, calls := map[], map[], [];
    }

    method Lookup(key: Key) returns (raw: Option<Raw>)
      ensures raw == if key in generations then Some(generations[key]) else None
    {
      raw := if key in generations then Some(generations[key]) else None;
    }

    method AlreadyHasRunResult(run: string, question: string) returns (has: bool)
      ensures has == (RunKey(run, question) in results)
    {
      has := RunKey(run, question) in results;
    }

    /** One transaction: either both rows are written or neither. */
    method Record(run: string, question: string, key: Key, raw: Raw, cacheHit: bool)
      modifies this`generations, this`results
      ensures generations == if cacheHit then old(generations) else old(generations)[key := raw]
      ensures results == old(results)[RunKey(run, question) := RunRow(key, raw, cacheHit)]
    {
      if !cacheHit {
        generations := generations[key := raw];
      }
      results := results[RunKey(run, question) := RunRow(key, raw, cacheHit)];
    }

    method LogCall(run: string, question: string, outcome: LogOutcome, clock: Clock)
      modifies this`calls, clock
      ensures clock.now >= old(clock.now)
      ensures calls == old(calls) + [LogRow(run, question, outcome, DayOf(clock.now))]
    {
      var now := clock.Read();
      calls := calls + [LogRow(run, question, outcome, DayOf(now))];
    }

    method CountCallsOnDate(day: int) returns (n: nat)
      ensures n == CountOn(calls, day)
    {
      n := 0;
      for i := 0 to |calls|
        invariant n == CountOn(calls[..i], day)
      {
        assert calls[..i + 1][..i] == calls[..i];
        if calls[i].outcome == ApiCall && calls[i].day == day {
          n := n + 1;
        }
      }
      assert calls[..|calls|] == calls;
    }
  }

  // ----- The API and what happened on it -----

  type NonNegative = r: real | r >= 0.0

  datatype Reply = Generated(raw: Raw) | RateLimited(retryAfter: Option<NonNegative>) | Broken

  datatype Event =
    | Sent(key: Key)
    | Replied(key: Key, raw: Raw)
    | Limited(key: Key)
    | Broke(key: Key)
    | Recorded(key: Key, raw: Raw)

  /** What a reply puts into the history. */
  function Outcome(key: Key, reply: Reply): Event {
    match reply
    case Generated(raw) => Replied(key, raw)
    case RateLimited(_) => Limited(key)
    case Broken => Broke(key)
  }

  class Api {
    ghost var history: seq<Event>

    constructor ()
      ensures history == []
    {
      history := [];
    }

    /** Any reply. */
    method Generate(key: Key) returns (reply: Reply)
      modifies this
      ensures history == old(history) + [Sent(key), Outcome(key, reply)]
    {
      reply := *;
      history := history + [Sent(key), Outcome(key, reply)];
    }

    ghost method NoteRecorded(key: Key, raw: Raw)
      modifies this
      ensures history == old(history) + [Recorded(key, raw)]
    {
      history := history + [Recorded(key, raw)];
    }
  }

  function Sends(h: seq<Event>): nat {
    if h == [] then 0 else Sends(h[..|h| - 1]) + (if h[|h| - 1].Sent? then 1 else 0)
  }

  // ----- What holds between any two statements -----

  /** Nothing is sent after its result was recorded. */
  predicate NeverResent(h: seq<Event>) {
    forall i, j :: 0 <= i < j < |h| && h[i].Recorded? && h[j].Sent? ==> h[i].key != h[j].key
  }

  /** Everything recorded was a reply, and the cache holds what was recorded. */
  predicate Genuine(h: seq<Event>, generations: map<Key, Raw>, results: map<RunKey, RunRow>) {
    && (forall e :: e in h && e.Recorded? ==> Replied(e.key, e.raw) in h && e.key in generations)
    && (forall k :: k in generations ==> Recorded(k, generations[k]) in h)
    && (forall r :: r in results ==> Replied(results[r].key, results[r].raw) in h)
  }

  ghost predicate WithinBudget(calls: seq<LogRow>, budget: int) {
    forall day :: CountOn(calls, day) <= if budget > 0 then budget else 0
  }

  predicate NotAhead(calls: seq<LogRow>, today: int) {
    forall i :: 0 <= i < |calls| ==> calls[i].day <= today
  }

  ghost predicate Sound(h: seq<Event>, generations: map<Key, Raw>, results: map<RunKey, RunRow>, calls: seq<LogRow>,
                  budget: int, today: int) {
    NeverResent(h) && Genuine(h, generations, results) && WithinBudget(calls, budget) && NotAhead(calls, today)
  }

  lemma {:induction false} NoneAhead(calls: seq<LogRow>, today: int, day: int)
    requires NotAhead(calls, today) && today < day
    ensures CountOn(calls, day) == 0
  {
    if calls == [] {
    } else {
      NoneAhead(calls[..|calls| - 1], today, day);
    }
  }

  lemma CountOneMore(calls: seq<LogRow>, row: LogRow, day: int)
    ensures CountOn(calls + [row], day)
            == CountOn(calls, day) + (if row.outcome == ApiCall && row.day == day then 1 else 0)
    ensures Successes(calls + [row]) == Successes(calls) + (if row.outcome == ApiCall then 1 else 0)
  {
    assert (calls + [row])[..|calls|] == calls;
  }

  /** A call that passed the check on one day may be logged on that day or a later one. */
  lemma LogKeepsBudget(calls: seq<LogRow>, row: LogRow, budget: int, checked: int)
    requires WithinBudget(calls, budget) && NotAhead(calls, checked) && checked <= row.day
    requires row.outcome == ApiCall ==> CountOn(calls, checked) < budget
    ensures WithinBudget(calls + [row], budget) && NotAhead(calls + [row], row.day)
  {
    forall day ensures CountOn(calls + [row], day) <= if budget > 0 then budget else 0 {
      CountOneMore(calls, row, day);
      if day > checked {
        NoneAhead(calls, checked, day);
      }
    }
  }

  lemma SendKeepsHistory(h: seq<Event>, key: Key, generations: map<Key, Raw>, results: map<RunKey, RunRow>)
    requires NeverResent(h) && Genuine(h, generations, results) && key !in generations
    ensures var after := h + [Sent(key)];
            NeverResent(after) && Genuine(after, generations, results) && Sends(after) == Sends(h) + 1
  {
    assert forall i :: 0 <= i < |h| ==> h[i] in h;
    assert (h + [Sent(key)])[..|h|] == h;
  }

  lemma OutcomeKeepsHistory(h: seq<Event>, key: Key, reply: Reply, generations: map<Key, Raw>,
                            results: map<RunKey, RunRow>)
    requires NeverResent(h) && Genuine(h, generations, results)
    ensures var after := h + [Outcome(key, reply)];
            NeverResent(after) && Genuine(after, generations, results) && Sends(after) == Sends(h)
  {
    assert (h + [Outcome(key, reply)])[..|h|] == h;
  }

  lemma AttemptKeepsHistory(h: seq<Event>, key: Key, reply: Reply, generations: map<Key, Raw>,
                            results: map<RunKey, RunRow>)
    requires NeverResent(h) && Genuine(h, generations, results) && key !in generations
    ensures var after := h + [Sent(key), Outcome(key, reply)];
            NeverResent(after) && Genuine(after, generations, results) && Sends(after) == Sends(h) + 1
  {
    SendKeepsHistory(h, key, generations, results);
    OutcomeKeepsHistory(h + [Sent(key)], key, reply, generations, results);
    assert h + [Sent(key)] + [Outcome(key, reply)] == h + [Sent(key), Outcome(key, reply)];
  }

  lemma RecordKeepsHistory(h: seq<Event>, key: Key, raw: Raw, generations: map<Key, Raw>,
                           results: map<RunKey, RunRow>, r: RunKey)
    requires NeverResent(h) && Genuine(h, generations, results) && Replied(key, raw) in h
    ensures var after := h + [Recorded(key, raw)];
            && NeverResent(after) && Sends(after) == Sends(h)
            && Genuine(after, generations[key := raw], results[r := RunRow(key, raw, false)])
  {
    assert (h + [Recorded(key, raw)])[..|h|] == h;
  }

  // ----- The guard -----

  datatype CallResult = Planned | Returned(raw: Raw) | QuotaExceeded | Raised | Died

  function AtLeastZero(n: int): nat { if n < 0 then 0 else n }

  class QuotaGuard {
    const cache: GenerationCache
    const clock: Clock
    const api: Api
    const bucket: TokenBucket
    const runId: string
    const dailyBudget: int
    const maxCalls: int
    const dryRun: bool
    var callsThisRun: nat

    constructor (cache: GenerationCache, clock: Clock, api: Api, runId: string, dailyBudget: int, maxCalls: int,
                 rpm: real, dryRun: bool)
      requires rpm >= 1.0
      modifies clock
      ensures this.cache == cache && this.clock == clock && this.api == api && fresh(bucket)
      ensures this.runId == runId && this.dailyBudget == dailyBudget && this.maxCalls == maxCalls
      ensures this.dryRun == dryRun && callsThisRun == 0
      ensures clock.now >= old(clock.now) && Valid()
    {
      this.cache, this.clock, this.api := cache, clock, api;
      this.runId, this.dailyBudget, this.maxCalls, this.dryRun := runId, dailyBudget, maxCalls, dryRun;
      this.callsThisRun := 0;
      this.bucket := new TokenBucket(rpm, clock);
    }

    ghost predicate Valid()
      reads this, bucket, clock
    {
      && bucket.Valid() && bucket.rpm >= 1.0 && bucket.lastRefill <= clock.now
      && callsThisRun <= AtLeastZero(maxCalls)
    }

    ghost predicate SoundNow()
      reads cache, api, clock
    {
      Sound(api.history, cache.generations, cache.results, cache.calls, dailyBudget, DayOf(clock.now))
    }

    method Log(question: string, outcome: LogOutcome, ghost checked: int)
      requires WithinBudget(cache.calls, dailyBudget) && NotAhead(cache.calls, checked) && checked <= DayOf(clock.now)
      requires outcome == ApiCall ==> CountOn(cache.calls, checked) < dailyBudget
      modifies cache`calls, clock
      ensures clock.now >= old(clock.now)
      ensures WithinBudget(cache.calls, dailyBudget) && NotAhead(cache.calls, DayOf(clock.now))
      ensures Successes(cache.calls) == old(Successes(cache.calls)) + (if outcome == ApiCall then 1 else 0)
      ensures LoggedOnce(old(cache.calls), cache.calls, question, outcome)
    {
      ghost var before := cache.calls;
      ghost var start := clock.now;
      cache.LogCall(runId, question, outcome, clock);
      DaysPass(start, clock.now);
      LogKeepsBudget(before, cache.calls[|cache.calls| - 1], dailyBudget, checked);
      CountOneMore(before, cache.calls[|cache.calls| - 1], 0);
    }

    /** One row more, for this question and outcome. */
    predicate LoggedOnce(before: seq<LogRow>, after: seq<LogRow>, question: string, outcome: LogOutcome) {
      && |after| == |before| + 1 && after[..|before|] == before
      && after[|before|].run == runId && after[|before|].question == question && after[|before|].outcome == outcome
    }

    /** The dry run, and the two caps: nothing is sent here. The daily cap stops a call only
        on a day whose logged successes have reached it. */
    method CheckCaps(question: string) returns (r: Option<CallResult>, checked: int)
      requires Valid() && SoundNow()
      modifies cache`calls, clock
      ensures Valid() && SoundNow() && clock.now >= old(clock.now)
      ensures Successes(cache.calls) == old(Successes(cache.calls))
      ensures r.Some? ==> r.value.Planned? || r.value.QuotaExceeded? || r.value.Died?
      ensures r == Some(Planned) ==> dryRun && LoggedOnce(old(cache.calls), cache.calls, question, DryRun)
      ensures r == Some(QuotaExceeded) ==>
        !dryRun && LoggedOnce(old(cache.calls), cache.calls, question, BudgetStop)
      ensures r == Some(QuotaExceeded) ==>
        || maxCalls <= callsThisRun
        || (DayOf(old(clock.now)) <= checked <= DayOf(clock.now) && dailyBudget <= CountOn(old(cache.calls), checked))
      ensures r == Some(Died) || r.None? ==> cache.calls == old(cache.calls)
      ensures r.None? ==>
        && !dryRun && callsThisRun < maxCalls && DayOf(old(clock.now)) <= checked <= DayOf(clock.now)
        && NotAhead(cache.calls, checked) && CountOn(cache.calls, checked) < dailyBudget
    {
      checked := 0;
      if * {
        return Some(Died), checked;
      }
      if dryRun {
        Log(question, DryRun, DayOf(clock.now));
        return Some(Planned), checked;
      }
      if callsThisRun >= maxCalls {
        Log(question, BudgetStop, DayOf(clock.now));
        return Some(QuotaExceeded), checked;
      }
      ghost var start := clock.now;
      var now := clock.Read();
      DaysPass(start, now);
      checked := DayOf(now);
      var callsToday := cache.CountCallsOnDate(checked);
      if callsToday >= dailyBudget {
        Log(question, BudgetStop, checked);
        return Some(QuotaExceeded), checked;
      }
      return None, checked;
    }

    /** One turn of the retry loop: a token, then a request. */
    method SendOnce(key: Key) returns (reply: Reply)
      requires Valid() && NeverResent(api.history) && Genuine(api.history, cache.generations, cache.results)
      requires key !in cache.generations
      modifies clock, bucket, api
      ensures Valid() && clock.now >= old(clock.now)
      ensures NeverResent(api.history) && Genuine(api.history, cache.generations, cache.results)
      ensures Sends(api.history) == old(Sends(api.history)) + 1
      ensures api.history == old(api.history) + [Sent(key), Outcome(key, reply)]
    {
      var naps := bucket.Acquire(clock);
      ghost var before := api.history;
      reply := api.Generate(key);
      AttemptKeepsHistory(before, key, reply, cache.generations, cache.results);
    }

    /** Asks for a sleep as long as the API wants, or else of two to the power of the attempt
        seconds, and up to a quarter more, but of no more than a minute. */
    method BackOff(retryAfter: Option<NonNegative>, attempt: nat)
      modifies clock
      ensures var base: real := if retryAfter.Some? then retryAfter.value else Power2(attempt) as real;
              && (if base < 60.0 then base else 60.0) <= clock.asked <= 60.0 && clock.asked <= base * 1.25
              && clock.now >= old(clock.now) + clock.asked
    {
      var base: real := if retryAfter.Some? then retryAfter.value else Power2(attempt) as real;
      var jitter: real :| 0.0 <= jitter <= base * 0.25;
      clock.Sleep(if base + jitter < MAX_BACKOFF_S then base + jitter else MAX_BACKOFF_S);
    }

    /** What the log says of a call. */
    function LoggedAs(r: CallResult): LogOutcome {
      match r
      case Planned => DryRun
      case Returned(_) => ApiCall
      case QuotaExceeded => BudgetStop
      case _ => CallError
    }

    /** The API gave up on the key: it broke, or it limited seven requests. */
    predicate GaveUp(before: seq<Event>, after: seq<Event>, key: Key) {
      && |before| < |after|
      && (after[|after| - 1] == Broke(key) || (after[|after| - 1] == Limited(key) && Sends(after) == Sends(before) + 7))
    }

    /** `QuotaGuard.call`. Unless the process dies, it stops for a cap only where that is
        reached, and otherwise sends until the API replies or gives up. */
    method Call(question: string, key: Key) returns (r: CallResult)
      requires Valid() && SoundNow() && key !in cache.generations
      modifies this`callsThisRun, cache`calls, clock, bucket, api
      ensures Valid() && SoundNow() && clock.now >= old(clock.now)
      ensures r.Planned? <==> dryRun && !r.Died?
      ensures r.QuotaExceeded? ==>
        maxCalls <= old(callsThisRun) || DayFull(old(cache.calls), dailyBudget, old(clock.now), clock.now)
      ensures r.Returned? || r.Raised? ==>
        !dryRun && old(callsThisRun) < maxCalls && Sends(api.history) >= old(Sends(api.history)) + 1
      ensures r.Returned? ==>
        && |api.history| > |old(api.history)| && api.history[|api.history| - 1] == Replied(key, r.raw)
        && callsThisRun == old(callsThisRun) + 1
      ensures r.Raised? ==> GaveUp(old(api.history), api.history, key)
      ensures dryRun || r.QuotaExceeded? || r.Planned? ==> api.history == old(api.history)
      ensures r.Raised? || r.QuotaExceeded? || r.Planned? ==> callsThisRun == old(callsThisRun)
      ensures r.Died? ==> cache.calls == old(cache.calls)
      ensures !r.Died? ==> LoggedOnce(old(cache.calls), cache.calls, question, LoggedAs(r))
      ensures old(callsThisRun) <= callsThisRun <= old(callsThisRun) + 1
      ensures Successes(cache.calls) == old(Successes(cache.calls)) + (if r.Returned? then 1 else 0)
      ensures Sends(api.history) <= old(Sends(api.history)) + 7
    {
      var stop, checked := CheckCaps(question);
      if stop.Some? {
        return stop.value;
      }
      r := SendUntilDone(question, key, checked);
    }

    /** The retry loop. */
    method SendUntilDone(question: string, key: Key, ghost checked: int) returns (r: CallResult)
      requires Valid() && SoundNow() && key !in cache.generations && !dryRun && callsThisRun < maxCalls
      requires checked <= DayOf(clock.now) && NotAhead(cache.calls, checked)
      requires CountOn(cache.calls, checked) < dailyBudget
      modifies this`callsThisRun, cache`calls, clock, bucket, api
      ensures Valid() && SoundNow() && clock.now >= old(clock.now)
      ensures r.Returned? || r.Raised? || r.Died?
      ensures r.Returned? || r.Raised? ==> Sends(api.history) >= old(Sends(api.history)) + 1
      ensures r.Returned? ==>
        && |api.history| > |old(api.history)| && api.history[|api.history| - 1] == Replied(key, r.raw)
        && callsThisRun == old(callsThisRun) + 1
      ensures r.Raised? ==> callsThisRun == old(callsThisRun) && GaveUp(old(api.history), api.history, key)
      ensures r.Died? ==> cache.calls == old(cache.calls)
      ensures !r.Died? ==> LoggedOnce(old(cache.calls), cache.calls, question, LoggedAs(r))
      ensures old(callsThisRun) <= callsThisRun <= old(callsThisRun) + 1
      ensures Successes(cache.calls) == old(Successes(cache.calls)) + (if r.Returned? then 1 else 0)
      ensures Sends(api.history) <= old(Sends(api.history)) + 7
    {
      var attempt := 0;
      while true
        invariant Valid() && SoundNow() && clock.now >= old(clock.now)
        invariant attempt <= MAX_RETRIES && Sends(api.history) == old(Sends(api.history)) + attempt
        invariant |api.history| >= |old(api.history)|
        invariant checked <= DayOf(clock.now) && NotAhead(cache.calls, checked)
        invariant CountOn(cache.calls, checked) < dailyBudget && cache.calls == old(cache.calls)
        invariant callsThisRun == old(callsThisRun) < maxCalls
        decreases MAX_RETRIES - attempt
      {
        ghost var start := clock.now;
        var reply := SendOnce(key);
        DaysPass(start, clock.now);
        if * {
          return Died;
        }
        match reply {
          case RateLimited(retryAfter) =>
            attempt := attempt + 1;
            if attempt > MAX_RETRIES {
              Log(question, CallError, checked);
              return Raised;
            }
            start := clock.now;
            BackOff(retryAfter, attempt);
            DaysPass(start, clock.now);
          case Broken =>
            Log(question, CallError, checked);
            return Raised;
          case Generated(raw) =>
            r := CountSuccess(question, raw, checked);
            return;
        }
      }
    }

    /** The call went well; the process may die before it is logged. */
    method CountSuccess(question: string, raw: Raw, ghost checked: int) returns (r: CallResult)
      requires Valid() && SoundNow() && callsThisRun < maxCalls
      requires checked <= DayOf(clock.now) && NotAhead(cache.calls, checked)
      requires CountOn(cache.calls, checked) < dailyBudget
      modifies this`callsThisRun, cache`calls, clock
      ensures Valid() && SoundNow() && clock.now >= old(clock.now)
      ensures (r == Returned(raw) || r.Died?) && callsThisRun == old(callsThisRun) + 1
      ensures r.Died? ==> cache.calls == old(cache.calls)
      ensures !r.Died? ==> LoggedOnce(old(cache.calls), cache.calls, question, ApiCall)
      ensures Successes(cache.calls) == old(Successes(cache.calls)) + (if r.Returned? then 1 else 0)
    {
      callsThisRun := callsThisRun + 1;
      if * {
        return Died;
      }
      Log(question, ApiCall, checked);
      return Returned(raw);
    }
  }

  function Power2(n: nat): (p: nat)
    ensures p >= n + 1
  {
    if n == 0 then 1 else 2 * Power2(n - 1)
  }

  // ----- The runner -----

  datatype Question = Question(id: string, prompt: string)

  datatype RunEnd = Completed | OutOfQuota | Failed | Killed

  datatype Plan = Plan(questions: seq<Question>, runId: string, model: string, paramsJson: string,
                       maxCalls: int, rpm: real, dryRun: bool)

  /** Nothing is ever taken out of the cache. */
  predicate Grown<K, V>(before: map<K, V>, after: map<K, V>) {
    forall k :: k in before ==> k in after
  }

  predicate AllAnswered(questions: seq<Question>, run: string, results: map<RunKey, RunRow>) {
    forall i :: 0 <= i < |questions| ==> RunKey(run, questions[i].id) in results
  }

  method RecordReply(q: Question, key: Key, raw: Raw, guard: QuotaGuard)
    requires guard.SoundNow() && Replied(key, raw) in guard.api.history
    modifies guard.cache`generations, guard.cache`results, guard.api
    ensures guard.SoundNow()
    ensures Grown(old(guard.cache.generations), guard.cache.generations)
    ensures Grown(old(guard.cache.results), guard.cache.results)
    ensures RunKey(guard.runId, q.id) in guard.cache.results
    ensures Sends(guard.api.history) == Sends(old(guard.api.history))
  {
    RecordKeepsHistory(guard.api.history, key, raw, guard.cache.generations, guard.cache.results,
                       RunKey(guard.runId, q.id));
    guard.cache.Record(guard.runId, q.id, key, raw, false);
    guard.api.NoteRecorded(key, raw);
  }

  /** So many requests at most for so many calls, retries included. */
  function SendsFor(calls: nat): nat { 7 * calls }

  /** `made` counts the calls of this invocation that went well. */
  datatype Everything = Everything(history: seq<Event>, calls: seq<LogRow>, results: map<RunKey, RunRow>,
                                   generations: map<Key, Raw>, made: nat)

  /** All that an invocation could change. */
  ghost function World(guard: QuotaGuard): Everything
    reads guard, guard.api, guard.cache
  {
    Everything(guard.api.history, guard.cache.calls, guard.cache.results, guard.cache.generations, guard.callsThisRun)
  }

  /** A part of an invocation, in which `failing` more calls did not go well: the cache only
      grows, a dry run sends nothing, every logged success is a call made, and no call takes
      more requests than it may. */
  ghost predicate Advanced(before: Everything, after: Everything, dryRun: bool, failing: nat) {
    && Grown(before.generations, after.generations) && Grown(before.results, after.results)
    && (dryRun ==> after.history == before.history)
    && Successes(after.calls) + before.made <= Successes(before.calls) + after.made
    && Sends(after.history) + SendsFor(before.made) <= Sends(before.history) + SendsFor(after.made + failing)
  }

  /** Every call that went well is logged: so it is unless the process died in between. */
  predicate LoggedExactly(before: Everything, after: Everything) {
    Successes(after.calls) + before.made == Successes(before.calls) + after.made
  }

  /** The invocation ran into one of its caps. */
  ghost predicate CapReached(guard: QuotaGuard, calls: seq<LogRow>, since: real)
    reads guard, guard.clock
  {
    guard.maxCalls <= guard.callsThisRun || DayFull(calls, guard.dailyBudget, since, guard.clock.now)
  }

  /** The last thing that happened is that the API gave up. */
  predicate EndsInFailure(h: seq<Event>) {
    h != [] && (h[|h| - 1].Broke? || h[|h| - 1].Limited?)
  }

  lemma StopKeepsDays(before: seq<LogRow>, after: seq<LogRow>, guard: QuotaGuard, since: real)
    requires |after| == |before| + 1 && after[..|before|] == before && !after[|before|].outcome.ApiCall?
    requires DayFull(before, guard.dailyBudget, since, guard.clock.now)
    ensures DayFull(after, guard.dailyBudget, since, guard.clock.now)
  {
    var day :| DayOf(since) <= day <= DayOf(guard.clock.now) && guard.dailyBudget <= CountOn(before, day);
    assert after == before + [after[|before|]];
    CountOneMore(before, after[|before|], day);
  }

  lemma AdvancedTwice(a: Everything, b: Everything, c: Everything, dryRun: bool, failing: nat)
    requires Advanced(a, b, dryRun, 0) && Advanced(b, c, dryRun, failing)
    ensures Advanced(a, c, dryRun, failing)
  {}

  lemma AnsweredOneMore(questions: seq<Question>, k: nat, run: string, before: Everything, after: Everything)
    requires k < |questions| && Grown(before.results, after.results)
    requires AllAnswered(questions[..k], run, before.results) && RunKey(run, questions[k].id) in after.results
    ensures AllAnswered(questions[..k + 1], run, after.results)
  {
    var front, all := questions[..k], questions[..k + 1];
    assert all == front + [questions[k]];
  }

  /** A call that went well and its record, or the end of the run. */
  method CallAndRecord(q: Question, key: Key, guard: QuotaGuard) returns (end: Option<RunEnd>)
    requires guard.Valid() && guard.SoundNow() && key !in guard.cache.generations
    modifies guard`callsThisRun, guard.cache, guard.clock, guard.bucket, guard.api
    ensures guard.Valid() && guard.SoundNow() && guard.clock.now >= old(guard.clock.now)
    ensures end != Some(Completed)
    ensures end.None? && !guard.dryRun ==> RunKey(guard.runId, q.id) in guard.cache.results
    ensures end == Some(OutOfQuota) ==> !guard.dryRun && CapReached(guard, guard.cache.calls, old(guard.clock.now))
    ensures end == Some(Failed) ==> !guard.dryRun && EndsInFailure(guard.api.history)
    ensures (end.None? || end == Some(Failed)) && !guard.dryRun ==>
      Sends(guard.api.history) >= old(Sends(guard.api.history)) + 1
    ensures Advanced(old(World(guard)), World(guard), guard.dryRun, if end.None? then 0 else 1)
    ensures end != Some(Killed) ==> LoggedExactly(old(World(guard)), World(guard))
  {
    ghost var before, since := guard.cache.calls, guard.clock.now;
    var r := guard.Call(q.id, key);
    match r {
      case Planned => return None;
      case QuotaExceeded =>
        if guard.callsThisRun < guard.maxCalls {
          StopKeepsDays(before, guard.cache.calls, guard, since);
        }
        return Some(OutOfQuota);
      case Raised => return Some(Failed);
      case Died => return Some(Killed);
      case Returned(raw) =>
        if * {
          return Some(Killed);
        }
        assert guard.api.history[|guard.api.history| - 1] in guard.api.history;
        RecordReply(q, key, raw, guard);
        return None;
    }
  }

  /** One turn of the record loop: resume, look up, call, record. */
  method Process(q: Question, model: string, paramsJson: string, guard: QuotaGuard) returns (end: Option<RunEnd>)
    requires guard.Valid() && guard.SoundNow()
    modifies guard`callsThisRun, guard.cache, guard.clock, guard.bucket, guard.api
    ensures guard.Valid() && guard.SoundNow() && guard.clock.now >= old(guard.clock.now)
    ensures end != Some(Completed)
    ensures end.None? && !guard.dryRun ==> RunKey(guard.runId, q.id) in guard.cache.results
    ensures RunKey(guard.runId, q.id) in old(guard.cache.results) ==>
              (end.None? || end == Some(Killed)) && World(guard) == old(World(guard))
    ensures var key := CacheKey(q.prompt, model, paramsJson);
            RunKey(guard.runId, q.id) !in old(guard.cache.results) && key in old(guard.cache.generations) ==>
              || end == Some(Killed)
              || (&& end.None? && guard.api.history == old(guard.api.history)
                  && guard.cache.results == old(guard.cache.results)[
                       RunKey(guard.runId, q.id) := RunRow(key, old(guard.cache.generations)[key], true)])
    ensures var key := CacheKey(q.prompt, model, paramsJson);
            RunKey(guard.runId, q.id) !in old(guard.cache.results) && key !in old(guard.cache.generations)
            && !guard.dryRun && (end.None? || end == Some(Failed)) ==>
              Sends(guard.api.history) >= old(Sends(guard.api.history)) + 1
    ensures end == Some(OutOfQuota) ==> !guard.dryRun && CapReached(guard, guard.cache.calls, old(guard.clock.now))
    ensures end == Some(Failed) ==> !guard.dryRun && EndsInFailure(guard.api.history)
    ensures Advanced(old(World(guard)), World(guard), guard.dryRun, if end.None? then 0 else 1)
    ensures end != Some(Killed) ==> LoggedExactly(old(World(guard)), World(guard))
  {
    if * {
      return Some(Killed);
    }
    var answered := guard.cache.AlreadyHasRunResult(guard.runId, q.id);
    if answered {
      return None;
    }
    var key := CacheKey(q.prompt, model, paramsJson);
    var cached := guard.cache.Lookup(key);
    if cached.Some? {
      guard.cache.Record(guard.runId, q.id, key, cached.value, true);
      return None;
    }
    end := CallAndRecord(q, key, guard);
  }

  lemma LaterDaysCount(guard: QuotaGuard, calls: seq<LogRow>, start: real, since: real)
    requires start <= since && CapReached(guard, calls, since)
    ensures CapReached(guard, calls, start)
  {
    DaysPass(start, since);
  }

  /** The record loop. */
  method RunAll(questions: seq<Question>, model: string, paramsJson: string, guard: QuotaGuard) returns (end: RunEnd)
    requires guard.Valid() && guard.SoundNow() && guard.callsThisRun == 0
    modifies guard`callsThisRun, guard.cache, guard.clock, guard.bucket, guard.api
    ensures guard.Valid() && guard.SoundNow() && guard.clock.now >= old(guard.clock.now)
    ensures Advanced(old(World(guard)), World(guard), guard.dryRun, 1)
    ensures end.Completed? && !guard.dryRun ==> AllAnswered(questions, guard.runId, guard.cache.results)
    ensures AllAnswered(questions, guard.runId, old(guard.cache.results)) ==>
              (end.Completed? || end.Killed?) && World(guard) == old(World(guard))
    ensures end.OutOfQuota? ==> !guard.dryRun && CapReached(guard, guard.cache.calls, old(guard.clock.now))
    ensures end.Failed? ==> !guard.dryRun && EndsInFailure(guard.api.history)
    ensures !end.Killed? ==> LoggedExactly(old(World(guard)), World(guard))
  {
    ghost var start := World(guard);
    for i := 0 to |questions|
      invariant guard.Valid() && guard.SoundNow() && guard.clock.now >= old(guard.clock.now)
      invariant Advanced(start, World(guard), guard.dryRun, 0) && LoggedExactly(start, World(guard))
      invariant guard.dryRun || AllAnswered(questions[..i], guard.runId, guard.cache.results)
      invariant AllAnswered(questions, guard.runId, start.results) ==> World(guard) == start
    {
      ghost var before, since := World(guard), guard.clock.now;
      var stop := Process(questions[i], model, paramsJson, guard);
      AdvancedTwice(start, before, World(guard), guard.dryRun, if stop.None? then 0 else 1);
      if stop.Some? {
        if stop.value.OutOfQuota? {
          LaterDaysCount(guard, guard.cache.calls, old(guard.clock.now), since);
        }
        return stop.value;
      }
      if !guard.dryRun {
        AnsweredOneMore(questions, i, guard.runId, before, World(guard));
      }
    }
    assert questions[..|questions|] == questions;
    return Completed;
  }

  /** One invocation of the runner with a plan and a daily budget. Unless it is killed, it
      ends early only at a cap or when the API gives up. */
  method Invoke(plan: Plan, dailyBudget: int, cache: GenerationCache, clock: Clock, api: Api) returns (end: RunEnd)
    requires plan.rpm >= 1.0
    requires Sound(api.history, cache.generations, cache.results, cache.calls, dailyBudget, DayOf(clock.now))
    modifies cache, clock, api
    ensures Sound(api.history, cache.generations, cache.results, cache.calls, dailyBudget, DayOf(clock.now))
    ensures Grown(old(cache.generations), cache.generations) && Grown(old(cache.results), cache.results)
    ensures end.Completed? && !plan.dryRun ==> AllAnswered(plan.questions, plan.runId, cache.results)
    ensures AllAnswered(plan.questions, plan.runId, old(cache.results)) ==>
              && (end.Completed? || end.Killed?) && api.history == old(api.history) && cache.calls == old(cache.calls)
              && cache.results == old(cache.results) && cache.generations == old(cache.generations)
    ensures plan.dryRun ==> api.history == old(api.history) && (end.Completed? || end.Killed?)
    ensures end.OutOfQuota? ==>
              || Successes(cache.calls) == old(Successes(cache.calls)) + AtLeastZero(plan.maxCalls)
              || DayFull(cache.calls, dailyBudget, old(clock.now), clock.now)
    ensures end.Failed? ==> EndsInFailure(api.history)
    ensures Successes(cache.calls) <= old(Successes(cache.calls)) + AtLeastZero(plan.maxCalls)
    ensures Sends(api.history) <= old(Sends(api.history)) + SendsFor(AtLeastZero(plan.maxCalls) + 1)
  {
    var start := clock.now;
    var guard := new QuotaGuard(cache, clock, api, plan.runId, dailyBudget, plan.maxCalls, plan.rpm, plan.dryRun);
    LaterIsSound(api.history, cache.generations, cache.results, cache.calls, dailyBudget, start, clock.now);
    ghost var since := clock.now;
    end := RunAll(plan.questions, plan.model, plan.paramsJson, guard);
    if end.OutOfQuota? {
      LaterDaysCount(guard, cache.calls, start, since);
    }
  }

  lemma LaterIsSound(h: seq<Event>, generations: map<Key, Raw>, results: map<RunKey, RunRow>, calls: seq<LogRow>,
                     budget: int, before: real, after: real)
    requires Sound(h, generations, results, calls, budget, DayOf(before)) && before <= after
    ensures Sound(h, generations, results, calls, budget, DayOf(after))
  {
    DaysPass(before, after);
  }

  /** Any number of invocations one after the other, with any plans and one daily budget,
      each cut short anywhere or not: no UTC day has more logged calls than the budget,
      nothing is sent again once its result was recorded, and what the cache holds is what
      the API replied. */
  method Campaign(plans: seq<Plan>, dailyBudget: int, clock: Clock) returns (cache: GenerationCache, api: Api)
    requires forall i :: 0 <= i < |plans| ==> plans[i].rpm >= 1.0
    modifies clock
    ensures forall day :: CountOn(cache.calls, day) <= AtLeastZero(dailyBudget)
    ensures NeverResent(api.history) && Genuine(api.history, cache.generations, cache.results)
  {
    cache := new GenerationCache();
    api := new Api();
    for i := 0 to |plans|
      invariant fresh(cache) && fresh(api)
      invariant Sound(api.history, cache.generations, cache.results, cache.calls, dailyBudget, DayOf(clock.now))
    {
      var end := Invoke(plans[i], dailyBudget, cache, clock, api);
    }
  }
}
