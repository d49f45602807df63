/**
 The outbound token bucket, on exact reals.
 
 Time is whatever the clock reads, backward steps included.
 */
module TokenBuckets {
  import opened Wrappers

  datatype Rates = Rates(sustained: int, burst: int) {
    predicate Valid() {
      sustained > 0 && burst >= sustained
    }
  }

  datatype Level = Level(tokens: real, last: real)

  function Forward(from: real, to: real): real {
    if to >= from then to - from else 0.0
  }

  function Earned(r: Rates, seconds: real): real {
    seconds * r.sustained as real
  }

  lemma EarnedAdds(r: Rates, a: real, b: real)
    ensures Earned(r, a + b) == Earned(r, a) + Earned(r, b)
  {
  }

  lemma EarnedPositive(r: Rates, seconds: real)
    requires r.Valid() && seconds >= 0.0
    ensures Earned(r, seconds) >= 0.0
  {
  }

  function Refilled(r: Rates, b: Level, now: real): Level {
    var full := b.tokens + Earned(r, Forward(b.last, now));
    Level(if full <= r.burst as real then full else r.burst as real, now)
  }

  datatype Call = Take(now: real) | Delay(now: real)

  function After(r: Rates, b: Level, c: Call): Level {
    var f := Refilled(r, b, c.now);
    if c.Take? && f.tokens >= 1.0 then f.(tokens := f.tokens - 1.0) else f
  }

  predicate Succeeds(r: Rates, b: Level, c: Call) {
    c.Take? && Refilled(r, b, c.now).tokens >= 1.0
  }

  function Final(r: Rates, b: Level, calls: seq<Call>): Level {
    if calls == [] then b else After(r, Final(r, b, calls[..|calls| - 1]), calls[|calls| - 1])
  }

  /** How many takes of the sequence succeeded. */
  function Taken(r: Rates, b: Level, calls: seq<Call>): nat {
    if calls == [] then 0
    else
      var n := |calls| - 1;
      Taken(r, b, calls[..n]) + if Succeeds(r, Final(r, b, calls[..n]), calls[n]) then 1 else 0
  }

  /** Total forward movement of the clock readings fed in, backward steps not subtracted. */
  function Moved(b: Level, calls: seq<Call>): real {
    if calls == [] then 0.0
    else
      var n := |calls| - 1;
      Moved(b, calls[..n]) + Forward(if n == 0 then b.last else calls[n - 1].now, calls[n].now)
  }

  lemma RefillBounds(r: Rates, b: Level, now: real)
    requires r.Valid() && 0.0 <= b.tokens <= r.burst as real
    ensures 0.0 <= Refilled(r, b, now).tokens <= r.burst as real
    ensures b.tokens <= Refilled(r, b, now).tokens <= b.tokens + Earned(r, Forward(b.last, now))
  {
    EarnedPositive(r, Forward(b.last, now));
  }

  /** One call: what it took and left is at most what there was and what the clock's step earned. */
  lemma CallSpends(r: Rates, b: Level, c: Call)
    requires r.Valid() && 0.0 <= b.tokens <= r.burst as real
    ensures 0.0 <= After(r, b, c).tokens <= r.burst as real
    ensures (if Succeeds(r, b, c) then 1.0 else 0.0) + After(r, b, c).tokens <= b.tokens + Earned(r, Forward(b.last, c.now))
  {
    RefillBounds(r, b, c.now);
  }

  /**
   Whatever the clock does, backward steps included, the level stays within [0, burst], and what was
   taken plus what is left is at most the starting level plus the rate times the forward movement.
   */
  lemma {:induction false} NeverOverspends(r: Rates, b: Level, calls: seq<Call>)
    requires r.Valid() && 0.0 <= b.tokens <= r.burst as real
    ensures 0.0 <= Final(r, b, calls).tokens <= r.burst as real
    ensures Taken(r, b, calls) as real + Final(r, b, calls).tokens <= b.tokens + Earned(r, Moved(b, calls))
  {
    if calls != [] {
      var n := |calls| - 1;
      NeverOverspends(r, b, calls[..n]);
      CallSpends(r, Final(r, b, calls[..n]), calls[n]);
      EarnedAdds(r, Moved(b, calls[..n]), Forward(if n == 0 then b.last else calls[n - 1].now, calls[n].now));
    }
  }

  predicate Nondecreasing(b: Level, calls: seq<Call>) {
    && (calls != [] ==> b.last <= calls[0].now)
    && (forall i | 0 < i < |calls| :: calls[i - 1].now <= calls[i].now)
  }

  lemma {:induction false} MovedIsElapsed(b: Level, calls: seq<Call>)
    requires Nondecreasing(b, calls)
    ensures Moved(b, calls) == if calls == [] then 0.0 else calls[|calls| - 1].now - b.last
  {
    if calls != [] {
      MovedIsElapsed(b, calls[..|calls| - 1]);
    }
  }

  /** With a clock that never steps back, any stretch of calls takes at most burst plus rate times wall time. */
  lemma {:induction false} RateBound(r: Rates, b: Level, calls: seq<Call>)
    requires r.Valid() && 0.0 <= b.tokens <= r.burst as real && calls != [] && Nondecreasing(b, calls)
    ensures Taken(r, b, calls) as real <= r.burst as real + Earned(r, calls[|calls| - 1].now - b.last)
  {
    NeverOverspends(r, b, calls);
    MovedIsElapsed(b, calls);
  }

  /** No call comes when more has been earned than the bucket holds. */
  predicate NeverFull(r: Rates, b: Level, calls: seq<Call>) {
    calls == []
    || (NeverFull(r, b, calls[..|calls| - 1]) && HasRoom(r, Final(r, b, calls[..|calls| - 1]), calls[|calls| - 1].now))
  }

  predicate HasRoom(r: Rates, b: Level, now: real) {
    b.tokens + Earned(r, Forward(b.last, now)) <= r.burst as real
  }

  lemma CallKeepsAll(r: Rates, b: Level, c: Call)
    requires HasRoom(r, b, c.now)
    ensures (if Succeeds(r, b, c) then 1.0 else 0.0) + After(r, b, c).tokens == b.tokens + Earned(r, Forward(b.last, c.now))
    ensures After(r, b, c).last == c.now
  {
  }

  /** And nothing earned is lost: until the bucket is full, what was taken plus what is left is all there was and all the time earned. */
  lemma {:induction false} NothingLost(r: Rates, b: Level, calls: seq<Call>)
    requires NeverFull(r, b, calls)
    ensures Taken(r, b, calls) as real + Final(r, b, calls).tokens == b.tokens + Earned(r, Moved(b, calls))
    ensures Final(r, b, calls).last == if calls == [] then b.last else calls[|calls| - 1].now
  {
    if calls != [] {
      var n := |calls| - 1;
      NothingLost(r, b, calls[..n]);
      CallKeepsAll(r, Final(r, b, calls[..n]), calls[n]);
      EarnedAdds(r, Moved(b, calls[..n]), Forward(if n == 0 then b.last else calls[n - 1].now, calls[n].now));
    }
  }

  /** A wait that would earn more than there is room for leaves the bucket full. */
  lemma FullAtMost(r: Rates, b: Level, now: real)
    requires r.burst as real <= b.tokens + Earned(r, Forward(b.last, now))
    ensures After(r, b, Delay(now)) == Level(r.burst as real, now)
  {
  }

  /** `calls` and then `k` takes at one moment. */
  function ThenTakes(calls: seq<Call>, now: real, k: nat): seq<Call> {
    if k == 0 then calls else ThenTakes(calls, now, k - 1) + [Take(now)]
  }

  lemma TokenTaken(r: Rates, tokens: nat, now: real)
    requires r.Valid() && 0 < tokens <= r.burst
    ensures Succeeds(r, Level(tokens as real, now), Take(now))
    ensures After(r, Level(tokens as real, now), Take(now)) == Level((tokens - 1) as real, now)
  {
  }

  /** Whole tokens are there to be taken at once. */
  lemma {:induction false} TakesSucceed(r: Rates, b: Level, calls: seq<Call>, tokens: nat, now: real, k: nat)
    requires r.Valid() && k <= tokens <= r.burst && Final(r, b, calls) == Level(tokens as real, now)
    ensures Final(r, b, ThenTakes(calls, now, k)) == Level((tokens - k) as real, now)
    ensures Taken(r, b, ThenTakes(calls, now, k)) == Taken(r, b, calls) + k
  {
    if k > 0 {
      TakesSucceed(r, b, calls, tokens, now, k - 1);
      TokenTaken(r, tokens - (k - 1), now);
    }
  }

  /** Every call falls within one second of the start. */
  predicate WithinASecond(start: real, calls: seq<Call>) {
    forall i | 0 <= i < |calls| :: start <= calls[i].now <= start + 1.0
  }

  lemma {:induction false} TakesWithin(start: real, calls: seq<Call>, now: real, k: nat)
    requires WithinASecond(start, calls) && start <= now <= start + 1.0
    ensures WithinASecond(start, ThenTakes(calls, now, k))
  {
    if k > 0 {
      TakesWithin(start, calls, now, k - 1);
    }
  }

  /** Back to the start, through the same second again, and all it earns is taken. */
  function Again(r: Rates, start: real, before: seq<Call>): seq<Call>
    requires r.Valid()
  {
    ThenTakes(before + [Delay(start)] + [Delay(start + 1.0)], start + 1.0, r.sustained)
  }

  lemma {:induction false} AgainTakes(r: Rates, b: Level, start: real, before: seq<Call>)
    requires r.Valid() && Final(r, b, before).tokens == 0.0 && Final(r, b, before).last >= start && WithinASecond(start, before)
    ensures Final(r, b, Again(r, start, before)) == Level(0.0, start + 1.0)
    ensures Taken(r, b, Again(r, start, before)) == Taken(r, b, before) + r.sustained
    ensures WithinASecond(start, Again(r, start, before))
  {
    var again := before + [Delay(start)] + [Delay(start + 1.0)];
    TakesSucceed(r, b, again, r.sustained, start + 1.0, r.sustained);
    TakesWithin(start, again, start + 1.0, r.sustained);
  }

  /** The bucket is emptied, and then that, `n` times. */
  function Rounds(r: Rates, start: real, n: nat): seq<Call>
    requires r.Valid()
  {
    if n == 0 then ThenTakes([], start, r.burst) else Again(r, start, Rounds(r, start, n - 1))
  }

  lemma {:induction false} RoundsTake(r: Rates, start: real, n: nat)
    requires r.Valid()
    ensures var b := Level(r.burst as real, start);
            && Final(r, b, Rounds(r, start, n)).tokens == 0.0 && Taken(r, b, Rounds(r, start, n)) == r.burst + n * r.sustained
            && Final(r, b, Rounds(r, start, n)).last >= start && WithinASecond(start, Rounds(r, start, n))
  {
    var b := Level(r.burst as real, start);
    if n == 0 {
      TakesSucceed(r, b, [], r.burst, start, r.burst);
      TakesWithin(start, [], start, r.burst);
    } else {
      RoundsTake(r, start, n - 1);
      AgainTakes(r, b, start, Rounds(r, start, n - 1));
      assert (n - 1) * r.sustained + r.sustained == n * r.sustained;
    }
  }

  /** A clock that steps back is paid again for the same second: for no rate is there a bound by wall time. */
  lemma BackwardStepPaidTwice(r: Rates, b: Level, n: nat)
    requires r.Valid() && b.tokens == r.burst as real
    ensures exists calls: seq<Call> :: WithinASecond(b.last, calls) && Taken(r, b, calls) == r.burst + n * r.sustained
  {
    RoundsTake(r, b.last, n);
    assert b == Level(r.burst as real, b.last);
    assert WithinASecond(b.last, Rounds(r, b.last, n));
  }

  const MIN_SLEEP: real := 0.001

  function Deficit(r: Rates, b: Level): real
    requires r.Valid()
  {
    if b.tokens >= 1.0 then 0.0 else (1.0 - b.tokens) / r.sustained as real
  }

  function Nap(delay: real): real {
    if delay >= MIN_SLEEP then delay else MIN_SLEEP
  }

  /** One computed sleep is always enough. */
  lemma OneNapSuffices(r: Rates, b: Level, now: real)
    requires r.Valid() && 0.0 <= b.tokens < 1.0 && b.last == now
    ensures Refilled(r, b, now + Nap(Deficit(r, b))).tokens >= 1.0
  {
    var d, nap, rate := Deficit(r, b), Nap(Deficit(r, b)), r.sustained as real;
    assert d * rate == 1.0 - b.tokens;
    assert Forward(now, now + nap) == nap;
    EarnedAdds(r, d, nap - d);
    EarnedPositive(r, nap - d);
  }

  /** Where there is a token there is no deficit, and no sleep is shorter than a millisecond. */
  lemma NapBounds(r: Rates, b: Level)
    requires r.Valid() && b.tokens >= 0.0
    ensures Deficit(r, b) == 0.0 <==> b.tokens >= 1.0
    ensures Nap(Deficit(r, b)) >= 0.001 && Nap(Deficit(r, b)) >= Deficit(r, b)
  {
    if b.tokens < 1.0 { assert Deficit(r, b) * r.sustained as real == 1.0 - b.tokens; }
  }

  /** Nor is it longer than it must be: any shorter one, and no sleep shorter than a millisecond is made, leaves less than a token. */
  lemma NoShorterNap(r: Rates, b: Level, now: real, nap: real)
    requires r.Valid() && 0.0 <= b.tokens < 1.0 && b.last == now && 0.0 <= nap < Nap(Deficit(r, b)) && nap >= 0.001
    ensures Refilled(r, b, now + nap).tokens < 1.0
  {
    var d := Deficit(r, b);
    assert d * r.sustained as real == 1.0 - b.tokens;
    assert Forward(now, now + nap) == nap;
    EarnedAdds(r, nap, d - nap);
    assert Earned(r, d - nap) > 0.0;
  }

  datatype BucketError = RateNotPositive | BurstBelowRate

  class TokenBucket {
    const rates: Rates
    var tokens: real
    var last: real

    ghost predicate Valid()
      reads this
    {
      rates.Valid() && 0.0 <= tokens <= rates.burst as real
    }

    function AsLevel(): Level
      reads this
    {
      Level(tokens, last)
    }

    constructor (rates: Rates, now: real)
      requires rates.Valid()
      ensures Valid() && this.rates == rates && AsLevel() == Level(rates.burst as real, now)
    {
      this.rates, tokens, last := rates, rates.burst as real, now;
    }

    static method Create(sustained: int, burst: int, now: real) returns (r: Result<TokenBucket, BucketError>)
      ensures r.Ok? <==> 0 < sustained <= burst
      ensures r.Ok? ==> fresh(r.value) && r.value.Valid() && r.value.AsLevel() == Level(burst as real, now)
    {
      if sustained <= 0 { return Err(RateNotPositive); }
      if burst < sustained { return Err(BurstBelowRate); }
      var bucket := new TokenBucket(Rates(sustained, burst), now);
      return Ok(bucket);
    }

    method Refill(now: real)
      requires Valid()
      modifies this
      ensures Valid() && AsLevel() == Refilled(rates, old(AsLevel()), now)
    {
      RefillBounds(rates, AsLevel(), now);
      var elapsed := if now - last >= 0.0 then now - last else 0.0;
      last := now;
      var full := tokens + Earned(rates, elapsed);
      tokens := if full <= rates.burst as real then full else rates.burst as real;
    }

    method TakeOne(now: real) returns (ok: bool)
      requires Valid()
      modifies this
      ensures Valid() && AsLevel() == After(rates, old(AsLevel()), Take(now))
      ensures ok == Succeeds(rates, old(AsLevel()), Take(now))
    {
      Refill(now);
      if tokens < 1.0 { return false; }
      tokens := tokens - 1.0;
      return true;
    }

    method DelayUntilToken(now: real) returns (delay: real)
      requires Valid()
      modifies this
      ensures Valid() && AsLevel() == After(rates, old(AsLevel()), Delay(now))
      ensures delay == Deficit(rates, AsLevel())
    {
      Refill(now);
      if tokens >= 1.0 { return 0.0; }
      delay := (1.0 - tokens) / rates.sustained as real;
    }

    /** Take, or sleep the deficit once and take: never a third attempt while nobody else takes. */
    method Acquire(now: real) returns (attempts: nat, slept: real)
      requires Valid()
      modifies this
      ensures Valid() && 1 <= attempts <= 2
      ensures attempts == 1 <==> Succeeds(rates, old(AsLevel()), Take(now))
      ensures slept == if attempts == 1 then 0.0 else Nap(Deficit(rates, Refilled(rates, old(AsLevel()), now)))
    {
      RefillBounds(rates, AsLevel(), now);
      ghost var missed := Refilled(rates, AsLevel(), now);
      var clock := now;
      attempts, slept := 1, 0.0;
      var ok := TakeOne(clock);
      while !ok
        invariant Valid() && 1 <= attempts <= 2
        invariant attempts == 1 ==> clock == now && slept == 0.0 && (ok <==> Succeeds(rates, old(AsLevel()), Take(now)))
        invariant attempts == 1 && !ok ==> AsLevel() == missed
        invariant attempts == 2 ==> ok && !Succeeds(rates, old(AsLevel()), Take(now)) && slept == Nap(Deficit(rates, missed))
        decreases 2 - attempts
      {
        var delay := DelayUntilToken(clock);
        assert AsLevel() == missed;
        OneNapSuffices(rates, missed, clock);
        var nap := if delay >= MIN_SLEEP then delay else MIN_SLEEP;
        slept := slept + nap;
        clock := clock + nap;
        attempts := attempts + 1;
        ok := TakeOne(clock);
      }
    }
  }
}
