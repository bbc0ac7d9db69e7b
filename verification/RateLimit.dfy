/** The token bucket in front of the public API, over real numbers. */
module RateLimit {
  const BURST: real := 60.0
  const RATE: real := 20.0

  datatype Bucket = Bucket(tokens: real, at: real)

  function Filled(b: Bucket, now: real): real {
    var t := b.tokens + (now - b.at) * RATE;
    if t > BURST then BURST else t
  }

  predicate Allows(b: Bucket, now: real) { Filled(b, now) >= 1.0 }

  function Next(b: Bucket, now: real): Bucket {
    Bucket(if Allows(b, now) then Filled(b, now) - 1.0 else Filled(b, now), now)
  }

  class RateLimiter {
    var rateTokens: real
    var rateAt: real

    function View(): Bucket
      reads this
    {
      Bucket(rateTokens, rateAt)
    }

    constructor (now: real)
      ensures View() == Bucket(BURST, now)
    {
      rateTokens, rateAt := BURST, now;
    }

    method AllowRequest(now: real) returns (allowed: bool)
      modifies this
      ensures allowed == Allows(old(View()), now) && View() == Next(old(View()), now)
    {
      rateTokens := rateTokens + (now - rateAt) * RATE;
      if rateTokens > BURST { rateTokens := BURST; }
      rateAt := now;
      if rateTokens < 1.0 { return false; }
      rateTokens := rateTokens - 1.0;
      return true;
    }
  }

  // ---- Runs ----

  predicate InTime(b: Bucket, times: seq<real>) {
    && (forall i :: 0 <= i < |times| ==> b.at <= times[i])
    && (forall i, j :: 0 <= i < j < |times| ==> times[i] <= times[j])
  }

  function After(b: Bucket, times: seq<real>): Bucket
    decreases |times|
  {
    if times == [] then b else Next(After(b, times[..|times| - 1]), times[|times| - 1])
  }

  /** How many of the requests are allowed. */
  function Allowed(b: Bucket, times: seq<real>): nat
    decreases |times|
  {
    if times == [] then 0
    else
      var n := |times| - 1;
      Allowed(b, times[..n]) + if Allows(After(b, times[..n]), times[n]) then 1 else 0
  }

  predicate Sane(b: Bucket) { 0.0 <= b.tokens <= BURST }

  lemma {:induction false} AfterIsSane(b: Bucket, times: seq<real>)
    requires Sane(b) && InTime(b, times)
    ensures Sane(After(b, times)) && After(b, times).at == if times == [] then b.at else times[|times| - 1]
    decreases |times|
  {
    if times != [] { AfterIsSane(b, times[..|times| - 1]); }
  }

  /** Each allowed request is paid for by the tokens there were or by the time that passed. */
  lemma {:induction false} Paid(b: Bucket, times: seq<real>)
    requires Sane(b) && InTime(b, times)
    ensures Allowed(b, times) as real + After(b, times).tokens <= b.tokens + (After(b, times).at - b.at) * RATE
    decreases |times|
  {
    if times != [] {
      var n := |times| - 1;
      Paid(b, times[..n]);
      AfterIsSane(b, times[..n]);
    }
  }

  lemma {:induction false} AfterTwo(b: Bucket, times: seq<real>, i: nat)
    requires i <= |times|
    ensures After(b, times) == After(After(b, times[..i]), times[i..])
    ensures Allowed(b, times) == Allowed(b, times[..i]) + Allowed(After(b, times[..i]), times[i..])
    decreases |times|
  {
    if i == |times| {
      assert times[..i] == times && times[i..] == [];
    } else {
      var n := |times| - 1;
      AfterTwo(b, times[..n], i);
      assert times[..n][..i] == times[..i] && times[..n][i..] == times[i..][..n - i] && times[i..][n - i] == times[n];
    }
  }

  /** In any run, the requests from the i-th to the j-th, that is those of any window of `seconds`
      seconds, are at most 60 plus 20 a second. */
  lemma WindowIsBounded(start: real, times: seq<real>, i: nat, j: nat, seconds: real)
    requires InTime(Bucket(BURST, start), times) && i < j <= |times| && times[j - 1] - times[i] <= seconds
    ensures (Allowed(Bucket(BURST, start), times[..j]) - Allowed(Bucket(BURST, start), times[..i])) as real
            <= BURST + RATE * seconds
  {
    var b := Bucket(BURST, start);
    AfterIsSane(b, times[..i]);
    var full := WindowAlone(b, times, i, j);
    Paid(full, times[i..j]);
    AfterIsSane(full, times[i..j]);
    var after := After(full, times[i..j]);
    Spent(Allowed(full, times[i..j]) as real, after.tokens, full.tokens, after.at - full.at, seconds);
  }

  /** The requests of a window are allowed as if they met a bucket filled at the first of them. */
  lemma WindowAlone(b: Bucket, times: seq<real>, i: nat, j: nat) returns (full: Bucket)
    requires Sane(b) && InTime(b, times) && i < j <= |times| && Sane(After(b, times[..i]))
    requires After(b, times[..i]).at <= times[i]
    ensures Sane(full) && InTime(full, times[i..j]) && full.at == times[i]
    ensures Allowed(b, times[..j]) == Allowed(b, times[..i]) + Allowed(full, times[i..j])
  {
    assert times[..j][..i] == times[..i] && times[..j][i..] == times[i..j];
    AfterTwo(b, times[..j], i);
    full := Bucket(Filled(After(b, times[..i]), times[i]), times[i]);
    FirstOnly(After(b, times[..i]), times[i..j]);
  }

  lemma Spent(allowed: real, left: real, tokens: real, elapsed: real, seconds: real)
    requires allowed + left <= tokens + elapsed * RATE && 0.0 <= left && tokens <= BURST && elapsed <= seconds
    ensures allowed <= BURST + RATE * seconds
  {
  }

  /** A request at the very moment the bucket was last filled finds it as filled. */
  lemma {:induction false} FirstOnly(b: Bucket, times: seq<real>)
    requires Sane(b) && InTime(b, times) && times != []
    ensures Allowed(b, times) == Allowed(Bucket(Filled(b, times[0]), times[0]), times)
    ensures After(b, times) == After(Bucket(Filled(b, times[0]), times[0]), times)
    ensures Sane(Bucket(Filled(b, times[0]), times[0])) && InTime(Bucket(Filled(b, times[0]), times[0]), times)
    decreases |times|
  {
    var n := |times| - 1;
    assert Filled(Bucket(Filled(b, times[0]), times[0]), times[0]) == Filled(b, times[0]);
    if n > 0 {
      FirstOnly(b, times[..n]);
      assert times[..n][0] == times[0];
    } else {
      assert times[..0] == [];
    }
  }

  /** The bound is reached: a burst of up to 60 requests at one moment is allowed in full. */
  lemma {:induction false} BurstIsAllowed(now: real, times: seq<real>)
    requires |times| <= 60 && forall i :: 0 <= i < |times| ==> times[i] == now
    ensures Allowed(Bucket(BURST, now), times) == |times|
    ensures After(Bucket(BURST, now), times) == Bucket(BURST - |times| as real, now)
    decreases |times|
  {
    if times != [] { BurstIsAllowed(now, times[..|times| - 1]); }
  }

  lemma Refilled(b: Bucket, now: real)
    requires Sane(b) && (now - b.at) * RATE >= 1.0
    ensures Allows(b, now)
  {
  }

  lemma Unspent(b: Bucket, now: real)
    requires 1.0 <= b.tokens <= BURST && b.at <= now
    ensures Allows(b, now)
  {
  }

  /** A client that keeps to the rate is never refused. */
  lemma {:induction false} SlowRequestsAreAllowed(b: Bucket, times: seq<real>)
    requires Sane(b) && b.tokens >= 1.0 && InTime(b, times)
    requires forall i :: 0 < i < |times| ==> (times[i] - times[i - 1]) * RATE >= 1.0
    ensures Allowed(b, times) == |times| && (times != [] ==> After(b, times).tokens >= 0.0)
    decreases |times|
  {
    if times != [] {
      var n := |times| - 1;
      SlowRequestsAreAllowed(b, times[..n]);
      AfterIsSane(b, times[..n]);
      if n > 0 { Refilled(After(b, times[..n]), times[n]); } else { Unspent(b, times[0]); }
    }
  }
}
