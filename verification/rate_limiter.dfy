/**
 The token bucket of `consumeToken`: integer tokens, and a refill that rounds down and
 then forgets the remainder.  Times are integer nanoseconds of a monotonic clock.
 */
module RateLimiter {

  const MAX_TOKENS := 5
  const RATE_PER_SEC := 5
  const SECOND := 1_000_000_000

  /** `lastRefill` is `None` while the source's field is the zero time. */
  datatype Stamp = None | At(t: int)

  datatype Bucket = Bucket(tokens: int, lastRefill: Stamp)

  const FRESH := Bucket(0, None)

  /** Whole tokens earned in an elapsed time that is not negative; the fraction is dropped. */
  function Earned(elapsed: int): int {
    elapsed * RATE_PER_SEC / SECOND
  }

  function Refilled(b: Bucket, now: int): Bucket {
    match b.lastRefill
    case None => Bucket(MAX_TOKENS, At(now))
    case At(t) =>
      var add := Earned(now - t);
      if add > 0 then Bucket(if b.tokens + add > MAX_TOKENS then MAX_TOKENS else b.tokens + add, At(now)) else b
  }

  function Spent(b: Bucket): (Bucket, bool) {
    if b.tokens > 0 then (b.(tokens := b.tokens - 1), true) else (b, false)
  }

  /** The limiter's two fields of a client connection. */
  class Limiter {
    var msgTokens: int
    var lastRefill: Stamp

    function View(): Bucket
      reads this
    {
      Bucket(msgTokens, lastRefill)
    }

    constructor ()
      ensures View() == FRESH
    {
      msgTokens, lastRefill := 0, None;
    }

    method ConsumeToken(now: int) returns (granted: bool)
      modifies this
      ensures (View(), granted) == Spent(Refilled(old(View()), now))
    {
      if lastRefill == None {
        lastRefill := At(now);
        msgTokens := MAX_TOKENS;
      } else {
        var elapsed := now - lastRefill.t;
        var add := elapsed * RATE_PER_SEC / SECOND;
        if add > 0 {
          msgTokens := msgTokens + add;
          if msgTokens > MAX_TOKENS {
            msgTokens := MAX_TOKENS;
          }
          lastRefill := At(now);
        }
      }
      if msgTokens > 0 {
        msgTokens := msgTokens - 1;
        return true;
      }
      return false;
    }
  }

  // ---- runs: one connection's calls, at nondecreasing times ----------------------

  ghost predicate Nondecreasing(times: seq<int>) {
    forall i, j :: 0 <= i <= j < |times| ==> times[i] <= times[j]
  }

  /** The bucket after the first `n` calls. */
  function After(times: seq<int>, n: nat): Bucket
    requires n <= |times|
  {
    if n == 0 then FRESH else Spent(Refilled(After(times, n - 1), times[n - 1])).0
  }

  predicate Granted(times: seq<int>, i: nat)
    requires i < |times|
  {
    Spent(Refilled(After(times, i), times[i])).1
  }

  /** Grants among calls `i` up to, not including, `j`. */
  function Grants(times: seq<int>, i: nat, j: nat): nat
    requires i <= j <= |times|
  {
    if i == j then 0 else Grants(times, i, j - 1) + (if Granted(times, j - 1) then 1 else 0)
  }

  /** After any call: at most four tokens, and the refill stamp is not in the future. */
  lemma {:induction false} AtMostFourAfterACall(times: seq<int>, n: nat)
    requires Nondecreasing(times) && 0 < n <= |times|
    ensures After(times, n).lastRefill.At? && After(times, n).lastRefill.t <= times[n - 1]
    ensures 0 <= After(times, n).tokens < MAX_TOKENS
  {
    if n > 1 {
      AtMostFourAfterACall(times, n - 1);
    }
  }

  /** Tokens and unclaimed time together, in units of a token times a nanosecond. */
  function Level(b: Bucket, now: int): int
    requires b.lastRefill.At?
  {
    b.tokens * SECOND + RATE_PER_SEC * (now - b.lastRefill.t)
  }

  /** A refill step never creates credit, and leaves no more than a full bucket. */
  lemma RefillKeepsLevel(b: Bucket, now: int)
    requires b.lastRefill.At? && b.lastRefill.t <= now && b.tokens < MAX_TOKENS
    ensures Refilled(b, now).lastRefill.At?
    ensures Level(Refilled(b, now), now) <= Level(b, now)
    ensures Level(Refilled(b, now), now) <= MAX_TOKENS * SECOND
  {
  }

  /** What calls `i..j` are granted is paid from the level at call `i` and the time since. */
  lemma {:induction false} GrantsArePaidFor(times: seq<int>, i: nat, j: nat)
    requires Nondecreasing(times) && i < j <= |times|
    ensures After(times, j).lastRefill.At?
    ensures Grants(times, i, j) * SECOND + Level(After(times, j), times[j - 1])
            <= MAX_TOKENS * SECOND + RATE_PER_SEC * (times[j - 1] - times[i])
    decreases j
  {
    var k := j - 1;
    AtMostFourAfterACall(times, j);
    if k > 0 {
      AtMostFourAfterACall(times, k);
      RefillKeepsLevel(After(times, k), times[k]);
    }
    if i < k {
      GrantsArePaidFor(times, i, k);
      assert Grants(times, i, j) == Grants(times, i, k) + (if Granted(times, k) then 1 else 0);
    } else {
      assert Grants(times, i, j) == Grants(times, i, i) + (if Granted(times, i) then 1 else 0);
    }
  }

  /** Any window of calls is granted at most a full bucket plus five a second. */
  lemma WindowBound(times: seq<int>, i: nat, j: nat)
    requires Nondecreasing(times) && i <= j < |times|
    ensures Grants(times, i, j + 1) * SECOND <= MAX_TOKENS * SECOND + RATE_PER_SEC * (times[j] - times[i])
  {
    AtMostFourAfterACall(times, j + 1);
    GrantsArePaidFor(times, i, j + 1);
  }

  /** The bound is met with equality: five calls at one instant are all granted, and a sixth is not. */
  lemma WindowBoundIsTight(t: int)
    ensures Grants([t, t, t, t, t, t], 0, 6) == 5
  {
    var times := [t, t, t, t, t, t];
    assert After(times, 1) == Bucket(4, At(t));
    assert After(times, 2) == Bucket(3, At(t));
    assert After(times, 3) == Bucket(2, At(t));
    assert After(times, 4) == Bucket(1, At(t));
    assert After(times, 5) == Bucket(0, At(t));
    assert !Granted(times, 5);
    assert Grants(times, 0, 1) == 1;
    assert Grants(times, 0, 2) == 2;
    assert Grants(times, 0, 3) == 3;
    assert Grants(times, 0, 4) == 4;
    assert Grants(times, 0, 5) == 5;
  }

  /** When exactly a call is refused: the bucket is empty and no 200 ms have passed since the last refill. */
  lemma RefusedExactlyWhen(times: seq<int>, n: nat)
    requires Nondecreasing(times) && 0 < n < |times|
    ensures After(times, n).lastRefill.At?
    ensures !Granted(times, n) <==>
            After(times, n).tokens == 0 && times[n] - After(times, n).lastRefill.t < SECOND / RATE_PER_SEC
  {
    AtMostFourAfterACall(times, n);
  }

  /** A caller that spaces its calls by 200 ms is never refused. */
  lemma SpacedCallsAreGranted(times: seq<int>, n: nat)
    requires n < |times|
    requires forall i :: 0 < i < |times| ==> times[i] >= times[i - 1] + SECOND / RATE_PER_SEC
    ensures Granted(times, n)
  {
    SpacedIsNondecreasing(times);
    if n > 0 {
      AtMostFourAfterACall(times, n);
      assert times[n] >= times[n - 1] + SECOND / RATE_PER_SEC;
    }
  }

  lemma {:induction false} SpacedIsNondecreasing(times: seq<int>)
    requires forall i :: 0 < i < |times| ==> times[i] >= times[i - 1]
    ensures Nondecreasing(times)
  {
    if |times| > 1 {
      var n := |times| - 1;
      SpacedIsNondecreasing(times[..n]);
      forall i, j | 0 <= i <= j < |times| ensures times[i] <= times[j] {
        assert j < n ==> times[..n][i] <= times[..n][j];
        assert i < n ==> times[..n][i] <= times[..n][n - 1];
        assert times[n] >= times[n - 1];
      }
    }
  }

  // ---- what is certainly granted ------------------------------------------------------

  /**
   How many calls the bucket lets through at the time of call `n`: what is left, one more for every 200 ms since
   the stamp, and never more than five; before the first call, five.
   */
  function Burst(times: seq<int>, n: nat): int
    requires n < |times|
  {
    match After(times, n).lastRefill
    case None => 5
    case At(t) =>
      var earned := (times[n] - t) / (SECOND / 5);
      if After(times, n).tokens + earned > 5 then 5 else After(times, n).tokens + earned
  }

  /** After `j` calls from call `n` on, at least the burst less `j` is left, exactly that while no time passes. */
  lemma {:induction false} BurstIsLeft(times: seq<int>, n: nat, j: nat)
    requires Nondecreasing(times) && n + j < |times| && 0 < j <= Burst(times, n)
    ensures After(times, n + j).lastRefill.At? && After(times, n + j).lastRefill.t <= times[n + j - 1]
    ensures After(times, n + j).tokens >= Burst(times, n) - j
    ensures times[n + j - 1] == times[n] ==>
              After(times, n + j).tokens == Burst(times, n) - j
              && Earned(times[n] - After(times, n + j).lastRefill.t) == 0
    decreases j
  {
    if n > 0 { AtMostFourAfterACall(times, n); }
    if j == 1 {
      FirstOfBurst(times, n);
    } else {
      BurstIsLeft(times, n, j - 1);
      AtMostFourAfterACall(times, n + j - 1);
      assert times[n + j - 2] <= times[n + j - 1];
    }
  }

  lemma FirstOfBurst(times: seq<int>, n: nat)
    requires Nondecreasing(times) && n < |times| && Burst(times, n) > 0
    requires n > 0 ==> After(times, n).lastRefill.At? && After(times, n).lastRefill.t <= times[n - 1]
    requires n > 0 ==> 0 <= After(times, n).tokens < MAX_TOKENS
    ensures After(times, n + 1).lastRefill.At? && After(times, n + 1).lastRefill.t <= times[n]
    ensures After(times, n + 1).tokens == Burst(times, n) - 1
    ensures Earned(times[n] - After(times, n + 1).lastRefill.t) == 0
  {
  }

  /** The stamp is the time of the last call that credited anything, or of the first; the fraction is forgotten. */
  lemma {:induction false} StampIsLastCredit(times: seq<int>, n: nat) returns (i: nat)
    requires Nondecreasing(times) && 0 < n <= |times|
    ensures i < n && After(times, n).lastRefill == At(times[i])
    ensures i == 0 || CreditAt(times, i) > 0
    ensures forall k :: i < k < n ==> CreditAt(times, k) == 0
  {
    if n == 1 || CreditAt(times, n - 1) > 0 {
      i := n - 1;
    } else {
      i := StampIsLastCredit(times, n - 1);
    }
  }

  /** Once the burst is over, the bucket stays empty while no time passes. */
  lemma {:induction false} BurstIsSpent(times: seq<int>, n: nat, j: nat)
    requires Nondecreasing(times) && n + j < |times| && Burst(times, n) <= j && times[n + j] == times[n]
    ensures After(times, n + j).lastRefill.At? && After(times, n + j).tokens == 0
    ensures Earned(times[n] - After(times, n + j).lastRefill.t) == 0
    decreases j
  {
    if n > 0 { AtMostFourAfterACall(times, n); }
    if j > Burst(times, n) {
      assert times[n] <= times[n + j - 1] <= times[n + j];
      BurstIsSpent(times, n, j - 1);
    } else if j > 0 {
      assert times[n] <= times[n + j - 1] <= times[n + j];
      BurstIsLeft(times, n, j);
    }
  }

  /** The calls of a burst are granted, at whatever times they come after it has been earned. */
  lemma BurstIsGranted(times: seq<int>, n: nat, j: nat)
    requires Nondecreasing(times) && n + j < |times| && j < Burst(times, n)
    ensures Granted(times, n + j)
  {
    if n > 0 { AtMostFourAfterACall(times, n); }
    if j > 0 {
      BurstIsLeft(times, n, j);
      AtMostFourAfterACall(times, n + j);
    }
  }

  /** Of the calls that come at one instant exactly the burst is granted. */
  lemma BurstExactly(times: seq<int>, n: nat, j: nat)
    requires Nondecreasing(times) && n + j < |times| && times[n + j] == times[n]
    ensures Granted(times, n + j) <==> j < Burst(times, n)
  {
    if j < Burst(times, n) {
      BurstIsGranted(times, n, j);
    } else {
      BurstIsSpent(times, n, j);
    }
  }

  /** After a second without a call, whatever came before, the next five calls are granted. */
  lemma SilenceFillsTheBucket(times: seq<int>, n: nat, m: nat)
    requires Nondecreasing(times) && 0 < n <= m < n + 5 && m < |times|
    requires times[n] >= times[n - 1] + SECOND
    ensures Granted(times, m)
  {
    AtMostFourAfterACall(times, n);
    BurstIsGranted(times, n, m - n);
  }

  // ---- conservation -----------------------------------------------------------------

  /** Tokens that the refill of call `n` adds before capping; the first call fills the bucket instead. */
  function CreditAt(times: seq<int>, n: nat): int
    requires n < |times|
  {
    match After(times, n).lastRefill
    case None => 0
    case At(t) => if Earned(times[n] - t) > 0 then Earned(times[n] - t) else 0
  }

  function Credited(times: seq<int>, n: nat): int
    requires n <= |times|
  {
    if n == 0 then 0 else Credited(times, n - 1) + CreditAt(times, n - 1)
  }

  predicate NeverCapped(times: seq<int>, n: nat)
    requires n <= |times|
  {
    forall k :: 0 < k < n ==> After(times, k).tokens + CreditAt(times, k) <= MAX_TOKENS
  }

  lemma {:induction false} NothingLostUncapped(times: seq<int>, n: nat)
    requires Nondecreasing(times) && 0 < n <= |times| && NeverCapped(times, n)
    ensures Grants(times, 0, n) + After(times, n).tokens == MAX_TOKENS + Credited(times, n)
  {
    if n > 1 {
      AtMostFourAfterACall(times, n - 1);
      NothingLostUncapped(times, n - 1);
      assert After(times, n - 1).tokens + CreditAt(times, n - 1) <= MAX_TOKENS;
    } else {
      assert Grants(times, 0, 0) == 0 && Credited(times, 0) == 0;
    }
  }

  /** A credit of `credit` tokens for a move of the stamp by `moved`: none is made up, and at most half is lost. */
  ghost predicate WithinHalf(credit: int, moved: int) {
    RATE_PER_SEC * moved <= 2 * SECOND * credit && SECOND * credit <= RATE_PER_SEC * moved
  }

  lemma CreditsAdd(c: int, m: int, d: int, n: int)
    requires WithinHalf(c, m) && WithinHalf(d, n)
    ensures WithinHalf(c + d, m + n)
  {
  }

  /** One call moves the stamp only when it credits something, and forgets at most as much as it credits. */
  lemma CallWithinHalf(times: seq<int>, k: nat)
    requires k < |times| && After(times, k).lastRefill.At?
    ensures After(times, k + 1).lastRefill.At?
    ensures WithinHalf(CreditAt(times, k), After(times, k + 1).lastRefill.t - After(times, k).lastRefill.t)
  {
    var b := After(times, k);
    var t := b.lastRefill.t;
    assert After(times, k + 1).lastRefill == if Earned(times[k] - t) > 0 then At(times[k]) else At(t);
  }

  /**
   Rounding costs at most half: over the stretch that `lastRefill` has moved, between two and
   a half and five tokens a second are credited.
   */
  lemma {:induction false} CreditWithinHalf(times: seq<int>, n: nat)
    requires Nondecreasing(times) && 0 < n <= |times|
    ensures After(times, n).lastRefill.At?
    ensures WithinHalf(Credited(times, n), After(times, n).lastRefill.t - times[0])
  {
    if n > 1 {
      var k := n - 1;
      CreditWithinHalf(times, k);
      CallWithinHalf(times, k);
      var was, now := After(times, k).lastRefill.t, After(times, n).lastRefill.t;
      CreditsAdd(Credited(times, k), was - times[0], CreditAt(times, k), now - was);
    } else {
      assert Credited(times, 0) == 0;
    }
  }
}
