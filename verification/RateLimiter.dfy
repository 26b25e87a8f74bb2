// The token bucket: lazy refill with a cap, a clock and an expiry.
module RateLimiter {
  import opened Wrappers
  import opened Records

  type NonNegative = r: real | r >= 0.0 witness 0.0

  datatype Limits = Limits(capacity: nat, rate: NonNegative)

  datatype Bucket = Bucket(tokens: real, timestamp: Time)

  // One run of the script, at the time that the Redis server reads from its clock.
  datatype Attempt = Attempt(now: Time, requested: nat)

  type Trace = seq<Attempt>

  type Positive = r: real | r > 0.0 witness 1.0

  // A key that is not touched for this long disappears; None is a bucket that never expires.
  type Ttl = Option<Positive>

  const BUCKET_TTL: Ttl := Some(3600.0)
  const NO_TTL: Ttl := None

  function Min(a: real, b: real): real {
    if a <= b then a else b
  }

  function Max(a: real, b: real): real {
    if a >= b then a else b
  }

  // ---------------------------------------------------------------- the meaning of the script

  predicate Expired(ttl: Ttl, b: Bucket, now: Time) {
    ttl.Some? && now > b.timestamp + ttl.value
  }

  function Refill(l: Limits, duration: real): real {
    l.rate * duration
  }

  // The tokens that the script finds at some time, after refilling.
  function Level(l: Limits, ttl: Ttl, b: Option<Bucket>, now: Time): real {
    if b.None? || Expired(ttl, b.value, now) then l.capacity as real
    else Min(l.capacity as real, b.value.tokens + Refill(l, Max(0.0, now - b.value.timestamp)))
  }

  function Acquire(l: Limits, ttl: Ttl, b: Option<Bucket>, a: Attempt): (Bucket, bool) {
    var level := Level(l, ttl, b, a.now);
    var allowed := level >= a.requested as real;
    (Bucket(if allowed then level - a.requested as real else level, a.now), allowed)
  }

  // The bucket after the first n attempts of a trace.
  function After(l: Limits, ttl: Ttl, trace: Trace, n: nat): Option<Bucket>
    requires n <= |trace|
  {
    if n == 0 then None else Some(Acquire(l, ttl, After(l, ttl, trace, n - 1), trace[n - 1]).0)
  }

  predicate Allowed(l: Limits, ttl: Ttl, trace: Trace, n: nat)
    requires n < |trace|
  {
    Acquire(l, ttl, After(l, ttl, trace, n), trace[n]).1
  }

  // The tokens granted by the attempts from i up to, but not including, n.
  function Granted(l: Limits, ttl: Ttl, trace: Trace, i: nat, n: nat): real
    requires n <= |trace|
  {
    if i >= n then 0.0
    else
      Granted(l, ttl, trace, i, n - 1) +
      if Allowed(l, ttl, trace, n - 1) then trace[n - 1].requested as real else 0.0
  }

  predicate ClockNeverSteps(trace: Trace) {
    forall i, j :: 0 <= i < j < |trace| ==> trace[i].now <= trace[j].now
  }

  function LevelAt(l: Limits, ttl: Ttl, trace: Trace, n: nat): real
    requires n < |trace|
  {
    Level(l, ttl, After(l, ttl, trace, n), trace[n].now)
  }

  lemma RefillAdds(l: Limits, a: real, b: real)
    ensures Refill(l, a + b) == Refill(l, a) + Refill(l, b)
  {
  }

  lemma LongerRefillsMore(l: Limits, a: real, b: real)
    requires a <= b
    ensures Refill(l, a) <= Refill(l, b)
  {
    RefillAdds(l, a, b - a);
    assert Refill(l, b - a) >= 0.0;
  }

  lemma {:induction false} TokensStayInRange(l: Limits, ttl: Ttl, trace: Trace, n: nat)
    requires n <= |trace|
    ensures var b := After(l, ttl, trace, n);
            b.Some? ==> 0.0 <= b.value.tokens <= l.capacity as real && n > 0 && b.value.timestamp == trace[n - 1].now
    ensures n < |trace| ==> 0.0 <= LevelAt(l, ttl, trace, n) <= l.capacity as real
  {
    if n > 0 {
      TokensStayInRange(l, ttl, trace, n - 1);
    }
    if 0 < n < |trace| {
      LongerRefillsMore(l, 0.0, Max(0.0, trace[n].now - trace[n - 1].now));
    }
  }

  // ---------------------------------------------------------------- the window specification

  // How far the clock moved forward between the attempts i to n - 1.
  function Forward(trace: Trace, i: nat, n: nat): real
    requires n <= |trace|
  {
    if n < i + 2 then 0.0
    else Forward(trace, i, n - 1) + Max(0.0, trace[n - 1].now - trace[n - 2].now)
  }

  // That is the time between them, if the clock does not step back.
  lemma {:induction false} ForwardIsElapsed(trace: Trace, i: nat, n: nat)
    requires i <= n < |trace| && ClockNeverSteps(trace)
    ensures Forward(trace, i, n + 1) == trace[n].now - trace[i].now
  {
    if i < n {
      ForwardIsElapsed(trace, i, n - 1);
    }
  }

  // What the window that opens at attempt j leaves for attempt n.
  function Room(l: Limits, trace: Trace, j: nat, n: nat): real
    requires j <= n < |trace|
  {
    l.capacity as real + Refill(l, Forward(trace, j, n + 1)) - Granted(l, NO_TTL, trace, j, n)
  }

  predicate WithinEveryWindow(l: Limits, trace: Trace, n: nat)
    requires n < |trace|
  {
    forall j | 0 <= j <= n :: trace[n].requested as real <= Room(l, trace, j, n)
  }

  lemma RoomAdvances(l: Limits, trace: Trace, j: nat, n: nat)
    requires j < n < |trace|
    ensures Room(l, trace, j, n) ==
            Room(l, trace, j, n - 1) - Granted(l, NO_TTL, trace, n - 1, n)
            + Refill(l, Max(0.0, trace[n].now - trace[n - 1].now))
  {
    RefillAdds(l, Forward(trace, j, n), Max(0.0, trace[n].now - trace[n - 1].now));
  }

  lemma LevelAdvances(l: Limits, trace: Trace, n: nat)
    requires 0 < n < |trace|
    ensures LevelAt(l, NO_TTL, trace, n) ==
            Min(l.capacity as real, LevelAt(l, NO_TTL, trace, n - 1) - Granted(l, NO_TTL, trace, n - 1, n)
                                    + Refill(l, Max(0.0, trace[n].now - trace[n - 1].now)))
  {
    TokensStayInRange(l, NO_TTL, trace, n);
    assert Granted(l, NO_TTL, trace, n - 1, n - 1) == 0.0;
  }

  // The level is the least of what the windows leave.
  lemma {:induction false} LevelIsLeastRoom(l: Limits, trace: Trace, n: nat) returns (j: nat)
    requires n < |trace|
    ensures j <= n && LevelAt(l, NO_TTL, trace, n) == Room(l, trace, j, n)
    ensures forall i | 0 <= i <= n :: LevelAt(l, NO_TTL, trace, n) <= Room(l, trace, i, n)
  {
    j := n;
    if n > 0 {
      var k := LevelIsLeastRoom(l, trace, n - 1);
      LevelAdvances(l, trace, n);
      RoomAdvances(l, trace, k, n);
      forall i | 0 <= i <= n ensures LevelAt(l, NO_TTL, trace, n) <= Room(l, trace, i, n) {
        if i < n { RoomAdvances(l, trace, i, n); }
      }
      j := if LevelAt(l, NO_TTL, trace, n) == l.capacity as real then n else k;
    }
  }

  // With any clock, the bucket is exactly its window specification: a request is granted if and
  // only if, for every earlier attempt and for itself, what was granted since then together with
  // the request is at most the capacity plus the refill for the clock's forward movement since.
  lemma GrantedIffWithinEveryWindow(l: Limits, trace: Trace, n: nat)
    requires n < |trace|
    ensures Allowed(l, NO_TTL, trace, n) <==> WithinEveryWindow(l, trace, n)
  {
    var j := LevelIsLeastRoom(l, trace, n);
  }

  // ---------------------------------------------------------------- expiry

  // Refilling for as long as a key lives fills the bucket.
  predicate RefillsBeforeExpiry(l: Limits, ttl: Ttl) {
    ttl.Some? ==> Refill(l, ttl.value) >= l.capacity as real
  }

  // A key counts for as long as it lives, and not any longer.
  lemma ExpiredIsFull(l: Limits, ttl: Positive, b: Bucket, now: Time)
    ensures Level(l, Some(ttl), Some(b), now) ==
            if now - b.timestamp <= ttl then Level(l, NO_TTL, Some(b), now) else l.capacity as real
  {
  }

  // For the buckets of the rate limiter: an hour fills them.
  lemma HourRefills(l: Limits)
    ensures RefillsBeforeExpiry(l, BUCKET_TTL) <==> l.rate * 3600.0 >= l.capacity as real
  {
  }

  lemma ExpiredBucketIsFull(l: Limits, ttl: Ttl, b: Bucket, now: Time)
    requires RefillsBeforeExpiry(l, ttl) && b.tokens >= 0.0
    ensures Level(l, ttl, Some(b), now) == Level(l, NO_TTL, Some(b), now)
  {
    if Expired(ttl, b, now) {
      LongerRefillsMore(l, ttl.value, now - b.timestamp);
    }
  }

  // Whatever the clock does, an expired bucket would have been full.
  lemma {:induction false} ExpiryChangesNothing(l: Limits, ttl: Ttl, trace: Trace, n: nat)
    requires RefillsBeforeExpiry(l, ttl) && n <= |trace|
    ensures After(l, ttl, trace, n) == After(l, NO_TTL, trace, n)
    ensures n < |trace| ==> LevelAt(l, ttl, trace, n) == LevelAt(l, NO_TTL, trace, n)
  {
    if n > 0 {
      ExpiryChangesNothing(l, ttl, trace, n - 1);
    }
    TokensStayInRange(l, NO_TTL, trace, n);
    if 0 < n < |trace| {
      ExpiredBucketIsFull(l, ttl, After(l, NO_TTL, trace, n).value, trace[n].now);
    }
  }

  lemma AllowedIffWithinEveryWindow(l: Limits, ttl: Ttl, trace: Trace, n: nat)
    requires n < |trace|
    ensures RefillsBeforeExpiry(l, ttl) ==> (Allowed(l, ttl, trace, n) <==> WithinEveryWindow(l, trace, n))
  {
    if RefillsBeforeExpiry(l, ttl) {
      ExpiryChangesNothing(l, ttl, trace, n);
      GrantedIffWithinEveryWindow(l, trace, n);
    }
  }

  ghost predicate SameAnswers(l: Limits, ttl: Ttl) {
    forall trace: Trace, n: nat | n < |trace| :: Allowed(l, ttl, trace, n) == Allowed(l, NO_TTL, trace, n)
  }

  // Spending everything at once and coming back just after the key has expired.
  function SpendTwice(l: Limits, pause: real): Trace {
    [Attempt(0.0, l.capacity), Attempt(pause, l.capacity)]
  }

  lemma PauseTooShortToRefill(l: Limits, ttl: Positive) returns (pause: real)
    requires Refill(l, ttl) < l.capacity as real
    ensures ttl < pause && Refill(l, pause) < l.capacity as real
  {
    pause := ttl + 1.0;
    if l.rate > 0.0 {
      var full := l.capacity as real / l.rate;
      assert Refill(l, full) == l.capacity as real;
      if full <= ttl { LongerRefillsMore(l, full, ttl); }
      pause := (ttl + full) / 2.0;
      assert Refill(l, pause) == (Refill(l, ttl) + Refill(l, full)) / 2.0;
    }
  }

  // Only a slow bucket shows its expiry: it is full again although it has not had the time.
  lemma SlowBucketShowsExpiry(l: Limits, ttl: Positive) returns (trace: Trace)
    requires !RefillsBeforeExpiry(l, Some(ttl))
    ensures |trace| == 2 && ClockNeverSteps(trace)
    ensures Allowed(l, Some(ttl), trace, 1) && !Allowed(l, NO_TTL, trace, 1)
  {
    var pause := PauseTooShortToRefill(l, ttl);
    trace := SpendTwice(l, pause);
    assert After(l, NO_TTL, trace, 0) == None && After(l, Some(ttl), trace, 0) == None;
    assert After(l, NO_TTL, trace, 1) == Some(Bucket(0.0, 0.0));
    assert After(l, Some(ttl), trace, 1) == Some(Bucket(0.0, 0.0));
  }

  // The expiry can be observed if and only if a key expires before its bucket has refilled.
  lemma ExpiryUnobservableIff(l: Limits, ttl: Ttl)
    ensures SameAnswers(l, ttl) <==> RefillsBeforeExpiry(l, ttl)
  {
    if RefillsBeforeExpiry(l, ttl) {
      forall trace: Trace, n: nat | n < |trace| ensures Allowed(l, ttl, trace, n) == Allowed(l, NO_TTL, trace, n) {
        ExpiryChangesNothing(l, ttl, trace, n);
      }
    } else {
      var trace := SlowBucketShowsExpiry(l, ttl.value);
      assert Allowed(l, ttl, trace, 1) != Allowed(l, NO_TTL, trace, 1);
    }
  }

  // ---------------------------------------------------------------- any clock

  lemma OneAttemptSpends(l: Limits, b: Bucket, a: Attempt)
    ensures var (b', allowed) := Acquire(l, NO_TTL, Some(b), a);
            b'.tokens + (if allowed then a.requested as real else 0.0)
            <= b.tokens + Refill(l, Max(0.0, a.now - b.timestamp))
  {
  }

  lemma FirstAttemptSpends(l: Limits, trace: Trace, i: nat)
    requires i < |trace|
    ensures After(l, NO_TTL, trace, i + 1).value.tokens + Granted(l, NO_TTL, trace, i, i + 1) <= l.capacity as real
  {
    assert Granted(l, NO_TTL, trace, i, i) == 0.0;
  }

  lemma NextAttemptSpends(l: Limits, trace: Trace, i: nat, n: nat)
    requires i + 1 < n <= |trace|
    ensures After(l, NO_TTL, trace, n).value.tokens + Granted(l, NO_TTL, trace, i, n)
            <= After(l, NO_TTL, trace, n - 1).value.tokens + Granted(l, NO_TTL, trace, i, n - 1)
               + Refill(l, Max(0.0, trace[n - 1].now - trace[n - 2].now))
  {
    TokensStayInRange(l, NO_TTL, trace, n - 1);
    OneAttemptSpends(l, After(l, NO_TTL, trace, n - 1).value, trace[n - 1]);
  }

  lemma {:induction false} SpendingIsBounded(l: Limits, trace: Trace, i: nat, n: nat)
    requires i < n <= |trace|
    ensures After(l, NO_TTL, trace, n).value.tokens + Granted(l, NO_TTL, trace, i, n)
            <= l.capacity as real + Refill(l, Forward(trace, i, n))
  {
    if n == i + 1 {
      FirstAttemptSpends(l, trace, i);
    } else {
      SpendingIsBounded(l, trace, i, n - 1);
      NextAttemptSpends(l, trace, i, n);
      RefillAdds(l, Forward(trace, i, n - 1), Max(0.0, trace[n - 1].now - trace[n - 2].now));
    }
  }

  lemma {:induction false} SameGrants(l: Limits, ttl: Ttl, trace: Trace, i: nat, n: nat)
    requires RefillsBeforeExpiry(l, ttl) && n <= |trace|
    ensures Granted(l, ttl, trace, i, n) == Granted(l, NO_TTL, trace, i, n)
  {
    if i < n {
      SameGrants(l, ttl, trace, i, n - 1);
      ExpiryChangesNothing(l, ttl, trace, n - 1);
    }
  }

  lemma GrantsWithinBound(l: Limits, ttl: Ttl, trace: Trace, i: nat, n: nat)
    requires i < n <= |trace| && RefillsBeforeExpiry(l, ttl)
    ensures Granted(l, ttl, trace, i, n) <= l.capacity as real + Refill(l, Forward(trace, i, n))
  {
    SpendingIsBounded(l, trace, i, n);
    TokensStayInRange(l, NO_TTL, trace, n);
    SameGrants(l, ttl, trace, i, n);
  }

  ghost predicate GrantsBounded(l: Limits, ttl: Ttl) {
    forall trace: Trace, i: nat, n: nat | i < n <= |trace| ::
      Granted(l, ttl, trace, i, n) <= l.capacity as real + Refill(l, Forward(trace, i, n))
  }

  lemma SpentTwice(l: Limits, ttl: Positive, pause: real)
    requires ttl < pause && Refill(l, pause) < l.capacity as real
    ensures var trace := SpendTwice(l, pause);
            Granted(l, Some(ttl), trace, 0, 2) > l.capacity as real + Refill(l, Forward(trace, 0, 2))
  {
    var trace := SpendTwice(l, pause);
    assert After(l, Some(ttl), trace, 0) == None;
    assert After(l, Some(ttl), trace, 1) == Some(Bucket(0.0, 0.0));
    assert Granted(l, Some(ttl), trace, 0, 0) == 0.0;
    assert Granted(l, Some(ttl), trace, 0, 1) == l.capacity as real;
    assert Forward(trace, 0, 1) == 0.0;
  }

  // With any clock, even one that steps backwards, what a span of attempts is granted is at most
  // the capacity plus the refill for the forward movement of the clock within the span, if and
  // only if a key does not expire before its bucket has refilled.
  lemma GrantsAreBoundedIff(l: Limits, ttl: Ttl)
    ensures GrantsBounded(l, ttl) <==> RefillsBeforeExpiry(l, ttl)
  {
    if RefillsBeforeExpiry(l, ttl) {
      forall trace: Trace, i: nat, n: nat | i < n <= |trace|
        ensures Granted(l, ttl, trace, i, n) <= l.capacity as real + Refill(l, Forward(trace, i, n))
      {
        GrantsWithinBound(l, ttl, trace, i, n);
      }
    } else {
      var pause := PauseTooShortToRefill(l, ttl.value);
      SpentTwice(l, ttl.value, pause);
    }
  }

  // ---------------------------------------------------------------- denials

  lemma {:induction false} AfterPrefix(l: Limits, ttl: Ttl, xs: Trace, ys: Trace, n: nat)
    requires n <= |xs| && n <= |ys| && xs[..n] == ys[..n]
    ensures After(l, ttl, xs, n) == After(l, ttl, ys, n)
  {
    if n > 0 {
      assert xs[..n - 1] == xs[..n][..n - 1] && ys[..n - 1] == ys[..n][..n - 1];
      assert xs[n - 1] == xs[..n][n - 1] && ys[n - 1] == ys[..n][n - 1];
      AfterPrefix(l, ttl, xs, ys, n - 1);
    }
  }

  lemma DenialKeepsLevels(l: Limits, b: Option<Bucket>, a: Attempt, later: Time)
    requires !Acquire(l, NO_TTL, b, a).1 && a.now <= later
    requires b.Some? ==> b.value.timestamp <= a.now
    ensures Level(l, NO_TTL, Some(Acquire(l, NO_TTL, b, a).0), later) == Level(l, NO_TTL, b, later)
  {
    LongerRefillsMore(l, 0.0, later - a.now);
    if b.Some? {
      RefillAdds(l, a.now - b.value.timestamp, later - a.now);
    }
  }

  lemma SameBucket(l: Limits, xs: Trace, a: Attempt, ys: Trace)
    requires var trace := xs + [a] + ys; ClockNeverSteps(trace) && !Allowed(l, NO_TTL, trace, |xs|)
    requires ys != []
    ensures LevelAt(l, NO_TTL, xs + [a] + ys, |xs| + 1) == LevelAt(l, NO_TTL, xs + ys, |xs|)
  {
    var (with, without) := (xs + [a] + ys, xs + ys);
    assert with[|xs|] == a && with[|xs| + 1] == ys[0] && without[|xs|] == ys[0];
    assert with[..|xs|] == xs == without[..|xs|];
    AfterPrefix(l, NO_TTL, with, without, |xs|);
    TokensStayInRange(l, NO_TTL, with, |xs|);
    DenialKeepsLevels(l, After(l, NO_TTL, with, |xs|), a, ys[0].now);
  }

  // Leaving a denied attempt out of a trace gives the same bucket after every later attempt.
  lemma {:induction false} SameBuckets(l: Limits, xs: Trace, a: Attempt, ys: Trace, k: nat)
    requires var trace := xs + [a] + ys; ClockNeverSteps(trace) && !Allowed(l, NO_TTL, trace, |xs|)
    requires k < |ys|
    ensures LevelAt(l, NO_TTL, xs + [a] + ys, |xs| + 1 + k) == LevelAt(l, NO_TTL, xs + ys, |xs| + k)
  {
    var (with, without) := (xs + [a] + ys, xs + ys);
    assert with[|xs|] == a && with[|xs| + 1 + k] == ys[k] && without[|xs| + k] == ys[k];
    if k == 0 {
      SameBucket(l, xs, a, ys);
    } else {
      SameBuckets(l, xs, a, ys, k - 1);
      assert with[|xs| + k] == ys[k - 1] && without[|xs| + k - 1] == ys[k - 1];
      assert After(l, NO_TTL, with, |xs| + 1 + k) == After(l, NO_TTL, without, |xs| + k);
    }
  }

  lemma DenialIsUnobservable(l: Limits, ttl: Ttl, xs: Trace, a: Attempt, ys: Trace, k: nat)
    requires RefillsBeforeExpiry(l, ttl)
    requires var trace := xs + [a] + ys; ClockNeverSteps(trace) && !Allowed(l, ttl, trace, |xs|)
    requires k < |ys|
    ensures Allowed(l, ttl, xs + [a] + ys, |xs| + 1 + k) == Allowed(l, ttl, xs + ys, |xs| + k)
  {
    var (with, without) := (xs + [a] + ys, xs + ys);
    ExpiryChangesNothing(l, ttl, with, |xs|);
    ExpiryChangesNothing(l, ttl, with, |xs| + 1 + k);
    ExpiryChangesNothing(l, ttl, without, |xs| + k);
    SameBuckets(l, xs, a, ys, k);
    assert with[|xs| + 1 + k] == ys[k] == without[|xs| + k];
  }

  // Whether attempt a, if it is denied, makes no difference to the k-th attempt after it.
  predicate SameWithout(l: Limits, ttl: Ttl, xs: Trace, a: Attempt, ys: Trace, k: nat)
    requires k < |ys|
  {
    ClockNeverSteps(xs + [a] + ys) && !Allowed(l, ttl, xs + [a] + ys, |xs|) ==>
      Allowed(l, ttl, xs + [a] + ys, |xs| + 1 + k) == Allowed(l, ttl, xs + ys, |xs| + k)
  }

  ghost predicate DenialsUnobservable(l: Limits, ttl: Ttl) {
    forall xs: Trace, a: Attempt, ys: Trace, k: nat | k < |ys| :: SameWithout(l, ttl, xs, a, ys, k)
  }

  // A denied attempt postpones the expiry of a slow bucket, which would have filled it.
  lemma DenialPostponesExpiry(l: Limits, ttl: Positive, pause: real)
    requires ttl < pause <= 2.0 * ttl && Refill(l, pause) < l.capacity as real
    ensures var (spend, denied) := (Attempt(0.0, l.capacity), Attempt(ttl, l.capacity));
            && ClockNeverSteps([spend] + [denied] + [Attempt(pause, l.capacity)])
            && !Allowed(l, Some(ttl), [spend] + [denied] + [Attempt(pause, l.capacity)], 1)
            && !Allowed(l, Some(ttl), [spend] + [denied] + [Attempt(pause, l.capacity)], 2)
            && Allowed(l, Some(ttl), [spend] + [Attempt(pause, l.capacity)], 1)
  {
    var (spend, denied, again) := (Attempt(0.0, l.capacity), Attempt(ttl, l.capacity), Attempt(pause, l.capacity));
    var (with, without) := ([spend] + [denied] + [again], [spend] + [again]);
    LongerRefillsMore(l, ttl, pause);
    RefillAdds(l, ttl, pause - ttl);
    assert with[0] == spend && with[1] == denied && with[2] == again && without[0] == spend && without[1] == again;
    assert After(l, Some(ttl), with, 0) == None && After(l, Some(ttl), without, 0) == None;
    assert After(l, Some(ttl), with, 1) == Some(Bucket(0.0, 0.0)) &&
           After(l, Some(ttl), without, 1) == Some(Bucket(0.0, 0.0));
    assert Level(l, Some(ttl), Some(Bucket(0.0, 0.0)), ttl) <= Refill(l, ttl);
    assert After(l, Some(ttl), with, 2).value.tokens <= Refill(l, ttl);
    assert After(l, Some(ttl), with, 2).value.timestamp == ttl;
  }

  lemma ShortPause(l: Limits, ttl: Positive) returns (pause: real)
    requires !RefillsBeforeExpiry(l, Some(ttl))
    ensures ttl < pause <= 2.0 * ttl && Refill(l, pause) < l.capacity as real
  {
    pause := PauseTooShortToRefill(l, ttl);
    if pause > 2.0 * ttl {
      LongerRefillsMore(l, 2.0 * ttl, pause);
      pause := 2.0 * ttl;
    }
  }

  // A denied attempt changes no later answer, on every trace whose clock does not step back, if
  // and only if a key does not expire before its bucket has refilled.
  lemma DenialsUnobservableIff(l: Limits, ttl: Ttl)
    ensures DenialsUnobservable(l, ttl) <==> RefillsBeforeExpiry(l, ttl)
  {
    if RefillsBeforeExpiry(l, ttl) {
      forall xs: Trace, a: Attempt, ys: Trace, k: nat | k < |ys| ensures SameWithout(l, ttl, xs, a, ys, k) {
        if ClockNeverSteps(xs + [a] + ys) && !Allowed(l, ttl, xs + [a] + ys, |xs|) {
          DenialIsUnobservable(l, ttl, xs, a, ys, k);
        }
      }
    } else {
      var pause := ShortPause(l, ttl.value);
      DenialPostponesExpiry(l, ttl.value, pause);
      var (xs, a, ys) := ([Attempt(0.0, l.capacity)], Attempt(ttl.value, l.capacity), [Attempt(pause, l.capacity)]);
      assert !SameWithout(l, ttl, xs, a, ys, 0);
    }
  }

  // ---------------------------------------------------------------- the limiter

  const BUCKET_KEY_PREFIX := "ratelimit:"

  function BucketKey(host: string): string {
    BUCKET_KEY_PREFIX + host
  }

  lemma BucketKeyInjective(host: string, host': string)
    requires BucketKey(host) == BucketKey(host')
    ensures host == host'
  {
    assert BucketKey(host)[|BUCKET_KEY_PREFIX|..] == host && BucketKey(host')[|BUCKET_KEY_PREFIX|..] == host';
  }

  // The attempts made for each host.
  type History = map<string, Trace>

  function TraceIn(history: History, host: string): Trace {
    if host in history then history[host] else []
  }

  // `hostForUrl` reads the host off a URL, if there is one.
  class Limiter {
    const limits: Limits
    const hostForUrl: string -> Option<string>
    var buckets: map<string, Bucket>
    ghost var history: History

    ghost function HistoryOf(host: string): Trace
      reads this
    {
      TraceIn(history, host)
    }

    function BucketOf(host: string): Option<Bucket>
      reads this
    {
      if BucketKey(host) in buckets then Some(buckets[BucketKey(host)]) else None
    }

    // Every host has the bucket that its own attempts, and no others, have led to.
    ghost predicate Valid()
      reads this
    {
      forall host: string :: BucketOf(host) == After(limits, BUCKET_TTL, HistoryOf(host), |HistoryOf(host)|)
    }

    constructor (limits: Limits, hostForUrl: string -> Option<string>)
      ensures Valid() && this.limits == limits && this.hostForUrl == hostForUrl && history == map[]
    {
      this.limits, this.hostForUrl, buckets, history := limits, hostForUrl, map[], map[];
    }

    // The script, from the bucket that it reads to the bucket that it writes.
    method CheckRefillConsume(bucket: Option<Bucket>, now: Time, requested: nat)
      returns (written: Bucket, allowed: bool)
      ensures (written, allowed) == Acquire(limits, BUCKET_TTL, bucket, Attempt(now, requested))
    {
      var capacity := limits.capacity as real;
      var tokens, timestamp := capacity, now;
      if bucket.Some? && !Expired(BUCKET_TTL, bucket.value, now) {
        tokens, timestamp := bucket.value.tokens, bucket.value.timestamp;
      }
      var elapsed := Max(0.0, now - timestamp);
      tokens := Min(capacity, tokens + elapsed * limits.rate);
      assert tokens == Level(limits, BUCKET_TTL, bucket, now);
      allowed := false;
      if tokens >= requested as real {
        tokens := tokens - requested as real;
        allowed := true;
      }
      written := Bucket(tokens, now);
    }

    method TryAcquire(host: string, now: Time, requested: nat) returns (allowed: bool)
      requires Valid()
      modifies this
      ensures Valid()
      ensures history == old(history)[host := old(HistoryOf(host)) + [Attempt(now, requested)]]
      ensures allowed == Allowed(limits, BUCKET_TTL, HistoryOf(host), |HistoryOf(host)| - 1)
      ensures RefillsBeforeExpiry(limits, BUCKET_TTL) ==>
                (allowed <==> WithinEveryWindow(limits, HistoryOf(host), |HistoryOf(host)| - 1))
    {
      ghost var past := HistoryOf(host);
      ghost var trace := past + [Attempt(now, requested)];
      var written;
      written, allowed := CheckRefillConsume(BucketOf(host), now, requested);
      buckets := buckets[BucketKey(host) := written];
      history := history[host := trace];
      assert trace[..|past|] == past;
      AfterPrefix(limits, BUCKET_TTL, past, trace, |past|);
      forall other: string
        ensures BucketOf(other) == After(limits, BUCKET_TTL, HistoryOf(other), |HistoryOf(other)|)
      {
        if other != host {
          if BucketKey(other) == BucketKey(host) { BucketKeyInjective(other, host); }
          assert BucketOf(other) == old(BucketOf(other)) && HistoryOf(other) == old(HistoryOf(other));
        }
      }
      AllowedIffWithinEveryWindow(limits, BUCKET_TTL, trace, |past|);
    }
  }
}
