/**
 Token buckets shared by concurrent callers, and the retry loop of an admitted call.
 Time is exact and read under the bucket's lock, so every interleaving of callers is
 one sequence of passes at non-decreasing times.
 */
module RateLimit {
  import opened Wrappers
  import opened Numbers

  datatype Bucket = Bucket(tokens: real, last: real)

  datatype Outcome = Acquired | Wait(seconds: real)

  const LONGEST_NAP := 30.0

  function Refilled(rate: real, burst: real, b: Bucket, now: real): real {
    Min(burst, b.tokens + (now - b.last) * rate)
  }

  /** One pass through the critical section. */
  function Pass(rate: real, burst: real, b: Bucket, now: real): (Bucket, Outcome)
    requires rate > 0.0
  {
    var t := Refilled(rate, burst, b, now);
    if t >= 1.0 then (Bucket(t - 1.0, now), Acquired) else (Bucket(t, now), Wait((1.0 - t) / rate))
  }

  class TokenBucket {
    const rate: real
    const burst: nat
    var tokens: real
    var last: real

    ghost predicate Valid()
      reads this
    {
      rate > 0.0 && burst >= 1 && 0.0 <= tokens <= burst as real
    }

    function State(): Bucket
      reads this
    {
      Bucket(tokens, last)
    }

    constructor (rate: real, burst: nat, now: real)
      requires rate > 0.0 && burst >= 1
      ensures Valid() && State() == Bucket(burst as real, now)
      ensures this.rate == rate && this.burst == burst
    {
      this.rate, this.burst := rate, burst;
      tokens, last := burst as real, now;
    }

    /** One pass under the lock. */
    method TryAcquire(now: real) returns (r: Outcome)
      requires Valid() && now >= last
      modifies this
      ensures Valid()
      ensures (State(), r) == Pass(rate, burst as real, old(State()), now)
      ensures r.Wait? ==> r.seconds > 0.0
    {
      hide Refilled;
      PassFacts(rate, burst as real, State(), now);
      tokens := Refilled(rate, burst as real, State(), now);
      last := now;
      if tokens >= 1.0 {
        tokens := tokens - 1.0;
        return Acquired;
      }
      r := Wait((1.0 - tokens) / rate);
    }

    /** A caller alone on the bucket: passes, and naps of at most thirty seconds, each
        lasting `late(k)` longer than asked. It returns, and how often it napped is
        bounded by how much was missing. */
    method Acquire(start: real, late: nat -> real) returns (end: real, naps: nat)
      requires Valid() && start >= last
      requires forall k :: late(k) >= 0.0
      modifies this
      ensures Valid() && last == end >= start
      ensures naps <= NapsNeeded(rate, Refilled(rate, burst as real, old(State()), start))
      ensures tokens >= 0.0
    {
      hide Pass, NapsNeeded, Refilled;
      end, naps := start, 0;
      ghost var missing := NapsNeeded(rate, Refilled(rate, burst as real, State(), start));
      ghost var left: nat := missing;
      while true
        invariant Valid() && last <= end && start <= end
        invariant left == NapsNeeded(rate, Refilled(rate, burst as real, State(), end))
        invariant naps + left <= missing
        decreases left
      {
        ghost var before := State();
        var r := TryAcquire(end);
        PassFacts(rate, burst as real, before, end);
        if r.Acquired? {
          return;
        }
        var nap := Min(r.seconds, LONGEST_NAP) + late(naps);
        NapStep(rate, burst as real, before, end, nap);
        end := end + nap;
        naps := naps + 1;
        left := NapsNeeded(rate, Refilled(rate, burst as real, State(), end));
      }
    }
  }

  /** Tokens stay within the burst, a wait is positive and made good by the rate. */
  lemma PassFacts(rate: real, burst: real, b: Bucket, now: real)
    requires rate > 0.0 && burst >= 1.0 && 0.0 <= b.tokens <= burst && b.last <= now
    ensures 0.0 <= Refilled(rate, burst, b, now) <= burst
    ensures var (after, r) := Pass(rate, burst, b, now);
            && after.last == now && 0.0 <= after.tokens <= burst
            && (r.Wait? ==> after.tokens == Refilled(rate, burst, b, now) < 1.0 && r.seconds == (1.0 - after.tokens) / rate > 0.0)
  {
    NoNegativeRefill(now - b.last, rate);
    if Refilled(rate, burst, b, now) < 1.0 {
      PositiveQuotient(1.0 - Refilled(rate, burst, b, now), rate);
    }
  }

  /** After a nap the next pass needs fewer naps. */
  lemma NapStep(rate: real, burst: real, b: Bucket, now: real, nap: real)
    requires rate > 0.0 && burst >= 1.0 && 0.0 <= b.tokens <= burst && b.last <= now
    requires Pass(rate, burst, b, now).1.Wait? && nap >= Min(Pass(rate, burst, b, now).1.seconds, LONGEST_NAP)
    ensures nap > 0.0
    ensures NapsNeeded(rate, Refilled(rate, burst, Pass(rate, burst, b, now).0, now + nap)) < NapsNeeded(rate, Refilled(rate, burst, b, now))
  {
    hide Pass, NapsNeeded, Refilled;
    var (after, r) := Pass(rate, burst, b, now);
    PassFacts(rate, burst, b, now);
    NapHelps(rate, burst, after.tokens, nap, r.seconds);
    RefillAfter(rate, burst, after, nap);
  }

  lemma RefillAfter(rate: real, burst: real, b: Bucket, nap: real)
    ensures Refilled(rate, burst, b, b.last + nap) == Min(burst, b.tokens + nap * rate)
  {
  }

  lemma NoNegativeRefill(elapsed: real, rate: real)
    requires elapsed >= 0.0 && rate > 0.0
    ensures elapsed * rate >= 0.0
  {
  }

  lemma PositiveQuotient(x: real, y: real)
    requires x > 0.0 && y > 0.0
    ensures x / y > 0.0 && (x / y) * y == x
  {
  }

  /** Thirty-second naps needed before a token is there. */
  function NapsNeeded(rate: real, tokens: real): nat
    requires rate > 0.0
  {
    if tokens >= 1.0 then 0
    else
      PositiveQuotient(1.0 - tokens, LONGEST_NAP * rate);
      ((1.0 - tokens) / (LONGEST_NAP * rate)).Floor + 1
  }

  /** The missing part of a token, in steps of what thirty seconds deliver, rounded up. */
  lemma NapsNeededIs(rate: real, tokens: real)
    requires rate > 0.0 && tokens < 1.0
    ensures var n, step := NapsNeeded(rate, tokens), 30.0 * rate; n >= 1 && (n as real - 1.0) * step <= 1.0 - tokens < n as real * step
  {
    PositiveQuotient(1.0 - tokens, 30.0 * rate);
    var n, step := NapsNeeded(rate, tokens), 30.0 * rate;
    Below((1.0 - tokens) / step, n as real - 1.0, n as real, 1.0 - tokens, step);
  }

  lemma Below(quotient: real, low: real, high: real, missing: real, step: real)
    requires step > 0.0 && quotient == missing / step && low <= quotient < high
    ensures low * step <= missing < high * step
  {
    assert quotient * step == missing;
    MulMonotone(low, quotient, step);
    MulStrict(quotient, high, step);
  }

  lemma MulStrict(x: real, y: real, z: real)
    requires x < y && z > 0.0
    ensures x * z < y * z
  {
  }

  /** A nap of the full thirty seconds, or of the whole wait, brings the token nearer. */
  lemma NapHelps(rate: real, burst: real, tokens: real, nap: real, wait: real)
    requires rate > 0.0 && burst >= 1.0 && 0.0 <= tokens < 1.0
    requires wait == (1.0 - tokens) / rate && nap >= Min(wait, LONGEST_NAP) && wait > 0.0
    ensures nap > 0.0
    ensures NapsNeeded(rate, Min(burst, tokens + nap * rate)) < NapsNeeded(rate, tokens)
  {
    PositiveQuotient(1.0 - tokens, rate);
    PositiveQuotient(1.0 - tokens, LONGEST_NAP * rate);
    var after := Min(burst, tokens + nap * rate);
    if nap >= wait {
      MulMonotone(wait, nap, rate);
    } else if after < 1.0 {
      MulMonotone(LONGEST_NAP, nap, rate);
      var step := LONGEST_NAP * rate;
      PositiveQuotient(1.0 - after, step);
      QuotientDrops(1.0 - tokens, 1.0 - after, step);
    }
  }

  lemma MulMonotone(x: real, y: real, z: real)
    requires x <= y && z > 0.0
    ensures x * z <= y * z
  {
  }

  lemma QuotientDrops(x: real, y: real, step: real)
    requires step > 0.0 && y <= x - step
    ensures y / step <= x / step - 1.0
  {
    var d := y / step - (x / step - 1.0);
    assert d * step == (y / step) * step - (x / step) * step + step;
    assert d * step == y - x + step <= 0.0;
    if d > 0.0 {
      NoNegativeProduct(d, step);
    }
  }

  lemma NoNegativeProduct(x: real, y: real)
    requires x > 0.0 && y > 0.0
    ensures x * y > 0.0
  {
  }

  // ------------------------------------------------------- interleavings

  ghost predicate Clock(times: seq<real>) {
    forall i, j | 0 <= i < j < |times| :: times[i] <= times[j]
  }

  /** The bucket after the first `k` passes, whoever made them. */
  function After(rate: real, burst: real, b: Bucket, times: seq<real>, k: nat): Bucket
    requires rate > 0.0 && k <= |times|
  {
    if k == 0 then b else Pass(rate, burst, After(rate, burst, b, times, k - 1), times[k - 1]).0
  }

  /** Acquisitions among the passes from `i` up to but not including `k`. */
  function Admitted(rate: real, burst: real, b: Bucket, times: seq<real>, i: nat, k: nat): nat
    requires rate > 0.0 && i <= k <= |times|
  {
    if k == i then 0
    else
      Admitted(rate, burst, b, times, i, k - 1)
      + (if Pass(rate, burst, After(rate, burst, b, times, k - 1), times[k - 1]).1.Acquired? then 1 else 0)
  }

  lemma PassSpends(rate: real, burst: real, b: Bucket, now: real)
    requires rate > 0.0 && burst >= 0.0 && 0.0 <= b.tokens <= burst && b.last <= now
    ensures var (after, r) := Pass(rate, burst, b, now);
            && 0.0 <= after.tokens <= burst && after.last == now
            && after.tokens + (if r.Acquired? then 1.0 else 0.0) <= burst
            && after.tokens + (if r.Acquired? then 1.0 else 0.0) <= b.tokens + rate * (now - b.last)
  {
    NoNegativeRefill(now - b.last, rate);
  }

  lemma {:induction false} TokensInRange(rate: real, burst: real, b: Bucket, times: seq<real>, k: nat)
    requires rate > 0.0 && burst >= 0.0 && 0.0 <= b.tokens <= burst && k <= |times|
    requires Clock([b.last] + times)
    ensures 0.0 <= After(rate, burst, b, times, k).tokens <= burst
    ensures After(rate, burst, b, times, k).last == if k == 0 then b.last else times[k - 1]
  {
    hide Pass;
    if k > 0 {
      TokensInRange(rate, burst, b, times, k - 1);
      var all := [b.last] + times;
      assert all[k - 1] <= all[k] && all[k] == times[k - 1] && all[k - 1] == (if k == 1 then b.last else times[k - 2]);
      PassSpends(rate, burst, After(rate, burst, b, times, k - 1), times[k - 1]);
    }
  }

  /** In any window of passes the acquisitions are at most the burst and what the rate
      delivers over the window, counting what is left in the bucket at its end. */
  lemma {:induction false} WindowBalance(rate: real, burst: real, b: Bucket, times: seq<real>, i: nat, k: nat)
    requires rate > 0.0 && burst >= 0.0 && 0.0 <= b.tokens <= burst && i < k <= |times|
    requires Clock([b.last] + times)
    ensures Admitted(rate, burst, b, times, i, k) as real + After(rate, burst, b, times, k).tokens
         <= burst + rate * (times[k - 1] - times[i])
  {
    hide Pass, Clock;
    var before := After(rate, burst, b, times, k - 1);
    TokensInRange(rate, burst, b, times, k - 1);
    InOrder([b.last] + times, k);
    assert ([b.last] + times)[k] == times[k - 1];
    assert ([b.last] + times)[k - 1] == if k == 1 then b.last else times[k - 2];
    PassSpends(rate, burst, before, times[k - 1]);
    if k - 1 > i {
      WindowBalance(rate, burst, b, times, i, k - 1);
      Distribute(rate, times[k - 1] - times[k - 2], times[k - 2] - times[i]);
    }
  }

  lemma InOrder(times: seq<real>, k: nat)
    requires Clock(times) && 0 < k < |times|
    ensures times[k - 1] <= times[k]
  {
  }

  lemma Distribute(rate: real, x: real, y: real)
    ensures rate * (x + y) == rate * x + rate * y
  {
  }

  /** At most `burst + rate * T` acquisitions succeed in any window of length `T`, under
      any interleaving of callers. */
  lemma WindowBound(rate: real, burst: real, b: Bucket, times: seq<real>, i: nat, k: nat, length: real)
    requires rate > 0.0 && burst >= 0.0 && 0.0 <= b.tokens <= burst && i < k <= |times|
    requires Clock([b.last] + times) && times[k - 1] - times[i] <= length
    ensures Admitted(rate, burst, b, times, i, k) as real <= burst + rate * length
  {
    hide After, Admitted, Clock;
    WindowBalance(rate, burst, b, times, i, k);
    TokensInRange(rate, burst, b, times, k);
    MulMonotone(times[k - 1] - times[i], length, rate);
  }

  // ---------------------------------------------------- shared buckets

  /** What the endpoint catalogue says; a burst of none or zero counts as one. */
  datatype Limit = Unpublished | Published(rate: real, burst: Option<nat>)

  datatype LimitError = UnknownEndpoint

  function BurstOf(burst: Option<nat>): (n: nat)
    ensures n > 0
  {
    if burst.Some? && burst.value > 0 then burst.value else 1
  }

  class Limiters {
    var buckets: map<string, TokenBucket>

    constructor ()
      ensures buckets == map[]
    {
      buckets := map[];
    }

    /** The one bucket of an endpoint, made on first use and shared from then on. */
    method LimiterFor(catalogue: map<string, Limit>, key: string, now: real) returns (r: Result<Option<TokenBucket>, LimitError>)
      requires forall k | k in catalogue && catalogue[k].Published? :: catalogue[k].rate > 0.0
      modifies this
      ensures key !in catalogue <==> r == Err(UnknownEndpoint)
      ensures key in catalogue && catalogue[key].Unpublished? ==> r == Ok(None)
      ensures key !in catalogue || catalogue[key].Unpublished? ==> buckets == old(buckets)
      ensures key in catalogue && catalogue[key].Published? ==>
                && r.Ok? && r.value.Some? && buckets == old(buckets)[key := r.value.value]
                && (key in old(buckets) ==> r.value.value == old(buckets)[key])
                && (key !in old(buckets) ==>
                      var bucket, burst := r.value.value, BurstOf(catalogue[key].burst);
                      && fresh(bucket) && bucket.Valid() && bucket.rate == catalogue[key].rate
                      && bucket.burst == burst && bucket.State() == Bucket(burst as real, now))
    {
      if key !in catalogue {
        return Err(UnknownEndpoint);
      }
      match catalogue[key] {
        case Unpublished => r := Ok(None);
        case Published(rate, burst) =>
          var bucket: TokenBucket;
          if key in buckets {
            bucket := buckets[key];
          } else {
            bucket := new TokenBucket(rate, BurstOf(burst), now);
            buckets := buckets[key := bucket];
          }
          r := Ok(Some(bucket));
      }
    }
  }

  // ------------------------------------------------------ the retry loop

  const MAX_ATTEMPTS := 6

  /** What one attempt meets: a transport error, a token refresh that failed before
      anything was sent, or a response. */
  datatype Reply = TransportError | RefreshFailed | Status(code: nat, retryAfter: Option<real>)

  datatype Answer = Returned | RaisedTransport | RaisedRefresh | RaisedStatus(code: nat) | GaveUp

  /** The answer an attempt settles, or none when the loop goes round again. */
  function Settles(creating: bool, attempt: nat, reply: Reply): Option<Answer> {
    match reply
    case RefreshFailed => Some(RaisedRefresh)
    case TransportError => if creating then Some(RaisedTransport) else None
    case Status(code, _) =>
      if code == 401 && attempt == 0 then None
      else if code == 429 then (if creating then Some(RaisedStatus(code)) else None)
      else if 500 <= code < 600 && !creating then None
      else if 200 <= code < 300 then Some(Returned)
      else Some(RaisedStatus(code))
  }

  function Nap(attempt: nat, retryAfter: Option<real>, jitter: real): real {
    if retryAfter.Some? && retryAfter.value != 0.0 then Min(retryAfter.value, 300.0)
    else Min(Power2(attempt) + jitter, 120.0)
  }

  function Power2(n: nat): real {
    if n == 0 then 1.0 else 2.0 * Power2(n - 1)
  }

  /** What is slept after an attempt that settles nothing; nothing after the first refusal of the token. */
  function WaitAfter(attempt: nat, reply: Reply, jitter: real): seq<real> {
    match reply
    case Status(401, _) => if attempt == 0 then [] else [Nap(attempt, None, jitter)]
    case Status(429, retryAfter) => [Nap(attempt, retryAfter, jitter)]
    case _ => [Nap(attempt, None, jitter)]
  }

  function Waits(replies: seq<Reply>, jitter: nat -> real, k: nat): seq<real>
    requires k <= |replies|
  {
    if k == 0 then [] else Waits(replies, jitter, k - 1) + WaitAfter(k - 1, replies[k - 1], jitter(k - 1))
  }

  /** Attempts that reach the network. */
  function Sends(replies: seq<Reply>): nat {
    if replies == [] then 0 else Sends(replies[..|replies| - 1]) + (if replies[|replies| - 1].RefreshFailed? then 0 else 1)
  }

  lemma NothingSent(replies: seq<Reply>, jitter: nat -> real)
    ensures Sends([]) == 0 && Waits(replies, jitter, 0) == []
  {
  }

  lemma OneMoreSent(replies: seq<Reply>, i: nat)
    requires i < |replies|
    ensures Sends(replies[..i + 1]) == Sends(replies[..i]) + if replies[i].RefreshFailed? then 0 else 1
  {
    assert replies[..i + 1][..i] == replies[..i];
  }

  lemma OneMoreWait(replies: seq<Reply>, jitter: nat -> real, i: nat)
    requires i < |replies|
    ensures Waits(replies, jitter, i + 1) == Waits(replies, jitter, i) + WaitAfter(i, replies[i], jitter(i))
  {
    hide WaitAfter;
  }

  /** A wait is what the server asked for, at most five minutes, and otherwise doubles from one second up to two minutes. */
  lemma NapLaw(attempt: nat, retryAfter: Option<real>, jitter: real)
    requires 0.0 <= jitter < 1.0
    ensures retryAfter.Some? && retryAfter.value != 0.0 ==>
              Nap(attempt, retryAfter, jitter) == if retryAfter.value <= 300.0 then retryAfter.value else 300.0
    ensures retryAfter.None? || retryAfter.value == 0.0 ==>
              Nap(attempt, retryAfter, jitter) == if attempt < 7 then [1.0, 2.0, 4.0, 8.0, 16.0, 32.0, 64.0][attempt] + jitter else 120.0
  {
    PowersOfTwo();
    if attempt >= 7 {
      PowerGrows(attempt);
    }
  }

  lemma PowersOfTwo()
    ensures Power2(0) == 1.0 && Power2(1) == 2.0 && Power2(2) == 4.0 && Power2(3) == 8.0 && Power2(4) == 16.0 && Power2(5) == 32.0
    ensures Power2(6) == 64.0
  {
    assert Power2(2) == 2.0 * Power2(1);
    assert Power2(4) == 2.0 * Power2(3);
    assert Power2(6) == 2.0 * Power2(5);
  }

  lemma {:induction false} PowerGrows(n: nat)
    requires n >= 7
    ensures Power2(n) >= 128.0
  {
    if n > 7 {
      PowerGrows(n - 1);
    } else {
      PowersOfTwo();
    }
  }

  lemma NapsAreShort()
    ensures forall attempt, retryAfter, jitter :: Nap(attempt, retryAfter, jitter) <= 300.0
  {
    hide Power2;
  }

  /** The loop of an admitted call. `creating` marks the endpoints that must not be
      retried; `replies` is what each attempt would meet. */
  method Call(creating: bool, replies: seq<Reply>, jitter: nat -> real)
    returns (answer: Answer, attempts: nat, sent: nat, naps: seq<real>)
    requires |replies| == 6
    ensures 1 <= attempts <= 6 && sent == Sends(replies[..attempts]) <= attempts
    ensures forall a | 0 <= a < attempts - 1 :: Settles(creating, a, replies[a]) == None
    ensures match Settles(creating, attempts - 1, replies[attempts - 1])
            case Some(settled) => answer == settled
            case None =>
              && attempts == 6
              && answer == (if exists a | 0 <= a < 6 :: replies[a].TransportError? then RaisedTransport else GaveUp)
    ensures naps == Waits(replies, jitter, if Settles(creating, attempts - 1, replies[attempts - 1]).Some? then attempts - 1 else attempts)
    ensures |naps| <= attempts && forall n | 0 <= n < |naps| :: naps[n] <= 300.0
    ensures creating ==> naps == []
  {
    hide Sends, Nap, Waits;
    var failed := false;
    naps, sent, attempts := [], 0, 0;
    NothingSent(replies, jitter);
    NapsAreShort();
    for attempt := 0 to MAX_ATTEMPTS
      invariant sent == Sends(replies[..attempt]) <= attempt && attempts == attempt
      invariant forall a | 0 <= a < attempt :: Settles(creating, a, replies[a]) == None
      invariant failed <==> exists a | 0 <= a < attempt :: replies[a].TransportError?
      invariant |naps| <= attempt && forall n | 0 <= n < |naps| :: naps[n] <= 300.0
      invariant naps == Waits(replies, jitter, attempt)
      invariant creating ==> naps == []
    {
      var reply := replies[attempt];
      OneMoreSent(replies, attempt);
      OneMoreWait(replies, jitter, attempt);
      attempts := attempts + 1;
      if reply.RefreshFailed? {
        return RaisedRefresh, attempts, sent, naps;
      }
      sent := sent + 1;
      if reply.TransportError? {
        failed := true;
        if creating {
          return RaisedTransport, attempts, sent, naps;
        }
        naps := naps + [Nap(attempt, None, jitter(attempt))];
        continue;
      }
      if reply.code == 401 && attempt == 0 {
        continue;
      }
      if reply.code == 429 {
        if creating {
          return RaisedStatus(reply.code), attempts, sent, naps;
        }
        naps := naps + [Nap(attempt, reply.retryAfter, jitter(attempt))];
        continue;
      }
      if 500 <= reply.code < 600 && !creating {
        naps := naps + [Nap(attempt, None, jitter(attempt))];
        continue;
      }
      answer := if 200 <= reply.code < 300 then Returned else RaisedStatus(reply.code);
      return answer, attempts, sent, naps;
    }
    answer := if failed then RaisedTransport else GaveUp;
  }

  /** A loop that went on to a second attempt while creating met a 401 first, and it
      never goes on to a third. */
  lemma CreationSentTwiceAtMost(replies: seq<Reply>, attempts: nat)
    requires 1 <= attempts <= |replies|
    requires forall a | 0 <= a < attempts - 1 :: Settles(true, a, replies[a]) == None
    ensures attempts <= 2 && Sends(replies[..attempts]) <= 2
    ensures attempts == 2 ==> replies[0].Status? && replies[0].code == 401
  {
    assert attempts >= 2 ==> Settles(true, 0, replies[0]) == None;
    if |replies| > 1 {
      SecondCreationSettles(replies[1]);
    }
    SendsAtMost(replies[..attempts]);
  }

  lemma SecondCreationSettles(reply: Reply)
    ensures Settles(true, 1, reply).Some?
  {
  }

  lemma {:induction false} SendsAtMost(replies: seq<Reply>)
    ensures Sends(replies) <= |replies|
  {
    if replies != [] {
      SendsAtMost(replies[..|replies| - 1]);
    }
  }
}
