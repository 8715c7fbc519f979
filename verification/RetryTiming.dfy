/** `outcome` of local/logout-delivery.ts: what one send result means for its delivery row. */
module RetryTiming {
  import opened Wrappers
  import opened RuntimePolicy

  /** The claimed row as the sender sees it. */
  datatype Task = Task(id: int, lease: int, client: int, sid: int, deadline: int, attempts: nat)

  datatype FailReason = HttpPermanent | AttemptLimit
  datatype RetryReason = HttpRetry | Transport
  datatype Verdict =
    | ToDelivered
    | ToFailed(reason: FailReason)
    | ToExpired
    | ToPending(retry: RetryReason, next: int)

  /** A parsed Retry-After header (section 10.2.3 of RFC 9110): delay seconds, a date, or anything else. */
  datatype RetryAfter = Absent | DelaySeconds(n: nat) | HttpDate(t: int) | Unparsable

  predicate Successful(status: int) { 200 <= status < 300 }

  predicate Retryable(status: int) {
    status == 0 || status == 408 || status == 429 || 500 <= status <= 599
  }

  function Pow2(n: nat): nat { if n == 0 then 1 else 2 * Pow2(n - 1) }

  /** Upper end of the backoff window for the given attempt: base * 2^(attempts-1), capped. */
  function Cap(p: Policy, attempts: nat): int
    requires attempts > 0
  {
    Min(p.maxDelay, p.baseDelay * Pow2(if attempts - 1 < 52 then attempts - 1 else 52))
  }

  /** Math.ceil */
  function Ceil(x: real): int {
    var f := x.Floor;
    if f as real == x then f else f + 1
  }

  /** The point `random` of the way from `lo` to `hi`. */
  function Blend(lo: int, hi: int, random: real): real {
    lo as real + random * (hi - lo) as real
  }

  /** `random` is the value of Math.random(), in [0, 1). */
  function BackoffDelay(p: Policy, attempts: nat, random: real): int
    requires attempts > 0
  {
    Ceil(Blend(p.baseDelay, Cap(p, attempts), random))
  }

  function NextAttempt(p: Policy, attempts: nat, retryAfter: RetryAfter, at: int, random: real): int
    requires attempts > 0
  {
    var next := at + BackoffDelay(p, attempts, random);
    match retryAfter
    case DelaySeconds(n) => Max(next, at + n)
    case HttpDate(t) => Max(next, t)
    case _ => next
  }

  function Outcome(p: Policy, deadline: int, attempts: nat, status: int, retryAfter: RetryAfter, at: int,
                   random: real): Verdict
    requires attempts > 0
  {
    if Successful(status) then ToDelivered
    else if !Retryable(status) then ToFailed(HttpPermanent)
    else if at >= deadline then ToExpired
    else if attempts >= p.maxAttempts then ToFailed(AttemptLimit)
    else
      var next := NextAttempt(p, attempts, retryAfter, at, random);
      if next >= deadline then ToExpired
      else ToPending(if status != 0 then HttpRetry else Transport, next)
  }

  // ---------------------------------------------------------------- what the timing guarantees

  lemma {:induction false} Pow2Positive(n: nat)
    ensures Pow2(n) >= 1
  {
    if n > 0 { Pow2Positive(n - 1); }
  }

  /** The backoff window starts at base_delay, doubles with every attempt and stops at max_delay. */
  lemma CapDoubles(p: Policy, attempts: nat)
    requires attempts > 0
    ensures Cap(p, 1) == p.baseDelay
    ensures p.baseDelay <= Cap(p, attempts) <= p.maxDelay
    ensures attempts <= 52 ==> Cap(p, attempts + 1) == Min(p.maxDelay, 2 * Cap(p, attempts))
    ensures attempts > 52 ==> Cap(p, attempts + 1) == Cap(p, attempts)
  {
    var e := if attempts - 1 < 52 then attempts - 1 else 52;
    Pow2Positive(e);
    Scaled(p.baseDelay, Pow2(e));
    if attempts <= 52 {
      assert Pow2(attempts) == 2 * Pow2(attempts - 1);
      Doubled(p.baseDelay, Pow2(attempts - 1));
    }
  }

  lemma Scaled(base: int, factor: int)
    requires base > 0 && factor >= 1
    ensures base * factor >= base && base * 1 == base
  {
  }

  lemma Doubled(base: int, factor: int)
    ensures base * (2 * factor) == 2 * (base * factor)
  {
  }

  lemma Weighted(random: real, span: real)
    requires 0.0 <= random < 1.0 && span >= 0.0
    ensures 0.0 <= random * span <= span
  {
  }

  /** Rounding up stays between two whole bounds. */
  lemma CeilBetween(x: real, lo: int, hi: int)
    requires lo as real <= x <= hi as real
    ensures lo <= Ceil(x) <= hi && Ceil(x) as real >= x
  {
  }

  lemma BlendBetween(lo: int, hi: int, random: real)
    requires lo <= hi && 0.0 <= random < 1.0
    ensures lo as real <= Blend(lo, hi, random) <= hi as real
  {
    Weighted(random, (hi - lo) as real);
  }

  /** A backoff delay is at least base_delay and at most the capped exponential. */
  lemma DelayBounds(p: Policy, attempts: nat, random: real)
    requires attempts > 0 && 0.0 <= random < 1.0
    ensures p.baseDelay <= BackoffDelay(p, attempts, random) <= Cap(p, attempts)
  {
    hide Cap, Ceil, Blend;
    CapDoubles(p, attempts);
    BlendBetween(p.baseDelay, Cap(p, attempts), random);
    CeilBetween(Blend(p.baseDelay, Cap(p, attempts), random), p.baseDelay, Cap(p, attempts));
  }

  /** The instant a usable Retry-After header names. */
  function RetryInstant(retryAfter: RetryAfter, at: int): Option<int> {
    match retryAfter
    case DelaySeconds(n) => Some(at + n)
    case HttpDate(t) => Some(t)
    case _ => None
  }

  /** The next attempt is never before base_delay nor before a usable Retry-After, and never after the capped
      exponential unless a later Retry-After says so. */
  lemma NextBounds(p: Policy, attempts: nat, retryAfter: RetryAfter, at: int, random: real)
    requires attempts > 0 && 0.0 <= random < 1.0
    ensures var next := NextAttempt(p, attempts, retryAfter, at, random);
            && next >= at + p.baseDelay
            && (RetryInstant(retryAfter, at).Some? ==> next >= RetryInstant(retryAfter, at).value)
            && (next <= at + Cap(p, attempts) || RetryInstant(retryAfter, at) == Some(next))
  {
    hide BackoffDelay, Cap;
    DelayBounds(p, attempts, random);
  }

  /** Exactly when a send is final, and what a retry looks like: a row goes back to pending exactly if the answer
      is retryable, attempts remain, and the next attempt falls before the deadline. */
  lemma OutcomeExactly(p: Policy, deadline: int, attempts: nat, status: int, retryAfter: RetryAfter, at: int,
                       random: real)
    requires attempts > 0 && 0.0 <= random < 1.0
    ensures var v, next := Outcome(p, deadline, attempts, status, retryAfter, at, random),
            NextAttempt(p, attempts, retryAfter, at, random);
            && (v.ToDelivered? <==> 200 <= status < 300)
            && (v == ToFailed(HttpPermanent) <==>
               !(200 <= status < 300) && status !in {0, 408, 429}
               && !(500 <= status <= 599))
            && (v.ToPending? <==> Retryable(status) && attempts < p.maxAttempts && next < deadline)
            && (v == ToFailed(AttemptLimit) <==> Retryable(status) && attempts >= p.maxAttempts && at < deadline)
            && (v.ToExpired? <==>
               Retryable(status) && (at >= deadline
               || (attempts < p.maxAttempts && next >= deadline)))
            && (v.ToPending? ==>
               v.next == next && at + p.baseDelay <= next < deadline
               && (v.retry.Transport? <==> status == 0))
  {
    hide NextAttempt;
    NextBounds(p, attempts, retryAfter, at, random);
  }
}
