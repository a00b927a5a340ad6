/** Exponential backoff with full jitter, and the retry loop around an outbound call. */
module Resilience {

  function Pow2(n: nat): (p: nat)
    ensures p > n
  {
    if n == 0 then 1 else 2 * Pow2(n - 1)
  }

  lemma {:induction false} Pow2Monotone(a: nat, b: nat)
    requires a <= b
    ensures Pow2(a) <= Pow2(b)
  {
    if a < b { Pow2Monotone(a, b - 1); }
  }

  /** The exclusive upper bound of a delay, min(maxDelay, baseDelay * 2^attempt). */
  function Ceiling(baseDelay: nat, maxDelay: nat, attempt: nat): (ms: nat)
    ensures ms <= maxDelay && ms <= baseDelay * Pow2(attempt)
    ensures ms == maxDelay || ms == baseDelay * Pow2(attempt)
    ensures baseDelay > 0 && maxDelay > 0 ==> ms > 0
  {
    var exponential := baseDelay * Pow2(attempt);
    if exponential < maxDelay then exponential else maxDelay
  }

  /** A delay of ms is what full jitter makes of this random number under this ceiling. */
  predicate IsJitter(ms: int, random: real, ceiling: nat)
  {
    ms as real <= random * ceiling as real < ms as real + 1.0
  }

  function Scaled(random: real, ceiling: nat): real
  {
    random * ceiling as real
  }

  lemma {:induction false} Jittered(random: real, ceiling: nat)
    requires 0.0 <= random < 1.0
    ensures 0 <= Scaled(random, ceiling).Floor <= ceiling
    ensures ceiling > 0 ==> Scaled(random, ceiling).Floor < ceiling
  {
    var c := ceiling as real;
    assert random * c + (1.0 - random) * c == c;
    assert (1.0 - random) * c >= 0.0;
    assert ceiling > 0 ==> (1.0 - random) * c > 0.0;
    assert 0.0 <= random * c <= c;
  }

  function BackoffDelay(baseDelay: nat, maxDelay: nat, attempt: nat, random: real): (ms: nat)
    requires 0.0 <= random < 1.0
    ensures ms <= Ceiling(baseDelay, maxDelay, attempt)
    ensures baseDelay > 0 && maxDelay > 0 ==> ms < Ceiling(baseDelay, maxDelay, attempt)
    ensures IsJitter(ms, random, Ceiling(baseDelay, maxDelay, attempt))
  {
    Jittered(random, Ceiling(baseDelay, maxDelay, attempt));
    Scaled(random, Ceiling(baseDelay, maxDelay, attempt)).Floor
  }

  lemma {:induction false} PowersAgree(pow: nat -> nat, n: nat)
    requires pow(0) == 1 && forall k: nat :: pow(k + 1) == 2 * pow(k)
    ensures Pow2(n) == pow(n)
  {
    if n > 0 { PowersAgree(pow, n - 1); }
  }

  /** The smaller of the cap and the base doubled as often as there were attempts. */
  lemma {:induction false} CeilingIs(pow: nat -> nat, baseDelay: nat, maxDelay: nat, attempt: nat)
    requires pow(0) == 1 && forall k: nat :: pow(k + 1) == 2 * pow(k)
    ensures Ceiling(baseDelay, maxDelay, attempt)
            == if baseDelay * pow(attempt) < maxDelay then baseDelay * pow(attempt) else maxDelay
  {
    PowersAgree(pow, attempt);
  }

  /** Full jitter, outright: with 2^n for pow, a delay is random * min(cap, base * 2^attempt)
      rounded down; so a random number of a half or more waits at least half the ceiling. */
  lemma {:induction false} DelayIsFullJitter(pow: nat -> nat, baseDelay: nat, maxDelay: nat, attempt: nat, random: real,
                                             c: nat)
    requires pow(0) == 1 && forall k: nat :: pow(k + 1) == 2 * pow(k)
    requires c == if baseDelay * pow(attempt) < maxDelay then baseDelay * pow(attempt) else maxDelay
    requires 0.0 <= random < 1.0
    ensures var ms := BackoffDelay(baseDelay, maxDelay, attempt, random);
            && ms as real <= random * c as real < ms as real + 1.0
            && (random >= 0.5 ==> ms >= c / 2)
  {
    CeilingIs(pow, baseDelay, maxDelay, attempt);
    if random >= 0.5 { HalfOrMore(BackoffDelay(baseDelay, maxDelay, attempt, random), random, c); }
  }

  lemma {:induction false} HalfOrMore(ms: int, random: real, ceiling: nat)
    requires IsJitter(ms, random, ceiling) && random >= 0.5
    ensures ms >= ceiling / 2
  {
    var c := ceiling as real;
    assert (random - 0.5) * c >= 0.0;
    assert random * c == (random - 0.5) * c + 0.5 * c;
  }

  /** How one invocation ends; an error says whether retryOn accepts it. */
  datatype Attempt<T> = Returned(value: T) | Threw(retryable: bool)

  datatype Result<T> = Value(value: T) | LastError(retryable: bool) | NeverInvoked

  function Outcome<T>(a: Attempt<T>): Result<T>
  {
    match a case Returned(v) => Value(v) case Threw(r) => LastError(r)
  }

  /** Invokes until the first success, the first error not worth retrying, or retries + 1
      invocations; the pause after attempt i is the full jitter of random(i) under its ceiling. */
  method WithResilience<T>(invocation: nat -> Attempt<T>, retries: int, baseDelay: nat, maxDelay: nat,
                           random: nat -> real)
    returns (result: Result<T>, calls: nat, pauses: seq<nat>)
    requires forall i: nat :: 0.0 <= random(i) < 1.0
    ensures calls == 0 <==> retries < 0
    ensures calls == 0 ==> result.NeverInvoked?
    ensures calls > 0 ==> calls <= retries + 1 && result == Outcome(invocation(calls - 1))
    ensures forall i | 0 <= i < calls - 1 :: invocation(i) == Threw(true)
    ensures calls > 0 && result == LastError(true) ==> calls == retries + 1
    ensures |pauses| == if calls == 0 then 0 else calls - 1
    ensures forall i | 0 <= i < |pauses| ::
              pauses[i] <= Ceiling(baseDelay, maxDelay, i)
              && IsJitter(pauses[i], random(i), Ceiling(baseDelay, maxDelay, i))
  {
    pauses := [];
    var attempt := 0;
    while attempt <= retries
      invariant attempt >= 0 && (attempt <= retries + 1 || retries < 0)
      invariant |pauses| == attempt
      invariant forall i | 0 <= i < attempt :: invocation(i) == Threw(true)
      invariant attempt > 0 ==> attempt <= retries
      invariant forall i | 0 <= i < |pauses| ::
                  pauses[i] <= Ceiling(baseDelay, maxDelay, i)
                  && IsJitter(pauses[i], random(i), Ceiling(baseDelay, maxDelay, i))
      decreases retries - attempt
    {
      var outcome := invocation(attempt);
      if outcome.Returned? || !outcome.retryable || attempt == retries {
        return Outcome(outcome), attempt + 1, pauses;
      }
      pauses := pauses + [BackoffDelay(baseDelay, maxDelay, attempt, random(attempt))];
      attempt := attempt + 1;
    }
    return NeverInvoked, 0, [];
  }
}
