/** Error classification and back-off (qc/batch/retry_policy.py). */
module Retry {
  import opened Common
  import opened Stages

  /** Exceptions as the classifier tells them apart; `text` is the lower-cased message of a TimeoutError. */
  datatype Raised =
    | Structured(code: string, message: string, retryable: bool)
    | TimedOut(text: string)
    | BadInput
    | Unexpected

  predicate Mentions(text: string, word: string) {
    word <= text || (text != [] && Mentions(text[1..], word))
  }

  function Classify(raised: Raised): StageError {
    match raised
    case Structured(code, message, retryable) => StageError(code, message, retryable)
    case TimedOut(text) =>
      if Mentions(text, "429") || Mentions(text, "rate") || Mentions(text, "limit")
      then StageError("UPSTREAM_RATE_LIMITED", "上游限流", true)
      else StageError("UPSTREAM_TIMEOUT", "上游调用超时", true)
    case BadInput => StageError("INVALID_INPUT", "输入或路径不合法", false)
    case Unexpected => StageError("INTERNAL_ERROR", "批量阶段发生内部错误", false)
  }

  /** The word stands somewhere in the text. */
  ghost predicate Contains(text: string, word: string) {
    exists i: nat :: StandsAt(text, word, i)
  }

  ghost predicate StandsAt(text: string, word: string, i: nat) {
    i + |word| <= |text| && text[i..i + |word|] == word
  }

  lemma {:induction false} MentionsIsContains(text: string, word: string)
    ensures Mentions(text, word) <==> Contains(text, word)
  {
    if word <= text {
      assert StandsAt(text, word, 0);
    } else if text != [] {
      MentionsIsContains(text[1..], word);
      forall i: nat
        ensures StandsAt(text[1..], word, i) <==> StandsAt(text, word, i + 1)
      {
        if i + 1 + |word| <= |text| {
          assert text[1..][i..i + |word|] == text[i + 1..i + 1 + |word|];
        }
      }
      if i: nat :| StandsAt(text, word, i) {
        assert i > 0;
        assert StandsAt(text[1..], word, i - 1);
      }
    } else {
      assert forall i: nat :: !StandsAt(text, word, i);
    }
  }

  ghost predicate IsRateLimit(text: string) {
    Contains(text, "429") || Contains(text, "rate") || Contains(text, "limit")
  }

  /** What an exception is recorded as, and whether it is worth another attempt. */
  lemma ClassifySays(raised: Raised)
    ensures var e := Classify(raised);
            && (raised.Structured? ==>
                  e.code == raised.code && e.message == raised.message && e.retryable == raised.retryable)
            && (raised.TimedOut? ==>
                  e.retryable && e.code in {"UPSTREAM_RATE_LIMITED", "UPSTREAM_TIMEOUT"}
                  && (e.code == "UPSTREAM_RATE_LIMITED" <==> IsRateLimit(raised.text)))
            && (raised.BadInput? ==> e.code == "INVALID_INPUT" && !e.retryable)
            && (raised.Unexpected? ==> e.code == "INTERNAL_ERROR" && !e.retryable)
  {
    if raised.TimedOut? {
      MentionsIsContains(raised.text, "429");
      MentionsIsContains(raised.text, "rate");
      MentionsIsContains(raised.text, "limit");
    }
    hide Mentions, Contains;
  }

  datatype RetryPolicy = RetryPolicy(maxAttempts: int, initialDelay: real, maxDelay: real, jitter: real)

  predicate ShouldRetry(policy: RetryPolicy, error: StageError, attempts: int) {
    error.retryable && attempts < Max(1, policy.maxAttempts)
  }

  function NonNegative(x: real): (r: real)
    ensures r >= 0.0 && r >= x && (r == x || r == 0.0)
  {
    if x < 0.0 then 0.0 else x
  }

  function Doublings(n: nat): (r: real)
    ensures r >= 1.0
  {
    if n == 0 then 1.0 else 2.0 * Doublings(n - 1)
  }

  function Base(policy: RetryPolicy, attempts: int): real {
    Capped(NonNegative(policy.initialDelay) * Doublings(Max(0, attempts - 1)), NonNegative(policy.maxDelay))
  }

  function Capped(x: real, limit: real): (r: real)
    ensures r <= x && r <= limit && (r == x || r == limit)
  {
    if x <= limit then x else limit
  }

  function DelayFor(policy: RetryPolicy, attempts: int, random: real): real {
    Base(policy, attempts) + Noise(NonNegative(policy.jitter), random)
  }

  function Noise(jitter: real, random: real): real {
    jitter * random
  }

  lemma {:induction false} GrowthIsMonotone(start: real, m: nat, n: nat)
    requires m <= n && start >= 0.0
    ensures 0.0 <= start * Doublings(m) <= start * Doublings(n)
    decreases n - m
  {
    if m < n {
      GrowthIsMonotone(start, m + 1, n);
      assert start * Doublings(m + 1) == 2.0 * (start * Doublings(m));
    }
  }

  /** The delay before jitter starts at the initial one and doubles with every attempt, up to the greatest one. */
  lemma BaseDoubles(policy: RetryPolicy, attempts: int)
    ensures var initial := if policy.initialDelay > 0.0 then policy.initialDelay else 0.0;
            var greatest := if policy.maxDelay > 0.0 then policy.maxDelay else 0.0;
            && (attempts <= 1 ==> Base(policy, attempts) == if initial < greatest then initial else greatest)
            && (attempts >= 1 ==>
                  var double := 2.0 * Base(policy, attempts);
                  Base(policy, attempts + 1) == if double < greatest then double else greatest)
  {
    var initial := NonNegative(policy.initialDelay);
    if attempts >= 1 {
      var n: nat := attempts - 1;
      GrowthIsMonotone(initial, n, n);
      assert initial * Doublings(n + 1) == 2.0 * (initial * Doublings(n));
    }
  }

  lemma BaseIsMonotone(policy: RetryPolicy, m: int, n: int)
    requires m <= n
    ensures 0.0 <= Base(policy, m) <= Base(policy, n) <= NonNegative(policy.maxDelay)
  {
    hide Doublings, NonNegative, Max;
    GrowthIsMonotone(NonNegative(policy.initialDelay), Max(0, m - 1), Max(0, n - 1));
  }

  /** Back-off never shrinks with the attempt number and never leaves its band, whatever the random draw. */
  lemma DelayIsBoundedAndMonotone(policy: RetryPolicy, m: int, n: int, random: real)
    requires m <= n && 0.0 <= random < 1.0
    ensures Base(policy, m) <= Base(policy, n)
    ensures 0.0 <= DelayFor(policy, n, random) <= NonNegative(policy.maxDelay) + NonNegative(policy.jitter)
    ensures Base(policy, n) <= DelayFor(policy, n, random) <= Base(policy, n) + NonNegative(policy.jitter)
    ensures policy.jitter >= 0.0 ==> DelayFor(policy, n, random) == Base(policy, n) + policy.jitter * random
  {
    hide Base, NonNegative, Noise;
    BaseIsMonotone(policy, m, n);
    JitterIsBounded(NonNegative(policy.jitter), random);
    NoiseIs(policy.jitter, random);
  }

  lemma NoiseIs(jitter: real, random: real)
    ensures jitter >= 0.0 ==> Noise(NonNegative(jitter), random) == jitter * random
  {
  }

  lemma JitterIsBounded(jitter: real, random: real)
    requires jitter >= 0.0 && 0.0 <= random < 1.0
    ensures 0.0 <= Noise(jitter, random) <= jitter
  {
    var gap := 1.0 - random;
    ProductIsNonNegative(jitter, random);
    ProductIsNonNegative(jitter, gap);
    assert jitter == jitter * (random + gap) == jitter * random + jitter * gap;
  }

  lemma ProductIsNonNegative(x: real, y: real)
    requires x >= 0.0 && y >= 0.0
    ensures x * y >= 0.0
  {
  }
}
