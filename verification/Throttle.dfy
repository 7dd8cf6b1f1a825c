/** The LLM throttle (qc/batch/orchestrator.py, qc/batch/worker.py): callers are released one at a time under a lock,
    at least 60/rpm seconds apart, so no minute holds more than rpm of them. */
module Throttle {
  import opened Common

  /** `max(1, int(llm_rpm or 60))`. */
  function EffectiveRpm(rpm: int): (r: nat)
    ensures r >= 1
  {
    if rpm == 0 then 60 else Max(1, rpm)
  }

  function Interval(rpm: nat): (r: real)
    requires rpm >= 1
    ensures r > 0.0
  {
    60.0 / rpm as real
  }

  /** The clock, and sleeping: `now(n)` is the n-th reading. */
  datatype Time = Time(now: nat -> real)

  /** Readings never go back, and a sleep that precedes a reading lasted at least as long as asked. */
  ghost predicate Monotone(time: Time) {
    forall m: nat, n: nat | m <= n :: time.now(m) <= time.now(n)
  }

  class LlmThrottle {
    const rpm: nat
    const time: Time
    /** Release times so far, oldest first: `_last_llm_at` is the last of them, or the initial zero. */
    var releases: seq<real>
    var lastAt: real
    var looks: nat

    ghost predicate Valid()
      reads this
    {
      && rpm >= 1
      && (if releases == [] then lastAt == 0.0 else lastAt == releases[|releases| - 1])
      && Spaced(releases, Interval(rpm))
      && (looks > 0 ==> lastAt <= time.now(looks - 1))
      && (looks == 0 ==> releases == [])
    }

    constructor (llmRpm: int, time: Time)
      ensures Valid() && releases == [] && this.time == time
      ensures rpm == if llmRpm == 0 then 60 else if llmRpm < 0 then 1 else llmRpm
    {
      this.rpm, this.time := EffectiveRpm(llmRpm), time;
      releases, lastAt, looks := [], 0.0, 0;
    }

    /** One caller, alone under the lock. A sleep is never shorter than asked: the reading after it shows that. */
    method Release()
      requires Valid() && Monotone(time)
      requires var wait := lastAt + Interval(rpm) - time.now(looks);
               wait > 0.0 ==> time.now(looks + 1) >= time.now(looks) + wait
      modifies this
      ensures Valid() && looks == old(looks) + 2 && releases == old(releases) + [time.now(old(looks) + 1)]
    {
      var now := time.now(looks);
      var wait := lastAt + Interval(rpm) - now;
      ghost var before := releases;
      lastAt := time.now(looks + 1);
      looks := looks + 2;
      releases := releases + [lastAt];
      assert before != [] ==> lastAt >= before[|before| - 1] + Interval(rpm);
    }
  }

  /** Consecutive releases are at least `interval` apart. */
  ghost predicate Spaced(releases: seq<real>, interval: real) {
    forall i | 0 <= i < |releases| - 1 :: releases[i + 1] >= releases[i] + interval
  }

  lemma {:induction false} SpacedFar(releases: seq<real>, interval: real, i: nat, j: nat)
    requires Spaced(releases, interval) && i <= j < |releases|
    ensures releases[j] >= releases[i] + (j - i) as real * interval
    decreases j - i
  {
    if i < j {
      SpacedFar(releases, interval, i, j - 1);
      assert (j - i) as real * interval == (j - 1 - i) as real * interval + interval;
    }
  }

  function InWindow(releases: seq<real>, from: real): nat {
    if releases == [] then 0
    else InWindow(releases[..|releases| - 1], from) + if from <= releases[|releases| - 1] < from + 60.0 then 1 else 0
  }

  /** The releases counted in a window lie between its first and its last, so their number is bounded by their span. */
  lemma {:induction false} WindowSpan(releases: seq<real>, interval: real, from: real) returns (first: nat, last: nat)
    requires Spaced(releases, interval) && interval > 0.0 && InWindow(releases, from) > 0
    ensures first <= last < |releases| && InWindow(releases, from) <= last - first + 1
    ensures from <= releases[first] && releases[last] < from + 60.0
  {
    var n := |releases| - 1;
    var init := releases[..n];
    var here := from <= releases[n] < from + 60.0;
    if InWindow(init, from) == 0 {
      first, last := n, n;
    } else {
      first, last := WindowSpan(init, interval, from);
      if here {
        last := n;
      }
    }
  }

  /** Rate bound: whatever the callers, any half-open minute holds at most rpm releases. */
  lemma RateBound(releases: seq<real>, rpm: nat, from: real)
    requires rpm >= 1 && Spaced(releases, Interval(rpm))
    ensures InWindow(releases, from) <= rpm
  {
    hide Interval, Spaced, InWindow;
    if InWindow(releases, from) > rpm {
      var first, last := WindowSpan(releases, Interval(rpm), from);
      var steps: nat := last - first;
      SpacedFar(releases, Interval(rpm), first, last);
      FullMinute(rpm, steps);
    }
  }

  lemma FullMinute(rpm: nat, steps: nat)
    requires 1 <= rpm <= steps
    ensures steps as real * Interval(rpm) >= 60.0
  {
    var i := Interval(rpm);
    assert rpm as real * i == 60.0;
    assert (steps - rpm) as real * i >= 0.0;
    assert steps as real * i == rpm as real * i + (steps - rpm) as real * i;
  }
}
