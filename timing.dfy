/**
 * Wall-clock arithmetic of the acquisition loop: the start-up alignment wait
 * and the schedule cursor.  Instants are integer microseconds of local wall
 * time, counted from an origin that falls on a minute boundary, so the
 * seconds-into-the-minute of an instant `t` is `t % MicrosPerMinute` and every
 * modular computation is exact.
 */
module Timing {

  const MicrosPerSecond: int := 1_000_000
  const MicrosPerMinute: int := 60 * MicrosPerSecond

  /** The averaging period `period` (whole seconds) in microseconds. */
  function PeriodMicros(period: int): int
  {
    period * MicrosPerSecond
  }

  /** `current_time.second + current_time.microsecond / 1e6`, in microseconds. */
  function SinceMinute(t: int): (s: int)
    ensures 0 <= s < MicrosPerMinute
    ensures (t - s) % MicrosPerMinute == 0
  {
    t % MicrosPerMinute
  }

  /**
   * The start-up wait `(P - (s mod P)) mod P`: the delay after which the
   * seconds-into-the-minute `s` lands on a multiple of the period.
   */
  function AlignmentWait(s: int, period: int): (w: int)
    requires period >= 1
    ensures 0 <= w < PeriodMicros(period)
    ensures (s + w) % PeriodMicros(period) == 0
  {
    var p := PeriodMicros(period);
    WaitAligns(s, p);
    (p - s % p) % p
  }

  lemma WaitAligns(s: int, p: int)
    requires p >= 1
    ensures 0 <= (p - s % p) % p < p
    ensures (s + (p - s % p) % p) % p == 0
  {
    var q, r := s / p, s % p;
    assert s == q * p + r && 0 <= r < p;
    if r == 0 {
      MultipleModIsZero(1, p);
      assert (p - r) % p == 0;
    } else {
      SmallModIsItself(p - r, p);
      assert s + (p - r) == (q + 1) * p;
      MultipleModIsZero(q + 1, p);
    }
  }

  lemma SmallModIsItself(x: int, p: int)
    requires 0 <= x < p
    ensures x % p == x
  {
    var q, r := x / p, x % p;
    assert x == q * p + r && 0 <= r < p;
    MultipleInRangeIsZero(q, p);
  }

  lemma MultipleModIsZero(k: int, p: int)
    requires p >= 1
    ensures (k * p) % p == 0
  {
    var q, r := (k * p) / p, (k * p) % p;
    assert k * p == q * p + r;
    assert (k - q) * p == r;
    MultipleInRangeIsZero(k - q, p);
  }

  /** The only multiple of `p` strictly between `-p` and `p` is zero. */
  lemma MultipleInRangeIsZero(a: int, p: int)
    requires p >= 1
    ensures -p < a * p < p ==> a == 0
  {
    if a >= 1 {
      assert a * p == (a - 1) * p + p;
    } else if a <= -1 {
      assert a * p == (a + 1) * p - p;
    }
  }

  /**
   * The alignment wait is the least non-negative delay that brings `s` onto
   * a multiple of the period: any wait `w` in `[0, P)` aligns `s` exactly
   * when it is the computed one.
   */
  lemma {:induction false} AlignmentWaitIsUnique(s: int, period: int, w: int)
    requires period >= 1
    ensures (0 <= w < PeriodMicros(period) && (s + w) % PeriodMicros(period) == 0)
        <==> w == AlignmentWait(s, period)
  {
    var p := PeriodMicros(period);
    var a := AlignmentWait(s, period);
    if 0 <= w < p && (s + w) % p == 0 {
      var k1 := (s + w) / p;
      var k2 := (s + a) / p;
      assert s + w == k1 * p;
      assert s + a == k2 * p;
      assert w - a == (k1 - k2) * p;
      MultipleInRangeIsZero(k1 - k2, p);
    }
  }

  /**
   * The first target time: the wake-up instant truncated to its whole second,
   * plus one period.  It is a whole second, and lies within the last second
   * before `now + P`.
   */
  function FirstTarget(now: int, period: int): (r: int)
    ensures r % MicrosPerSecond == 0
    ensures now + PeriodMicros(period) - MicrosPerSecond < r <= now + PeriodMicros(period)
  {
    now - now % MicrosPerSecond + PeriodMicros(period)
  }

  /**
   * When the alignment sleep is exact, the wake-up instant is already a whole
   * second, so the first target is exactly one period after it.
   */
  lemma {:induction false} ExactWakeFirstTarget(start: int, period: int)
    requires period >= 1
    ensures var wake := start + AlignmentWait(SinceMinute(start), period);
            wake % MicrosPerSecond == 0 && FirstTarget(wake, period) == wake + PeriodMicros(period)
  {
    var s := SinceMinute(start);
    var w := AlignmentWait(s, period);
    var p := PeriodMicros(period);
    var m := (s + w) / p;
    var q := (start - s) / MicrosPerMinute;
    assert s + w == m * p;
    assert start - s == q * MicrosPerMinute;
    assert start + w == (60 * q + m * period) * MicrosPerSecond;
    MultipleModIsZero(60 * q + m * period, MicrosPerSecond);
  }

  /** The end of a period's averaging window: one second short of a full period. */
  function WindowEnd(target: int, period: int): (r: int)
    ensures r + MicrosPerSecond == NextTarget(target, period)
  {
    target + (period - 1) * MicrosPerSecond
  }

  /** The schedule cursor's only update: advance by exactly one period. */
  function NextTarget(target: int, period: int): int
  {
    target + PeriodMicros(period)
  }

  /**
   * The sleep before the next period: the time left until the target when
   * positive, otherwise none (a late loop proceeds at once).
   */
  function SleepTime(target: int, now: int): (d: int)
    ensures d >= 0
    ensures d > 0 <==> now < target
    ensures now < target ==> now + d == target
  {
    if target - now > 0 then target - now else 0
  }

  /** The cursor after `n` advances from `first`. */
  function TargetAfter(first: int, period: int, n: nat): int
  {
    if n == 0 then first else NextTarget(TargetAfter(first, period, n - 1), period)
  }

  /**
   * No drift: after `n` cycles the cursor is exactly `n` periods past the
   * first target, whatever the clock read in between.
   */
  lemma {:induction false} TargetAfterIsExact(first: int, period: int, n: nat)
    ensures TargetAfter(first, period, n) == first + n * PeriodMicros(period)
  {
    if n > 0 {
      TargetAfterIsExact(first, period, n - 1);
      assert n * PeriodMicros(period) == (n - 1) * PeriodMicros(period) + PeriodMicros(period);
    }
  }
}
