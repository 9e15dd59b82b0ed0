/**
 * Bucket alignment: `KLineService::get_interval_start` (src/services/kline.rs).
 * An instant is an integer number of nanoseconds since the Unix epoch (UTC, no
 * leap seconds). chrono's calendar fields of an instant are floor divisions of
 * that number, which is what Dafny's Euclidean `/` and `%` compute for a
 * positive divisor, negative instants included.
 */
module Calendar {
  import opened Wrappers
  import opened TimeIntervals

  const NanosPerSecond: int := 1_000_000_000
  const NanosPerMinute: int := 60 * NanosPerSecond
  const NanosPerHour: int := 60 * NanosPerMinute

  /** Length of an interval in nanoseconds. */
  function DurationNanos(iv: TimeInterval): (d: int)
    ensures d > 0
  {
    DurationSeconds(iv) * NanosPerSecond
  }

  /** chrono `nanosecond()`: nanoseconds into the current second. */
  function Nanosecond(t: int): (n: int)
    ensures 0 <= n < NanosPerSecond
  {
    t % NanosPerSecond
  }

  /** chrono `second()`: seconds into the current minute. */
  function Second(t: int): (s: int)
    ensures 0 <= s < 60
  {
    (t / NanosPerSecond) % 60
  }

  /** chrono `minute()`: minutes into the current hour. */
  function Minute(t: int): (m: int)
    ensures 0 <= m < 60
  {
    (t / NanosPerMinute) % 60
  }

  /** chrono `with_nanosecond(n)`: the same second with the nanosecond field replaced. */
  function WithNanosecond(t: int, n: int): (r: Option<int>)
    ensures r.Some? <==> 0 <= n < NanosPerSecond
    ensures r.Some? ==> Nanosecond(r.value) == n && r.value / NanosPerSecond == t / NanosPerSecond
  {
    if 0 <= n < NanosPerSecond then
      NanosecondReplaced(t, n);
      Some(t - Nanosecond(t) + n)
    else None
  }

  /** chrono `with_second(s)`: the same minute with the second field replaced. */
  function WithSecond(t: int, s: int): (r: Option<int>)
    ensures r.Some? <==> 0 <= s < 60
    ensures r.Some? ==> Second(r.value) == s && Nanosecond(r.value) == Nanosecond(t)
                        && r.value / NanosPerMinute == t / NanosPerMinute
  {
    if 0 <= s < 60 then
      SecondReplaced(t, s);
      Some(t + (s - Second(t)) * NanosPerSecond)
    else None
  }

  /** chrono `with_minute(m)`: the same hour with the minute field replaced. */
  function WithMinute(t: int, m: int): (r: Option<int>)
    ensures r.Some? <==> 0 <= m < 60
    ensures r.Some? ==> Minute(r.value) == m && Second(r.value) == Second(t) && Nanosecond(r.value) == Nanosecond(t)
                        && r.value / NanosPerHour == t / NanosPerHour
  {
    if 0 <= m < 60 then
      MinuteReplaced(t, m);
      Some(t + (m - Minute(t)) * NanosPerMinute)
    else None
  }

  /**
   * `get_interval_start`: clear the fields below the interval's unit; for 5m and
   * 15m round the minute of the hour down to a multiple of 5 or 15 first. The
   * `unwrap_or(timestamp)` fallbacks are kept (lemma IntervalStartIsFloor shows
   * they are never taken).
   */
  function GetIntervalStart(t: int, iv: TimeInterval): int
  {
    match iv
    case Second1 =>
      WithNanosecond(t, 0).UnwrapOr(t)
    case Minute1 =>
      WithSecond(t, 0).AndThen(t1 => WithNanosecond(t1, 0)).UnwrapOr(t)
    case Minute5 =>
      var aligned := (Minute(t) / 5) * 5;
      WithMinute(t, aligned)
        .AndThen(t1 => WithSecond(t1, 0))
        .AndThen(t2 => WithNanosecond(t2, 0))
        .UnwrapOr(t)
    case Minute15 =>
      var aligned := (Minute(t) / 15) * 15;
      WithMinute(t, aligned)
        .AndThen(t1 => WithSecond(t1, 0))
        .AndThen(t2 => WithNanosecond(t2, 0))
        .UnwrapOr(t)
    case Hour1 =>
      WithMinute(t, 0)
        .AndThen(t1 => WithSecond(t1, 0))
        .AndThen(t2 => WithNanosecond(t2, 0))
        .UnwrapOr(t)
  }

  // ---------------------------------------------------------------------------
  // Division facts used below

  lemma DivModUnique(t: int, d: int, q: int, r: int)
    requires d > 0 && 0 <= r < d && t == d * q + r
    ensures t / d == q && t % d == r
  {
    var q', r' := t / d, t % d;
    assert t == d * q' + r';
    var k := q' - q;
    assert d * k == r - r' by {
      assert d * q' - d * q == d * (q' - q);
    }
    if k >= 1 {
      MulAtLeast(d, k);
    } else if k <= -1 {
      MulAtLeast(d, -k);
    }
  }

  lemma MulCancel(d: int, a: int, b: int)
    requires d > 0 && d * a < d * b
    ensures a < b
  {
  }

  lemma MulAtLeast(d: int, k: int)
    requires d > 0 && k >= 1
    ensures d * k >= d
  {
    assert d * k == d + d * (k - 1);
  }

  /** Adding whole multiples of d changes neither the remainder nor the fraction. */
  lemma ShiftByMultiple(x: int, k: int, d: int)
    requires d > 0
    ensures (x + k * d) % d == x % d
    ensures (x + k * d) / d == x / d + k
  {
    DivModUnique(x + k * d, d, x / d + k, x % d);
  }

  /** Splitting a mixed-radix remainder: t mod (a*b) from t div a and t mod a. */
  lemma ModOfProduct(t: int, a: int, b: int)
    requires a > 0 && b > 0
    ensures t % (a * b) == ((t / a) % b) * a + t % a
  {
    var u, n := t / a, t % a;
    var q, s := u / b, u % b;
    MixedRadix(a, b, u, n, q, s);
    DivModUnique(t, a * b, q, s * a + n);
  }

  /** The arithmetic behind ModOfProduct, kept apart from division. */
  lemma MixedRadix(a: int, b: int, u: int, n: int, q: int, s: int)
    requires a > 0 && 0 <= n < a && 0 <= s < b && u == b * q + s
    ensures a * u + n == (a * b) * q + (s * a + n)
    ensures 0 <= s * a + n < a * b
  {
    assert a * u == (a * b) * q + s * a by {
      assert a * (b * q + s) == a * (b * q) + a * s;
      assert a * (b * q) == (a * b) * q;
    }
    assert s * a <= (b - 1) * a by {
      assert (b - 1) * a - s * a == (b - 1 - s) * a;
    }
    assert (b - 1) * a + a == a * b;
  }

  /** Reducing modulo a multiple of d first does not change the remainder modulo d. */
  lemma ModOfMod(x: int, d: int, k: int)
    requires d > 0 && k > 0
    ensures (x % (d * k)) % d == x % d
  {
    var q := x / (d * k);
    assert x == (d * k) * q + x % (d * k);
    assert x == x % (d * k) + (k * q) * d;
    ShiftByMultiple(x % (d * k), k * q, d);
  }

  /** Re-aligning the minute of the hour keeps the second and nanosecond fields. */
  lemma MinuteShift(t: int, k: int)
    ensures Second(t + k * NanosPerMinute) == Second(t)
    ensures Nanosecond(t + k * NanosPerMinute) == Nanosecond(t)
  {
    assert t + k * NanosPerMinute == t + (60 * k) * NanosPerSecond;
    ShiftByMultiple(t, 60 * k, NanosPerSecond);
    ShiftByMultiple(t / NanosPerSecond, k, 60);
  }

  /** Clearing the second field keeps the nanosecond field. */
  lemma SecondShift(t: int, k: int)
    ensures Nanosecond(t + k * NanosPerSecond) == Nanosecond(t)
  {
    ShiftByMultiple(t, k, NanosPerSecond);
  }

  /** Replacing the nanosecond field keeps the second the instant lies in. */
  lemma NanosecondReplaced(t: int, n: int)
    requires 0 <= n < NanosPerSecond
    ensures Nanosecond(t - Nanosecond(t) + n) == n
    ensures (t - Nanosecond(t) + n) / NanosPerSecond == t / NanosPerSecond
  {
    var q := t / NanosPerSecond;
    assert t == NanosPerSecond * q + t % NanosPerSecond;
    DivModUnique(t - Nanosecond(t) + n, NanosPerSecond, q, n);
  }

  /** Replacing the second field keeps the nanosecond field and the minute the instant lies in. */
  lemma SecondReplaced(t: int, s: int)
    requires 0 <= s < 60
    ensures var r := t + (s - Second(t)) * NanosPerSecond;
      Second(r) == s && Nanosecond(r) == Nanosecond(t) && r / NanosPerMinute == t / NanosPerMinute
  {
    var r := t + (s - Second(t)) * NanosPerSecond;
    var q, ns := t / NanosPerMinute, Nanosecond(t);
    MinutesRemainder(t, 1);
    assert t % NanosPerMinute == Second(t) * NanosPerSecond + ns;
    assert t == NanosPerMinute * q + t % NanosPerMinute;
    assert r == NanosPerMinute * q + (s * NanosPerSecond + ns);
    assert s * NanosPerSecond <= 59 * NanosPerSecond;
    DivModUnique(r, NanosPerMinute, q, s * NanosPerSecond + ns);
    assert r == NanosPerSecond * (60 * q + s) + ns;
    DivModUnique(r, NanosPerSecond, 60 * q + s, ns);
    DivModUnique(r / NanosPerSecond, 60, q, s);
  }

  /** Replacing the minute field keeps the lower fields and the hour the instant lies in. */
  lemma MinuteReplaced(t: int, m: int)
    requires 0 <= m < 60
    ensures var r := t + (m - Minute(t)) * NanosPerMinute;
      && Minute(r) == m && Second(r) == Second(t) && Nanosecond(r) == Nanosecond(t)
      && r / NanosPerHour == t / NanosPerHour
  {
    var r := t + (m - Minute(t)) * NanosPerMinute;
    var h, sec, ns := t / NanosPerHour, Second(t), Nanosecond(t);
    MinutesRemainder(t, 60);
    assert 60 * 60 * NanosPerSecond == NanosPerHour;
    assert t % NanosPerHour == Minute(t) * NanosPerMinute + sec * NanosPerSecond + ns;
    assert t == NanosPerHour * h + t % NanosPerHour;
    var low := sec * NanosPerSecond + ns;
    assert 0 <= low < NanosPerMinute by {
      assert sec * NanosPerSecond <= 59 * NanosPerSecond;
    }
    assert r == NanosPerHour * h + (m * NanosPerMinute + low);
    assert m * NanosPerMinute <= 59 * NanosPerMinute;
    DivModUnique(r, NanosPerHour, h, m * NanosPerMinute + low);
    assert r == NanosPerMinute * (60 * h + m) + low;
    DivModUnique(r, NanosPerMinute, 60 * h + m, low);
    DivModUnique(r / NanosPerMinute, 60, h, m);
    MinuteShift(t, m - Minute(t));
  }

  /** The fields below a whole number of minutes, in nanoseconds. */
  lemma MinutesRemainder(t: int, step: int)
    requires step > 0 && 60 % step == 0
    ensures t % (step * 60 * NanosPerSecond)
         == (Minute(t) % step) * NanosPerMinute + Second(t) * NanosPerSecond + Nanosecond(t)
  {
    var u := t / NanosPerSecond;
    var mm := u / 60;
    ModOfProduct(t, NanosPerSecond, 60 * step);
    assert NanosPerSecond * (60 * step) == step * 60 * NanosPerSecond;
    ModOfProduct(u, 60, step);
    assert mm == t / NanosPerMinute by {
      assert u == 60 * mm + u % 60;
      assert t == NanosPerSecond * u + t % NanosPerSecond;
      assert t == NanosPerMinute * mm + ((u % 60) * NanosPerSecond + t % NanosPerSecond);
      DivModUnique(t, NanosPerMinute, mm, (u % 60) * NanosPerSecond + t % NanosPerSecond);
    }
    assert (mm % 60) % step == mm % step by {
      assert 60 == step * (60 / step);
      ModOfMod(mm, step, 60 / step);
    }
  }

  /** The instant with the minute field set to `target` and the fields below it cleared. */
  function ClearedBelowMinutes(t: int, target: int): int
  {
    var t1 := t + (target - Minute(t)) * NanosPerMinute;
    var t2 := t1 - Second(t1) * NanosPerSecond;
    t2 - Nanosecond(t2)
  }

  /** Setting the minute to a valid value and then clearing second and nanosecond never falls back. */
  lemma ClearChain(t: int, target: int)
    requires 0 <= target < 60
    ensures WithMinute(t, target)
        .AndThen(t1 => WithSecond(t1, 0))
        .AndThen(t2 => WithNanosecond(t2, 0))
        .UnwrapOr(t)
      == ClearedBelowMinutes(t, target)
  {
    var t1 := t + (target - Minute(t)) * NanosPerMinute;
    var t2 := t1 - Second(t1) * NanosPerSecond;
    assert WithMinute(t, target) == Some(t1);
    assert WithSecond(t1, 0) == Some(t2);
    assert WithNanosecond(t2, 0) == Some(t2 - Nanosecond(t2));
  }

  /** Rounding the minute down to a multiple of step and clearing below it floors to step minutes. */
  lemma ClearBelowMinutes(t: int, step: int)
    requires step > 0 && 60 % step == 0
    ensures ClearedBelowMinutes(t, (Minute(t) / step) * step) == t - t % (step * 60 * NanosPerSecond)
  {
    var m := Minute(t);
    var target := (m / step) * step;
    assert m - target == m % step;
    var t1 := t + (target - m) * NanosPerMinute;
    MinuteShift(t, target - m);
    SecondShift(t1, 0 - Second(t1));
    MinutesRemainder(t, step);
  }

  /**
   * Because every duration divides one hour, the hour-relative truncation the
   * code performs is the same as flooring the instant to a multiple of the
   * interval's duration counted from the epoch; the fallbacks are never used.
   */
  lemma IntervalStartIsFloor(t: int, iv: TimeInterval)
    ensures GetIntervalStart(t, iv) == t - t % DurationNanos(iv)
  {
    match iv
    case Second1 =>
    case Minute1 =>
      var t1 := t - Second(t) * NanosPerSecond;
      assert WithSecond(t, 0) == Some(t1);
      SecondShift(t, 0 - Second(t));
      ModOfProduct(t, NanosPerSecond, 60);
    case Minute5 =>
      ClearChain(t, (Minute(t) / 5) * 5);
      ClearBelowMinutes(t, 5);
    case Minute15 =>
      ClearChain(t, (Minute(t) / 15) * 15);
      ClearBelowMinutes(t, 15);
    case Hour1 =>
      ClearChain(t, 0);
      ClearBelowMinutes(t, 60);
  }

  /** Flooring to a multiple of d stays within one step below and lands on a multiple. */
  lemma FloorContains(t: int, d: int)
    requires d > 0
    ensures t - t % d <= t < t - t % d + d
    ensures (t - t % d) % d == 0
  {
    assert t - t % d == (t / d) * d;
    ShiftByMultiple(0, t / d, d);
  }

  /** A bucket start lies at or before the instant and less than one duration before it. */
  lemma IntervalStartContains(t: int, iv: TimeInterval)
    ensures GetIntervalStart(t, iv) <= t < GetIntervalStart(t, iv) + DurationNanos(iv)
    ensures GetIntervalStart(t, iv) % DurationNanos(iv) == 0
  {
    IntervalStartIsFloor(t, iv);
    FloorContains(t, DurationNanos(iv));
  }

  /** Aligning an aligned instant returns it unchanged. */
  lemma IntervalStartIdempotent(t: int, iv: TimeInterval)
    ensures GetIntervalStart(GetIntervalStart(t, iv), iv) == GetIntervalStart(t, iv)
  {
    var s := GetIntervalStart(t, iv);
    IntervalStartContains(t, iv);
    IntervalStartIsFloor(s, iv);
  }

  /** An instant is its own bucket start exactly when it is a multiple of the duration. */
  lemma AlignedIffMultiple(t: int, iv: TimeInterval)
    ensures GetIntervalStart(t, iv) == t <==> t % DurationNanos(iv) == 0
  {
    IntervalStartIsFloor(t, iv);
  }

  /** Flooring to multiples of d is monotonic and moves by whole buckets. */
  lemma FloorSteps(t1: int, t2: int, d: int)
    requires d > 0 && t1 <= t2
    ensures t1 - t1 % d <= t2 - t2 % d
    ensures t2 >= t1 - t1 % d + d ==> t2 - t2 % d >= t1 - t1 % d + d
    ensures t2 < t1 - t1 % d + d ==> t2 - t2 % d == t1 - t1 % d
  {
    var q1, q2 := t1 / d, t2 / d;
    var f1, f2 := d * q1, d * q2;
    assert f1 == t1 - t1 % d && f2 == t2 - t2 % d;
    if t2 < f1 + d {
      DivModUnique(t2, d, q1, t2 - f1);
    } else {
      assert f2 > f1;
      MulCancel(d, q1, q2);
      MulAtLeast(d, q2 - q1);
      assert f2 - f1 == d * (q2 - q1);
    }
  }

  /** Alignment is monotonic, and an instant at or past a bucket's end lands in a later bucket. */
  lemma IntervalStartMonotonic(t1: int, t2: int, iv: TimeInterval)
    requires t1 <= t2
    ensures GetIntervalStart(t1, iv) <= GetIntervalStart(t2, iv)
    ensures t2 >= GetIntervalStart(t1, iv) + DurationNanos(iv)
        ==> GetIntervalStart(t2, iv) >= GetIntervalStart(t1, iv) + DurationNanos(iv)
    ensures t2 < GetIntervalStart(t1, iv) + DurationNanos(iv)
        ==> GetIntervalStart(t2, iv) == GetIntervalStart(t1, iv)
  {
    IntervalStartIsFloor(t1, iv);
    IntervalStartIsFloor(t2, iv);
    FloorSteps(t1, t2, DurationNanos(iv));
  }

  /** Bucket start of an instant written as a whole number of buckets plus a remainder. */
  lemma IntervalStartOf(t: int, iv: TimeInterval, q: int, r: int)
    requires 0 <= r < DurationNanos(iv) && t == DurationNanos(iv) * q + r
    ensures GetIntervalStart(t, iv) == t - r
  {
    IntervalStartIsFloor(t, iv);
    DivModUnique(t, DurationNanos(iv), q, r);
  }

  /** 2024-01-15T14:35:42.123456789Z, the instant used by the alignment tests. */
  const Example1: int := 1705329342_123456789
  /** 2024-01-15T14:37:42.123456789Z. */
  const Example2: int := 1705329462_123456789

  /** The alignments expected by tests/time_interval_tests.rs. */
  lemma AlignmentExamples()
    ensures GetIntervalStart(Example1, Hour1) == 1705327200_000000000    // 14:00:00
    ensures GetIntervalStart(Example1, Minute1) == 1705329300_000000000  // 14:35:00
    ensures GetIntervalStart(Example1, Second1) == 1705329342_000000000  // 14:35:42
    ensures GetIntervalStart(Example2, Minute5) == 1705329300_000000000  // 14:35:00
    ensures GetIntervalStart(Example2, Minute15) == 1705329000_000000000 // 14:30:00
  {
    IntervalStartOf(Example1, Hour1, 473702, 2142_123456789);
    IntervalStartOf(Example1, Minute1, 28422155, 42_123456789);
    IntervalStartOf(Example1, Second1, 1705329342, 123456789);
    IntervalStartOf(Example2, Minute5, 5684431, 162_123456789);
    IntervalStartOf(Example2, Minute15, 1894810, 462_123456789);
  }
}
