/**
 * The usage meter shown for each resource: the filled percentage of the bar,
 * the near-limit and exceeded flags, and the colours they select. Arithmetic is
 * exact (reals), so floating-point rounding at the thresholds is not modelled.
 */
module UsageMeter {
  import opened Catalog

  /** A JavaScript number as the meter computes it: a real, or NaN (from 0 / 0). */
  datatype Percent = Percent(value: real) | NotANumber {

    /** `p > x`, false for NaN as in JavaScript. */
    predicate Above(x: real)
    {
      Percent? && value > x
    }

    /** `p >= x`, false for NaN as in JavaScript. */
    predicate AtLeast(x: real)
    {
      Percent? && value >= x
    }
  }

  /**
   * `isUnlimited ? 0 : Math.min(used / limit * 100, 100)`. A zero limit divides
   * by zero: a positive count gives Infinity, capped to 100; a zero count gives NaN.
   */
  function Percentage(used: nat, limit: Limit): (p: Percent)
    ensures limit.Unlimited? ==> p == Percent(0.0)
    ensures limit.Finite? && limit.n > 0 ==> p.Percent? && 0.0 <= p.value <= 100.0
    ensures limit.Finite? && limit.n > 0 && used < limit.n ==> p.value < 100.0
    ensures limit == Finite(0) ==> (p.NotANumber? <==> used == 0)
  {
    match limit
    case Unlimited => Percent(0.0)
    case Finite(n) =>
      if n == 0 then (if used == 0 then NotANumber else Percent(100.0))
      else
        var ratio := used as real / n as real * 100.0;
        assert used < n ==> ratio < 100.0 by {
          if used < n { Scale(used, n, 100.0, 100.0); }
        }
        Percent(if ratio < 100.0 then ratio else 100.0)
  }

  /** `used / n * x` compared with `y`, restated without division. */
  lemma Scale(used: nat, n: nat, x: real, y: real)
    requires n > 0 && x > 0.0
    ensures used as real / n as real * x > y <==> used as real * x > y * n as real
    ensures used as real / n as real * x >= y <==> used as real * x >= y * n as real
  {
  }

  predicate IsNearLimit(used: nat, limit: Limit)
  {
    Percentage(used, limit).Above(80.0)
  }

  predicate IsExceeded(used: nat, limit: Limit)
  {
    Percentage(used, limit).AtLeast(100.0)
  }

  /** The thresholds in whole numbers: near the limit past 80 percent, exceeded at the limit. */
  lemma Thresholds(used: nat, n: nat)
    requires n > 0
    ensures IsNearLimit(used, Finite(n)) <==> 100 * used > 80 * n
    ensures IsExceeded(used, Finite(n)) <==> used >= n
  {
    Scale(used, n, 100.0, 80.0);
    Scale(used, n, 100.0, 100.0);
  }

  /** An unlimited resource is never near its limit nor past it. */
  lemma UnlimitedNeverFlagged(used: nat)
    ensures !IsNearLimit(used, Unlimited) && !IsExceeded(used, Unlimited)
  {
  }

  /** Whatever the limit, an exceeded meter is also near its limit. */
  lemma ExceededIsNearLimit(used: nat, limit: Limit)
    ensures IsExceeded(used, limit) ==> IsNearLimit(used, limit)
  {
  }

  datatype BarColour = Red | Amber | Purple
  datatype CountColour = CountRed | CountGray

  /** What the meter draws: the "Ilimitado" label alone, or the count and a bar. */
  datatype MeterView =
    | UnlimitedLabel
    | Bounded(countColour: CountColour, barColour: BarColour, width: Percent)

  /**
   * The rendered meter: no bar for an unlimited resource; otherwise the bar is
   * red when exceeded, amber when only near the limit, purple below that, and
   * the count is red exactly when exceeded.
   */
  function View(used: nat, limit: Limit): (v: MeterView)
    ensures v.UnlimitedLabel? <==> limit.Unlimited?
    ensures v.Bounded? ==> v.width == Percentage(used, limit)
    ensures v.Bounded? ==> (v.countColour == CountRed <==> IsExceeded(used, limit))
    ensures v.Bounded? ==> (v.barColour == Red <==> IsExceeded(used, limit))
    ensures v.Bounded? ==> (v.barColour == Amber <==> IsNearLimit(used, limit) && !IsExceeded(used, limit))
    ensures limit == Finite(0) ==> v.barColour == (if used > 0 then Red else Purple)
    ensures v.Bounded? && limit.n > 0 ==> (v.barColour == Red <==> used >= limit.n)
    ensures v.Bounded? && limit.n > 0 ==> (v.barColour == Amber <==> 80 * limit.n < 100 * used && used < limit.n)
    ensures v.Bounded? && limit.n > 0 ==> (v.barColour == Purple <==> 100 * used <= 80 * limit.n)
  {
    if limit.Unlimited? then UnlimitedLabel
    else
      var p := Percentage(used, limit);
      var exceeded, near := IsExceeded(used, limit), IsNearLimit(used, limit);
      assert limit.n > 0 ==> (exceeded <==> used >= limit.n) && (near <==> 100 * used > 80 * limit.n) by {
        if limit.n > 0 { Thresholds(used, limit.n); }
      }
      Bounded(if exceeded then CountRed else CountGray,
              if exceeded then Red else if near then Amber else Purple,
              p)
  }
}
