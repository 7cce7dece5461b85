/**
 * Time arithmetic of a cycle. Dates are day numbers (a LocalDate counted in
 * days), and "today" is a parameter instead of a read of the clock.
 */
module CycleTime {
  import Calculation

  /** Number of calendar days of the cycle, both ends included. */
  function TotalDays(start: int, end: int): int {
    end - start + 1
  }

  /**
   * Fraction of the cycle elapsed on `today`: 1.0 for a cycle without days,
   * 0.0 before it starts, 1.0 after it ends, and otherwise the days elapsed
   * (today included) over the total.
   */
  function TimeProgress(start: int, end: int, today: int): (p: real)
    ensures 0.0 <= p <= 1.0
    ensures TotalDays(start, end) <= 0 ==> p == 1.0
    ensures start <= end && today < start ==> p == 0.0
    ensures start <= end && today > end ==> p == 1.0
    ensures start <= today <= end ==> p == (today - start + 1) as real / TotalDays(start, end) as real
    ensures start <= today <= end ==> 0.0 < p
    ensures start <= today <= end ==> (p == 1.0 <==> today == end)
  {
    var total := TotalDays(start, end);
    if total <= 0 then 1.0
    else if today < start then 0.0
    else if today > end then 1.0
    else
      InRangeFraction(today - start + 1, total);
      (today - start + 1) as real / total as real
  }

  /** Days elapsed over total days, for a day inside the cycle. */
  lemma InRangeFraction(elapsed: int, total: int)
    requires 0 < elapsed <= total
    ensures 0.0 < elapsed as real / total as real <= 1.0
    ensures elapsed as real / total as real == 1.0 <==> elapsed == total
  {
    var a, n := elapsed as real, total as real;
    if elapsed == total {
      Calculation.SelfOver(n);
    } else {
      StrictFraction(a, n);
    }
  }

  lemma StrictFraction(a: real, n: real)
    requires 0.0 < a < n
    ensures 0.0 < a / n < 1.0
  {
    var q := a / n;
    assert q * n == a;
    if q >= 1.0 {
      assert false;
    }
    if q <= 0.0 {
      assert false;
    }
  }

  /** Inside the cycle each passing day strictly increases the elapsed fraction. */
  lemma TimeProgressIncreases(start: int, end: int, d1: int, d2: int)
    requires start <= d1 < d2 <= end
    ensures TimeProgress(start, end, d1) < TimeProgress(start, end, d2)
  {
    var n := TotalDays(start, end) as real;
    var a, b := (d1 - start + 1) as real, (d2 - start + 1) as real;
    assert (b / n) - (a / n) == (b - a) / n;
    StrictFraction(b - a, b - a + n);
    assert 0.0 < (b - a) / n by {
      var q := (b - a) / n;
      assert q * n == b - a;
    }
  }

  /** On its first day a cycle counts as having the remaining days plus today. */
  lemma TotalDaysFromStart(start: int, end: int)
    requires start <= end
    ensures TotalDays(start, end) == DaysRemaining(end, start) + 1
  {
  }

  /** Days left until the end date; none once it has passed. */
  function DaysRemaining(end: int, today: int): (r: int)
    ensures r >= 0
    ensures r == 0 <==> today >= end
    ensures today <= end ==> today + r == end
  {
    if today > end then 0 else end - today
  }
}
