/**
  The classification rules shared by the two frontend scripts and the backend
  generator: the safe band [2.0, 8.0], the alert rule, the synthesised
  fallback reading, the three-way chart point colour and the three-way
  status severity. Temperatures are reals; f32 and JavaScript number
  rounding are not modelled.
 */
module Temperature {

  const MinSafeTemp: real := 2.0
  const MaxSafeTemp: real := 8.0

  /** The generator's alert rule: strictly below 2.0 or strictly above 8.0; the bounds are safe. */
  predicate IsAlertTemp(t: real)
  {
    t < MinSafeTemp || t > MaxSafeTemp
  }

  /** A value `Math.random()` can return. */
  predicate InUnit(r: real)
  {
    0.0 <= r < 1.0
  }

  /**
    `generateTemperature(isAlert)`. `r1` and `r2` are the first and second
    `Math.random()` draws, in call order: the alert branch tests the first and
    scales the second, the safe branch scales the first.
   */
  function GenerateTemperature(isAlert: bool, r1: real, r2: real): (t: real)
    ensures InUnit(r1) && !isAlert ==> MinSafeTemp <= t < MaxSafeTemp && !IsAlertTemp(t)
    ensures InUnit(r2) && isAlert && r1 > 0.5 ==> 0.0 <= t < MinSafeTemp && IsAlertTemp(t)
    ensures InUnit(r2) && isAlert && r1 <= 0.5 ==> MaxSafeTemp <= t < MaxSafeTemp + 4.0
    // the upper sub-range is closed at 8.0: that one value is not an alert
    ensures InUnit(r2) && isAlert ==> (IsAlertTemp(t) <==> t != MaxSafeTemp)
    ensures isAlert && r1 <= 0.5 ==> (t == MaxSafeTemp <==> r2 == 0.0)
  {
    if isAlert then
      if r1 > 0.5 then r2 * MinSafeTemp else MaxSafeTemp + r2 * 4.0
    else
      MinSafeTemp + r1 * (MaxSafeTemp - MinSafeTemp)
  }

  // ---------------------------------------------------------------------------
  // Chart point colour (frontend/script_old.js, updateChart)
  // ---------------------------------------------------------------------------

  datatype PointColour = Blue | Green | Red

  /** Blue on either bound, green strictly inside the band, red otherwise. */
  function PointColourOf(t: real): (c: PointColour)
    ensures c == Blue <==> (t == MinSafeTemp || t == MaxSafeTemp)
    ensures c == Green <==> MinSafeTemp < t < MaxSafeTemp
    // the colour agrees with the backend alert rule: red exactly for alerts
    ensures c == Red <==> IsAlertTemp(t)
  {
    if t == MinSafeTemp || t == MaxSafeTemp then Blue
    else if t > MinSafeTemp && t < MaxSafeTemp then Green
    else Red
  }

  // ---------------------------------------------------------------------------
  // Status severity (updateStatus in both scripts)
  // ---------------------------------------------------------------------------

  datatype Severity = Success | Warning | Danger

  /**
    The decision of `updateStatus`: no alert is success; otherwise an alert
    ratio `alertCount / totalCount` below 0.25 is a warning, anything else is
    danger. `alertCount` counts a filter of the same records, so it never
    exceeds `total`.
   */
  function StatusSeverity(alertCount: nat, total: nat): (s: Severity)
    requires alertCount <= total
    ensures s == Success <==> alertCount == 0
    ensures s == Warning <==> 0 < alertCount && 4 * alertCount < total
    ensures s == Danger <==> 0 < alertCount && total <= 4 * alertCount
    // an empty record set is a success, so the division by zero is never reached
    ensures total == 0 ==> s == Success
  {
    if alertCount == 0 then Success
    else
      RatioBelowQuarter(alertCount, total);
      if (alertCount as real) / (total as real) < 0.25 then Warning else Danger
  }

  /** The real ratio test `a / t < 0.25` is the integer test `4 * a < t`. */
  lemma RatioBelowQuarter(a: nat, t: nat)
    requires 0 < t
    ensures (a as real) / (t as real) < 0.25 <==> 4 * a < t
  {
    var x, y := a as real, t as real;
    var q := x / y;
    assert q * y == x;
    ScaleByPositive(q, 0.25, y);
  }

  /** Multiplying by a positive factor keeps a strict order, in both directions. */
  lemma ScaleByPositive(u: real, v: real, w: real)
    requires w > 0.0
    ensures u < v <==> u * w < v * w
  {
    if u < v {
      assert (v - u) * w > 0.0;
      assert (v - u) * w == v * w - u * w;
    } else {
      assert (u - v) * w >= 0.0;
      assert (u - v) * w == u * w - v * w;
    }
  }
}
