/** Fitting prices to the tick and quantities to the step of an instrument. */
module Precision {
  import opened Wrappers
  import opened Numbers
  import opened Money

  datatype PrecisionError = NotPositive

  // ---------------------------------------------------------------- the unit of a tick

  /** A decimal without trailing zeros in its coefficient. */
  function Normalized(d: Dec): (r: Dec)
    requires d.coef > 0
    ensures r.coef > 0 && r.coef % 10 != 0
    decreases d.coef
  {
    if d.coef % 10 == 0 then Normalized(Dec(d.coef / 10, d.exp + 1)) else d
  }

  lemma {:induction false} NormalizedKeepsValue(d: Dec)
    requires d.coef > 0
    ensures Value(Normalized(d)) == Value(d)
    decreases d.coef
  {
    if d.coef % 10 == 0 {
      NormalizedKeepsValue(Dec(d.coef / 10, d.exp + 1));
      Rescale(d.coef / 10, d.exp + 1, 1);
      assert Shifted(d.coef / 10, 1) == Shifted(d.coef, 0) == d.coef;
    }
  }

  /** The unit of the tick's last digit: what prices are rounded to. */
  function TickUnit(tick: Dec): (unit: real)
    requires tick.coef > 0
    ensures unit > 0.0
  {
    Ten(Normalized(tick).exp)
  }

  // ---------------------------------------------------------------- rounding

  function Times(k: int, unit: real): real {
    k as real * unit
  }

  /** To the nearest integer, ties away from zero. */
  function HalfUp(x: real): int {
    if x >= 0.0 then (x + 0.5).Floor else -((-x + 0.5).Floor)
  }

  /** To the next integer towards zero. */
  function Truncated(x: real): int {
    if x >= 0.0 then x.Floor else -((-x).Floor)
  }

  function RoundToUnit(value: real, unit: real): real
    requires unit > 0.0
  {
    Times(HalfUp(value / unit), unit)
  }

  function RoundTick(value: real, tick: Dec): Result<real, PrecisionError> {
    if tick.coef <= 0 then Err(NotPositive) else Ok(RoundToUnit(value, TickUnit(tick)))
  }

  function FloorToStep(value: real, step: real): Result<real, PrecisionError> {
    if step <= 0.0 then Err(NotPositive) else Ok(Times(Truncated(value / step), step))
  }

  ghost predicate MultipleOf(value: real, unit: real) {
    exists k :: value == Times(k, unit)
  }

  lemma {:induction false} QuotientOfMultiple(k: int, unit: real)
    requires unit > 0.0
    ensures Times(k, unit) / unit == k as real
  {
  }

  lemma {:induction false} IntegersStay(k: int)
    ensures HalfUp(k as real) == k && Truncated(k as real) == k
  {
    assert (k as real).Floor == k && (-(k as real)).Floor == -k;
    assert (k as real + 0.5).Floor == k && (-(k as real) + 0.5).Floor == -k;
  }

  /** A price survives `round_tick` exactly when it is on the grid of the tick's last digit. */
  lemma {:induction false} RoundTickKeepsIff(value: real, tick: Dec)
    requires tick.coef > 0
    ensures RoundTick(value, tick) == Ok(value) <==> MultipleOf(value, TickUnit(tick))
  {
    var unit := TickUnit(tick);
    if k :| value == Times(k, unit) {
      QuotientOfMultiple(k, unit);
      IntegersStay(k);
    } else {
      assert RoundToUnit(value, unit) == Times(HalfUp(value / unit), unit);
    }
  }

  /** A quantity survives `floor_to_step` exactly when it is a whole number of steps. */
  lemma {:induction false} FloorToStepKeepsIff(value: real, step: real)
    requires step > 0.0
    ensures FloorToStep(value, step) == Ok(value) <==> MultipleOf(value, step)
  {
    if k :| value == Times(k, step) {
      QuotientOfMultiple(k, step);
      IntegersStay(k);
    } else {
      assert FloorToStep(value, step) == Ok(Times(Truncated(value / step), step));
    }
  }

  // ---------------------------------------------------------------- the grid of the tick itself

  lemma {:induction false} TickIsManyUnits(tick: Dec)
    requires tick.coef > 0
    ensures Value(tick) == Times(Normalized(tick).coef, TickUnit(tick))
  {
    NormalizedKeepsValue(tick);
  }

  lemma {:induction false} TimesTimes(k: int, c: int, unit: real)
    ensures Times(k, Times(c, unit)) == Times(k * c, unit)
  {
  }

  lemma {:induction false} TimesInjective(a: int, b: int, unit: real)
    requires unit > 0.0 && Times(a, unit) == Times(b, unit)
    ensures a == b
  {
    Cancel(a as real, b as real, unit);
  }

  /** Every multiple of the tick survives. */
  lemma {:induction false} TickMultiplesSurvive(value: real, tick: Dec)
    requires tick.coef > 0 && MultipleOf(value, Value(tick))
    ensures RoundTick(value, tick) == Ok(value)
  {
    var k :| value == Times(k, Value(tick));
    TickIsManyUnits(tick);
    TimesTimes(k, Normalized(tick).coef, TickUnit(tick));
    RoundTickKeepsIff(value, tick);
  }

  ghost predicate RoundsToTheTick(tick: Dec) {
    forall value :: RoundTick(value, tick) == Ok(value) ==> MultipleOf(value, Value(tick))
  }

  lemma {:induction false} UnitIsNoMultiple(unit: real, c: int)
    requires unit > 0.0 && c > 1
    ensures !MultipleOf(unit, Times(c, unit))
  {
    if MultipleOf(unit, Times(c, unit)) {
      var k :| unit == Times(k, Times(c, unit));
      TimesTimes(k, c, unit);
      TimesInjective(k * c, 1, unit);
      NoInverse(k, c);
    }
  }

  lemma {:induction false} NoInverse(k: int, c: int)
    requires c > 1
    ensures k * c != 1
  {
    if k >= 1 {
      assert k * c >= c;
    } else {
      assert k * c <= 0;
    }
  }

  /** What survives is a multiple of the tick itself, for every price, if and only if the tick is a power of ten:
      only the exponent of the tick is used. */
  lemma {:induction false} RoundsToTheTickIff(tick: Dec)
    requires tick.coef > 0
    ensures RoundsToTheTick(tick) <==> Normalized(tick).coef == 1
  {
    var unit, c := TickUnit(tick), Normalized(tick).coef;
    TickIsManyUnits(tick);
    if c == 1 {
      forall value | RoundTick(value, tick) == Ok(value)
        ensures MultipleOf(value, Value(tick))
      {
        RoundTickKeepsIff(value, tick);
      }
    } else {
      assert unit == Times(1, unit);
      RoundTickKeepsIff(unit, tick);
      UnitIsNoMultiple(unit, c);
    }
  }

  // ---------------------------------------------------------------- how far rounding goes

  lemma {:induction false} HalfUpIsNearest(x: real)
    ensures var d := Abs(HalfUp(x) as real - x); d <= 0.5 && (d == 0.5 ==> Abs(HalfUp(x) as real) > Abs(x))
  {
  }

  lemma {:induction false} TruncatedIsBelow(x: real)
    ensures var r := Truncated(x) as real; Abs(r) <= Abs(x) < Abs(r) + 1.0 && (x >= 0.0 ==> r >= 0.0) && (x <= 0.0 ==> r <= 0.0)
  {
  }

  lemma {:induction false} ScaledAbs(x: real, unit: real, scaled: real)
    requires unit > 0.0 && scaled == x * unit
    ensures Abs(scaled) == Abs(x) * unit
  {
    if x >= 0.0 {
      assert x * unit >= 0.0;
    } else {
      assert -x * unit > 0.0;
      assert x * unit == -(-x * unit);
    }
  }

  lemma {:induction false} ScaledOrder(a: real, b: real, unit: real, a': real, b': real)
    requires unit > 0.0 && a' == a * unit && b' == b * unit
    ensures (a < b <==> a' < b') && (a == b <==> a' == b')
  {
    if a < b {
      assert (b - a) * unit > 0.0;
    } else {
      assert (a - b) * unit >= 0.0;
      if a > b {
        assert (a - b) * unit > 0.0;
      }
    }
  }

  lemma {:induction false} NearestScales(k: real, x: real, unit: real, r: real, value: real)
    requires unit > 0.0 && r == k * unit && value == x * unit
    requires Abs(k - x) <= 0.5 && (Abs(k - x) == 0.5 ==> Abs(k) > Abs(x))
    ensures 2.0 * Abs(r - value) <= unit && (2.0 * Abs(r - value) == unit ==> Abs(r) > Abs(value))
  {
    hide Abs;
    var d := k - x;
    DifferenceScales(k, x, unit, r, value, d);
    ScaledAbs(d, unit, r - value);
    ScaledAbs(k, unit, r);
    ScaledAbs(x, unit, value);
    ScaledOrder(Abs(x), Abs(k), unit, Abs(value), Abs(r));
    ScaledOrder(0.5, Abs(d), unit, 0.5 * unit, Abs(r - value));
  }

  lemma {:induction false} DifferenceScales(k: real, x: real, unit: real, r: real, value: real, d: real)
    requires r == k * unit && value == x * unit && d == k - x
    ensures r - value == d * unit
  {
  }

  lemma {:induction false} CutScales(k: real, x: real, step: real, r: real, value: real)
    requires step > 0.0 && r == k * step && value == x * step
    requires Abs(k) <= Abs(x) < Abs(k) + 1.0
    ensures Abs(r) <= Abs(value) < Abs(r) + step
  {
    hide Abs;
    ScaledAbs(k, step, r);
    ScaledAbs(x, step, value);
    ScaledOrder(Abs(x), Abs(k), step, Abs(value), Abs(r));
    ScaledOrder(Abs(x), Abs(k) + 1.0, step, Abs(value), Abs(r) + step);
  }

  lemma {:induction false} SignScales(k: real, x: real, step: real, r: real, value: real)
    requires step > 0.0 && r == k * step && value == x * step
    requires (x >= 0.0 ==> k >= 0.0) && (x <= 0.0 ==> k <= 0.0)
    ensures (value >= 0.0 ==> r >= 0.0) && (value <= 0.0 ==> r <= 0.0)
  {
    ScaledOrder(x, 0.0, step, value, 0.0);
    ScaledOrder(k, 0.0, step, r, 0.0);
  }

  lemma {:induction false} QuotientTimes(value: real, unit: real, x: real)
    requires unit > 0.0 && x == value / unit
    ensures value == x * unit
  {
  }

  /** A price is rounded to a nearest multiple of the unit, of two nearest ones to the one farther from zero. */
  lemma {:induction false} RoundTickIsNearest(value: real, tick: Dec)
    ensures RoundTick(value, tick).Err? <==> tick.coef <= 0
    ensures tick.coef > 0 ==>
              var r, unit := RoundTick(value, tick).value, TickUnit(tick);
              && MultipleOf(r, unit) && 2.0 * Abs(r - value) <= unit
              && (2.0 * Abs(r - value) == unit ==> Abs(r) > Abs(value))
  {
    hide HalfUp;
    hide TickUnit;
    hide Abs;
    if tick.coef > 0 {
      var unit := TickUnit(tick);
      var x := value / unit;
      var r := Times(HalfUp(x), unit);
      HalfUpIsNearest(x);
      QuotientTimes(value, unit, x);
      NearestScales(HalfUp(x) as real, x, unit, r, value);
    }
  }

  /** A quantity is cut to the last whole number of steps on its way from zero. */
  lemma {:induction false} FloorToStepCuts(value: real, step: real)
    ensures FloorToStep(value, step).Err? <==> step <= 0.0
    ensures step > 0.0 ==>
              var r := FloorToStep(value, step).value;
              && MultipleOf(r, step) && Abs(r) <= Abs(value) < Abs(r) + step
              && (value >= 0.0 ==> r >= 0.0) && (value <= 0.0 ==> r <= 0.0)
  {
    hide Truncated;
    hide Abs;
    if step > 0.0 {
      var x := value / step;
      var r := Times(Truncated(x), step);
      TruncatedIsBelow(x);
      QuotientTimes(value, step, x);
      CutScales(Truncated(x) as real, x, step, r, value);
      SignScales(Truncated(x) as real, x, step, r, value);
    }
  }
}
