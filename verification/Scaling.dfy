/** Readings in engineering units and back, in exact arithmetic. The encoding depends on the cluster
    and the attribute alone. */
module Scaling {
  import opened Text

  /** A linear encoding carries `factor` times the quantity; illuminance is logarithmic. */
  datatype Encoding = Linear(unit: string, factor: nat, precision: nat) | Logarithmic(unit: string, precision: nat)

  const CLUSTERS: map<nat, Encoding> := map[
    1024 := Logarithmic("lx", 2),
    1026 := Linear("°C", 100, 2),
    1027 := Linear("kPa", 10, 1),
    1028 := Linear("m³/h", 10, 1),
    1029 := Linear("%", 100, 2)]

  const ATTRIBUTE_SCALES: map<(nat, nat), Encoding> := map[
    (47, 11) := Linear("V", 1000, 3),
    (47, 12) := Linear("%", 2, 1)]

  /** MeasuredValue, MinMeasuredValue and MaxMeasuredValue share one encoding; Tolerance does not. */
  function Conversion(cluster: nat, attribute: nat): Option<Encoding> {
    if (cluster, attribute) in ATTRIBUTE_SCALES then Some(ATTRIBUTE_SCALES[(cluster, attribute)])
    else if attribute <= 2 && cluster in CLUSTERS then Some(CLUSTERS[cluster])
    else None
  }

  /** Null, a finite number, or anything else. */
  datatype Value = Unknown | Number(x: real) | Opaque(raw: string)

  datatype Reading = Reading(value: Value, unit: string, scaled: bool)

  /** The logarithmic pair is a parameter: only its place in the control flow is modelled. */
  datatype Curve = Curve(decode: real -> Option<real>, encode: real -> int)

  // ---------- rounding ----------

  /** Math.round: halves go up, also below zero. */
  function JsRound(x: real): int {
    (x + 0.5).Floor
  }

  /** Number.EPSILON, 2 to the power of -52. */
  const EPSILON: real := 1.0 / 4503599627370496.0

  function Pow10(n: nat): (r: nat)
    ensures r >= 1
  {
    if n == 0 then 1 else 10 * Pow10(n - 1)
  }

  /** The whole number of units, each one `unit`-th, nearest to `v`. */
  function Units(v: real, unit: nat): int {
    JsRound(v * unit as real)
  }

  function Fraction(n: int, unit: nat): real
    requires unit > 0
  {
    n as real / unit as real
  }

  function RoundTo(v: real, digits: int): real {
    if digits < 0 then v
    else Fraction(Units(v + EPSILON, Pow10(digits)), Pow10(digits))
  }

  function UnitOf(cluster: nat, def: Option<Encoding>): string {
    if def.Some? then def.value.unit else if cluster in CLUSTERS then CLUSTERS[cluster].unit else ""
  }

  function Decoded(def: Encoding, curve: Curve, raw: real): Option<real> {
    if def.Logarithmic? then curve.decode(raw)
    else if def.factor == 0 then None
    else Some(raw / def.factor as real)
  }

  function Scale(curve: Curve, cluster: nat, attribute: nat, raw: Value, precision: Option<int>): Reading {
    var def := Conversion(cluster, attribute);
    var unit := UnitOf(cluster, def);
    if !raw.Number? || def.None? then Reading(raw, unit, false)
    else
      var v := Decoded(def.value, curve, raw.x);
      if v.None? then Reading(Unknown, unit, true)
      else Reading(Number(RoundTo(v.value, if precision.Some? then precision.value else def.value.precision)), unit, true)
  }

  function Unscale(curve: Curve, cluster: nat, attribute: nat, value: Value): (Value, bool) {
    var def := Conversion(cluster, attribute);
    if !value.Number? || def.None? then (value, false)
    else if def.value.Logarithmic? then (Number(curve.encode(value.x) as real), true)
    else (Number(Units(value.x, def.value.factor) as real), true)
  }

  // ---------- arithmetic ----------

  lemma Distribute(a: real, b: real, c: real)
    ensures (a + b) * c == a * c + b * c
  {
  }

  lemma Cancel(a: real, c: real)
    requires c != 0.0
    ensures (a / c) * c == a
  {
  }

  lemma SameMultiple(a: real, b: real, c: real)
    requires c > 0.0 && a * c == b * c
    ensures a == b
  {
  }

  lemma Divided(a: real, b: real, c: real)
    requires c > 0.0 && a <= b
    ensures a / c <= b / c
  {
  }

  lemma RoundNear(x: real)
    ensures x - 0.5 < JsRound(x) as real <= x + 0.5
  {
  }

  lemma RoundAbove(k: int, d: real)
    requires 0.0 <= d < 0.5
    ensures JsRound(k as real + d) == k
  {
  }

  lemma RoundMonotone(x: real, y: real)
    requires x <= y
    ensures JsRound(x) <= JsRound(y)
  {
  }

  lemma FractionTimes(n: int, unit: nat)
    requires unit > 0
    ensures Fraction(n, unit) * unit as real == n as real
  {
    Cancel(n as real, unit as real);
  }

  lemma {:induction false} Pow10Grows(m: nat, n: nat)
    requires m <= n
    ensures Pow10(n) >= Pow10(m)
  {
    if m == n {
    } else {
      Pow10Grows(m, n - 1);
    }
  }

  lemma Pow10Values()
    ensures Pow10(0) == 1 && Pow10(1) == 10 && Pow10(2) == 100 && Pow10(3) == 1000
    ensures Pow10(15) == 1000000000000000 && Pow10(16) == 10000000000000000
  {
    assert Pow10(4) == 10000 && Pow10(5) == 100000 && Pow10(6) == 1000000 && Pow10(7) == 10000000;
    assert Pow10(8) == 100000000 && Pow10(9) == 1000000000 && Pow10(10) == 10000000000;
    assert Pow10(11) == 100000000000 && Pow10(12) == 1000000000000 && Pow10(13) == 10000000000000;
    assert Pow10(14) == 100000000000000;
  }

  lemma EpsilonBelow(big: real)
    requires 0.0 <= big <= 1000000000000000.0
    ensures 0.0 <= EPSILON * big < 0.5
  {
  }

  lemma EpsilonAbove(big: real)
    requires big >= 10000000000000000.0
    ensures 1.0 <= EPSILON * big <= big / 4000000000000000.0 - 0.2
  {
  }

  predicate IsFactor(f: nat) {
    f == 2 || f == 10 || f == 100 || f == 1000
  }

  /** At a precision fine enough for the encoding, one device step is a whole number of last digits. */
  lemma WholeDigits(f: nat, p: nat) returns (q: nat)
    requires IsFactor(f) && Pow10(p) >= f
    ensures q >= 1 && Pow10(p) == q * f
  {
    Pow10Values();
    var e := if f == 1000 then 3 else if f == 100 then 2 else 1;
    if p < e {
      Pow10Grows(p, e - 1);
    }
    Hundreds(p, e);
    q := if f == 2 then 5 * Pow10(p - e) else Pow10(p - e);
  }

  lemma {:induction false} Hundreds(p: nat, e: nat)
    requires 1 <= e <= 3 && e <= p
    ensures Pow10(p) == Pow10(p - e) * (if e == 3 then 1000 else if e == 2 then 100 else 10)
  {
    if e == 1 {
    } else {
      Hundreds(p - 1, e - 1);
    }
  }

  lemma StepsToDigits(v: real, raw: int, f: nat, q: nat)
    requires v * f as real == raw as real
    ensures v * (q * f) as real == (raw * q) as real
  {
    assert (q * f) as real == q as real * f as real;
    assert v * (q as real * f as real) == (v * f as real) * q as real;
    assert (raw * q) as real == raw as real * q as real;
  }

  /** How far the rounded value is above the exact one, in units of the last digit. */
  function Slip(p: nat): int {
    Units(EPSILON, Pow10(p))
  }

  lemma RoundShifted(k: int, x: real)
    ensures JsRound(k as real + x) == k + JsRound(x)
  {
  }

  lemma SlipZero(p: nat)
    ensures Slip(p) >= 0 && (Slip(p) == 0 <==> p <= 15)
  {
    Pow10Values();
    if p <= 15 {
      Pow10Grows(p, 15);
      EpsilonBelow(Pow10(p) as real);
    } else {
      Pow10Grows(16, p);
      EpsilonAbove(Pow10(p) as real);
    }
  }

  lemma StepDigits(raw: int, f: nat, q: nat, unit: nat)
    requires f > 0 && unit == q * f
    ensures (raw as real / f as real) * unit as real == (raw * q) as real
  {
    Cancel(raw as real, f as real);
    StepsToDigits(raw as real / f as real, raw, f, q);
  }

  /** A quantity of `n` whole units, nudged by `e`, rounds to `n` units and what `e` rounds to. */
  lemma NudgedUnits(v: real, e: real, unit: nat, n: int)
    requires v * unit as real == n as real
    ensures Units(v + e, unit) == n + Units(e, unit)
  {
    Distribute(v, e, unit as real);
    RoundShifted(n, e * unit as real);
  }

  lemma StepUnits(raw: int, f: nat, e: real, q: nat, unit: nat)
    requires f > 0 && unit == q * f
    ensures Units(raw as real / f as real + e, unit) == raw * q + Units(e, unit)
  {
    StepDigits(raw, f, q, unit);
    NudgedUnits(raw as real / f as real, e, unit, raw * q);
  }

  lemma ExactFraction(v: real, unit: nat, n: int, slip: int)
    requires unit > 0 && v * unit as real == n as real
    ensures Fraction(n + slip, unit) == v <==> slip == 0
  {
    FractionTimes(n + slip, unit);
    if slip == 0 {
      SameMultiple(Fraction(n + slip, unit), v, unit as real);
    }
  }

  lemma ExactStep(raw: int, f: nat, e: real, q: nat, unit: nat)
    requires f > 0 && unit > 0 && unit == q * f
    ensures Fraction(Units(raw as real / f as real + e, unit), unit) == raw as real / f as real <==> Units(e, unit) == 0
  {
    StepUnits(raw, f, e, q, unit);
    StepDigits(raw, f, q, unit);
    ExactFraction(raw as real / f as real, unit, raw * q, Units(e, unit));
  }

  /** Scaling shows the exact quantity precisely when the precision is at most 15 digits. */
  lemma ExactIff15(raw: int, f: nat, p: nat)
    requires IsFactor(f) && Pow10(p) >= f
    ensures RoundTo(raw as real / f as real, p) == raw as real / f as real <==> p <= 15
  {
    var q := WholeDigits(f, p);
    ExactStep(raw, f, EPSILON, q, Pow10(p));
    SlipZero(p);
  }

  lemma SlipSmall(f: nat, p: nat)
    requires IsFactor(f) && Pow10(p) >= f
    ensures 0 <= Slip(p) && 3.0 * (Slip(p) * f) as real <= Pow10(p) as real
  {
    SlipZero(p);
    if p > 15 {
      Pow10Values();
      Pow10Grows(16, p);
      EpsilonAbove(Pow10(p) as real);
      FewUnits(f, EPSILON, Pow10(p));
    }
  }

  lemma FewUnits(f: nat, e: real, unit: nat)
    requires IsFactor(f) && unit as real >= 10000000000000000.0
    requires 1.0 <= e * unit as real <= unit as real / 4000000000000000.0 - 0.2
    ensures 3.0 * (Units(e, unit) * f) as real <= unit as real
  {
    RoundNear(e * unit as real);
    assert 3000.0 * Units(e, unit) as real <= unit as real;
    if {
      case f == 2 =>
      case f == 10 =>
      case f == 100 =>
      case f == 1000 =>
    }
  }

  /** A number a little above `raw` steps rounds to `raw`. */
  lemma RoundsTo(y: real, raw: int, q: nat, f: nat, slip: int, big: real)
    requires f > 0 && q > 0 && big == (q * f) as real && 0 <= slip && 3.0 * (slip * f) as real <= big
    requires y * big == (raw * q + slip) as real
    ensures Units(y, f) == raw
  {
    var d := y * f as real - raw as real;
    assert big == q as real * f as real && big > 0.0;
    assert (y * big) * f as real == (y * f as real) * big;
    assert (raw * q + slip) as real == raw as real * q as real + slip as real;
    assert (raw as real * q as real + slip as real) * f as real == raw as real * big + slip as real * f as real;
    assert (slip * f) as real == slip as real * f as real;
    Distribute(y * f as real, -(raw as real), big);
    assert d * big == (slip * f) as real;
    SmallQuotient(d, big, (slip * f) as real);
    RoundAbove(raw, d);
  }

  lemma SmallQuotient(d: real, big: real, a: real)
    requires big > 0.0 && d * big == a && 0.0 <= a && 3.0 * a <= big
    ensures 0.0 <= d < 0.5
  {
    Cancel(a, big);
    SameMultiple(d, a / big, big);
    Divided(0.0, a, big);
    Divided(a, big / 3.0, big);
    assert (big / 3.0) / big == 1.0 / 3.0;
  }

  // ---------- what the two directions promise ----------

  lemma LinearFactor(cluster: nat, attribute: nat)
    requires Conversion(cluster, attribute).Some? && Conversion(cluster, attribute).value.Linear?
    ensures var def := Conversion(cluster, attribute).value;
      IsFactor(def.factor) && Pow10(def.precision) >= def.factor && def.precision <= 15
  {
    Pow10Values();
  }

  lemma FractionBack(raw: int, f: nat, q: nat, slip: int, unit: nat)
    requires f > 0 && q > 0 && unit == q * f && unit > 0 && 0 <= slip && 3.0 * (slip * f) as real <= unit as real
    ensures Units(Fraction(raw * q + slip, unit), f) == raw
  {
    FractionTimes(raw * q + slip, unit);
    RoundsTo(Fraction(raw * q + slip, unit), raw, q, f, slip, unit as real);
  }

  lemma StepBack(raw: int, f: nat, q: nat, e: real, unit: nat)
    requires f > 0 && q > 0 && unit == q * f && unit > 0
    requires 0 <= Units(e, unit) && 3.0 * (Units(e, unit) * f) as real <= unit as real
    ensures Units(Fraction(Units(raw as real / f as real + e, unit), unit), f) == raw
  {
    StepUnits(raw, f, e, q, unit);
    FractionBack(raw, f, q, Units(e, unit), unit);
  }

  /** A reading written back gives the raw value it came from, at every precision at which a device
      step is visible. */
  lemma WriteBack(raw: int, f: nat, p: nat)
    requires IsFactor(f) && Pow10(p) >= f
    ensures Units(RoundTo(raw as real / f as real, p), f) == raw
  {
    var q := WholeDigits(f, p);
    SlipSmall(f, p);
    StepBack(raw, f, q, EPSILON, Pow10(p));
  }

  lemma CoarseUnits(f: nat, unit: nat)
    requires IsFactor(f) && (unit == 1 || unit == 10 || unit == 100) && unit < f
    ensures Units(1 as real / f as real + EPSILON, unit) == if f == 2 then 1 else 0
  {
  }

  /** At a coarser precision the smallest raw value is lost. */
  lemma CoarseLoses(f: nat, p: nat)
    requires IsFactor(f) && Pow10(p) < f
    ensures Units(RoundTo(1 as real / f as real, p), f) != 1
  {
    Pow10Values();
    if p >= 3 {
      Pow10Grows(3, p);
    }
    CoarseUnits(f, Pow10(p));
    if f == 2 {
      assert Fraction(1, Pow10(p)) == 1.0;
    } else {
      assert Fraction(0, Pow10(p)) == 0.0;
    }
  }

  predicate RoundTrips(curve: Curve, cluster: nat, attribute: nat, precision: int, raw: int) {
    Unscale(curve, cluster, attribute, Scale(curve, cluster, attribute, Number(raw as real), Some(precision)).value)
      == (Number(raw as real), true)
  }

  predicate BackTo(f: nat, p: int, raw: int)
    requires f > 0
  {
    Units(RoundTo(raw as real / f as real, p), f) == raw
  }

  lemma LinearRoundTrip(curve: Curve, cluster: nat, attribute: nat, p: int, raw: int)
    requires Conversion(cluster, attribute).Some? && Conversion(cluster, attribute).value.Linear?
    ensures IsFactor(Conversion(cluster, attribute).value.factor)
    ensures RoundTrips(curve, cluster, attribute, p, raw) <==> BackTo(Conversion(cluster, attribute).value.factor, p, raw)
  {
    LinearFactor(cluster, attribute);
  }

  lemma BackToAll(f: nat, p: int)
    requires IsFactor(f)
    ensures (forall raw: int :: BackTo(f, p, raw)) <==> p < 0 || Pow10(p) >= f
  {
    if p < 0 || Pow10(p) >= f {
      forall raw: int ensures BackTo(f, p, raw) {
        if p < 0 {
          Cancel(raw as real, f as real);
          RoundAbove(raw, 0.0);
        } else {
          WriteBack(raw, f, p);
        }
      }
    } else {
      CoarseLoses(f, p);
      assert !BackTo(f, p, 1);
    }
  }

  /** `unscale` undoes `scale` on every integer raw value exactly when the precision shows every
      device step, or nothing is rounded at all. */
  lemma UnscaleUndoesScale(curve: Curve, cluster: nat, attribute: nat, precision: int)
    requires Conversion(cluster, attribute).Some? && Conversion(cluster, attribute).value.Linear?
    ensures (forall raw: int :: RoundTrips(curve, cluster, attribute, precision, raw))
      <==> precision < 0 || Pow10(precision) >= Conversion(cluster, attribute).value.factor
  {
    var f := Conversion(cluster, attribute).value.factor;
    LinearRoundTrip(curve, cluster, attribute, precision, 0);
    BackToAll(f, precision);
    forall raw: int ensures RoundTrips(curve, cluster, attribute, precision, raw) <==> BackTo(f, precision, raw) {
      LinearRoundTrip(curve, cluster, attribute, precision, raw);
    }
    if !(precision < 0 || Pow10(precision) >= f) {
      var raw: int :| !BackTo(f, precision, raw);
      assert !RoundTrips(curve, cluster, attribute, precision, raw);
    }
  }

  /** Rounding is off by at most half a last digit and the epsilon. */
  lemma RoundingError(v: real, p: nat)
    ensures var d := (RoundTo(v, p) - v) * Pow10(p) as real;
      EPSILON * Pow10(p) as real - 0.5 < d <= EPSILON * Pow10(p) as real + 0.5
  {
    UnitsNear(v, EPSILON, Pow10(p));
  }

  lemma UnitsNear(v: real, e: real, unit: nat)
    requires unit > 0
    ensures e * unit as real - 0.5 < (Fraction(Units(v + e, unit), unit) - v) * unit as real <= e * unit as real + 0.5
  {
    RoundNear((v + e) * unit as real);
    Distribute(v, e, unit as real);
    FractionTimes(Units(v + e, unit), unit);
    Distribute(Fraction(Units(v + e, unit), unit), -v, unit as real);
  }

  /** Larger raw values never read smaller. */
  lemma ScaleMonotone(a: real, b: real, f: nat, p: int)
    requires f > 0 && a <= b
    ensures RoundTo(a / f as real, p) <= RoundTo(b / f as real, p)
  {
    Divided(a, b, f as real);
    if p >= 0 {
      UnitsMonotone(a / f as real + EPSILON, b / f as real + EPSILON, Pow10(p));
    }
  }

  lemma UnitsGrow(x: real, y: real, unit: nat)
    requires x <= y
    ensures Units(x, unit) <= Units(y, unit)
  {
    assert x * unit as real <= y * unit as real;
    RoundMonotone(x * unit as real, y * unit as real);
  }

  lemma UnitsMonotone(x: real, y: real, unit: nat)
    requires x <= y && unit > 0
    ensures Fraction(Units(x, unit), unit) <= Fraction(Units(y, unit), unit)
  {
    UnitsGrow(x, y, unit);
    Divided(Units(x, unit) as real, Units(y, unit) as real, unit as real);
  }

  predicate HalfStep(x: real, v: real, f: nat) {
    -0.5 <= (x - v) * f as real <= 0.5
  }

  lemma LinearReadBack(curve: Curve, cluster: nat, attribute: nat, v: real)
    requires Conversion(cluster, attribute).Some? && Conversion(cluster, attribute).value.Linear?
    ensures var def := Conversion(cluster, attribute).value;
      def.factor > 0 && Scale(curve, cluster, attribute, Unscale(curve, cluster, attribute, Number(v)).0, None).value
      == Number(RoundTo(Units(v, def.factor) as real / def.factor as real, def.precision))
  {
    LinearFactor(cluster, attribute);
  }

  lemma WithinHalfStep(v: real, f: nat, p: nat)
    requires IsFactor(f) && Pow10(p) >= f && p <= 15
    ensures HalfStep(RoundTo(Units(v, f) as real / f as real, p), v, f)
  {
    ExactIff15(Units(v, f), f, p);
    NearestStep(v, f);
  }

  lemma NearestStep(v: real, f: nat)
    requires f > 0
    ensures HalfStep(Units(v, f) as real / f as real, v, f)
  {
    RoundNear(v * f as real);
    Cancel(Units(v, f) as real, f as real);
    Distribute(Units(v, f) as real / f as real, -v, f as real);
  }

  /** A quantity written and read back at the default precision is within half a device step. */
  lemma ReadBack(curve: Curve, cluster: nat, attribute: nat, v: real)
    requires Conversion(cluster, attribute).Some? && Conversion(cluster, attribute).value.Linear?
    ensures var r := Scale(curve, cluster, attribute, Unscale(curve, cluster, attribute, Number(v)).0, None);
      r.value.Number? && HalfStep(r.value.x, v, Conversion(cluster, attribute).value.factor)
  {
    var def := Conversion(cluster, attribute).value;
    LinearFactor(cluster, attribute);
    LinearReadBack(curve, cluster, attribute, v);
    WithinHalfStep(v, def.factor, def.precision);
  }

  // ---------- what raw values read ----------

  lemma Shows(curve: Curve, cluster: nat, attribute: nat, raw: int, f: nat, p: nat, unit: string)
    requires Conversion(cluster, attribute) == Some(Linear(unit, f, p)) && IsFactor(f) && Pow10(p) >= f && p <= 15
    ensures Scale(curve, cluster, attribute, Number(raw as real), None) == Reading(Number(raw as real / f as real), unit, true)
  {
    ExactIff15(raw, f, p);
  }

  /** One reading for each linear encoding, with its unit. */
  lemma Readings(curve: Curve)
    ensures Scale(curve, 1026, 0, Number(2137.0), None) == Reading(Number(21.37), "°C", true)
    ensures Scale(curve, 1027, 0, Number(1013.0), None) == Reading(Number(101.3), "kPa", true)
    ensures Scale(curve, 1028, 0, Number(25.0), None) == Reading(Number(2.5), "m³/h", true)
    ensures Scale(curve, 1029, 0, Number(4567.0), None) == Reading(Number(45.67), "%", true)
    ensures Scale(curve, 47, 11, Number(3012.0), None) == Reading(Number(3.012), "V", true)
    ensures Scale(curve, 47, 12, Number(145.0), None) == Reading(Number(72.5), "%", true)
  {
    Pow10Values();
    Shows(curve, 1026, 0, 2137, 100, 2, "°C");
    Shows(curve, 1027, 0, 1013, 10, 1, "kPa");
    Shows(curve, 1028, 0, 25, 10, 1, "m³/h");
    Shows(curve, 1029, 0, 4567, 100, 2, "%");
    Shows(curve, 47, 11, 3012, 1000, 3, "V");
    Shows(curve, 47, 12, 145, 2, 1, "%");
  }

  /** And one write. */
  lemma Writings(curve: Curve)
    ensures Unscale(curve, 1026, 0, Number(21.37)) == (Number(2137.0), true)
    ensures Unscale(curve, 1027, 1, Number(101.3)) == (Number(1013.0), true)
    ensures Unscale(curve, 1028, 2, Number(2.5)) == (Number(25.0), true)
    ensures Unscale(curve, 1029, 0, Number(45.67)) == (Number(4567.0), true)
    ensures Unscale(curve, 47, 11, Number(3.012)) == (Number(3012.0), true)
    ensures Unscale(curve, 47, 12, Number(72.5)) == (Number(145.0), true)
  {
  }

  /** The epsilon is two to the power of -52: three factors of 2 to the 16th, and one of 2 to the 4th. */
  lemma EpsilonIs()
    ensures EPSILON * 65536.0 * 65536.0 * 65536.0 * 16.0 == 1.0
  {
  }

  /** Values that are not numbers, attributes without an encoding, and tolerances come through as they are;
      illuminance goes through its curve, and no reading is no number. */
  lemma Untouched(curve: Curve, cluster: nat, attribute: nat, raw: Value, precision: Option<int>)
    ensures !raw.Number? ==> var r := Scale(curve, cluster, attribute, raw, precision); r.value == raw && !r.scaled
    ensures !raw.Number? ==> Unscale(curve, cluster, attribute, raw) == (raw, false)
    ensures cluster !in {47, 1024, 1026, 1027, 1028, 1029} ==>
      Scale(curve, cluster, attribute, raw, precision) == Reading(raw, "", false) && Unscale(curve, cluster, attribute, raw) == (raw, false)
    ensures cluster != 47 && attribute == 3 ==>
      var r := Scale(curve, cluster, 3, raw, precision); r.value == raw && !r.scaled && Unscale(curve, cluster, 3, raw) == (raw, false)
    ensures Scale(curve, 1026, 3, raw, precision) == Reading(raw, "°C", false)
    ensures Scale(curve, 47, 0, raw, precision) == Reading(raw, "", false)
    ensures raw.Number? ==> var r := Scale(curve, 1024, 0, raw, None);
      && r.unit == "lx" && r.scaled
      && r.value == match curve.decode(raw.x) { case None => Unknown case Some(lux) => Number(RoundTo(lux, 2)) }
    ensures raw.Number? ==> Unscale(curve, 1024, 0, raw) == (Number(curve.encode(raw.x) as real), true)
  {
  }
}
