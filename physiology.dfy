/** Physiological response of an average adult to a simulated altitude:
    barometric pressure, arterial oxygen, saturation, ventilation and
    heart rate, all derived from the altitude in feet. */
module Physiology {

  const SeaLevelPressure: real := 760.0          // mmHg
  const SeaLevelVentilation: real := 6.0         // L/min, resting
  const SeaLevelHeartRate: real := 70.0          // bpm, resting
  const MetresPerFoot: real := 0.3048
  const LapseCoefficient: real := 2.25577e-5     // per metre, in the barometric formula
  const InspiredO2Fraction: real := 0.2095       // FiO2 of dry air
  const WaterVapourPressure: real := 47.0        // mmHg
  const AlveolarArterialGradient: real := 5.0    // mmHg
  const HalfSaturationCube: real := 3375000.0    // 150 ** 3
  const VentilationThreshold: real := 1500.0     // m
  const VentilationCap: real := 60.0             // L/min
  const HeartRateThreshold: real := 1000.0       // m

  /** The altitude at which the base of the barometric power law reaches
      zero (about 44331 m); above it the power of a negative base is not real. */
  const AtmosphereTop: real := 1.0 / LapseCoefficient

  /** The record returned for one altitude. */
  datatype PhysiologicalParameters = PhysiologicalParameters(
    altitudeFt: real,
    altitudeM: real,
    pressureMmHg: real,
    paO2MmHg: real,
    saO2Percent: real,
    ventilationRate: real,   // L/min
    heartRate: real)         // bpm

  /** Why no real-valued record exists for an altitude. */
  datatype PhysiologyError =
    | NonRealPressure   // negative base under a non-integer exponent
    | ZeroDivision      // PaO2 ** 3 + 150 ** 3 == 0 in the saturation formula

  datatype Result<T> = Ok(value: T) | Err(error: PhysiologyError)

  function Max(a: real, b: real): real { if a >= b then a else b }

  function Min(a: real, b: real): real { if a <= b then a else b }

  function Cube(x: real): real { x * x * x }

  /** Feet to metres. */
  function FeetToMetres(altitudeFt: real): (m: real)
    ensures m / MetresPerFoot == altitudeFt
    ensures m >= 0.0 <==> altitudeFt >= 0.0
  {
    altitudeFt * MetresPerFoot
  }

  /** The base 1 - 2.25577e-5 * h of the barometric power law. */
  function BarometricBase(altitudeM: real): (b: real)
    ensures b >= 0.0 <==> altitudeM <= AtmosphereTop
    ensures b <= 1.0 <==> altitudeM >= 0.0
  {
    1.0 - LapseCoefficient * altitudeM
  }

  /** What the model demands of the function b |-> b ** 5.25588 on the
      real line's non-negative half: it maps 1 to 1, it is non-negative
      and it is non-decreasing. */
  ghost predicate IsBarometricPower(power: real -> real) {
    && power(1.0) == 1.0
    && (forall b :: 0.0 <= b ==> 0.0 <= power(b))
    && (forall a, b :: 0.0 <= a <= b ==> power(a) <= power(b))
  }

  /** Barometric pressure at an altitude, in mmHg: the sea-level pressure
      scaled by the power law. For a power with the properties above it
      lies between 0 and 760 mmHg from sea level to the top of the
      atmosphere. */
  function Pressure(altitudeM: real, power: real -> real): (p: real)
    ensures p / SeaLevelPressure == power(BarometricBase(altitudeM))
    ensures IsBarometricPower(power) && 0.0 <= altitudeM <= AtmosphereTop ==>
              0.0 <= p <= SeaLevelPressure
  {
    SeaLevelPressure * power(BarometricBase(altitudeM))
  }

  /** Inspired oxygen partial pressure, after the water-vapour correction:
      never more than the dry oxygen fraction of the pressure, and
      non-negative exactly when the pressure is at least that of water
      vapour. */
  function InspiredO2(pressure: real): (i: real)
    ensures i <= InspiredO2Fraction * pressure
    ensures i >= 0.0 <==> pressure >= WaterVapourPressure
  {
    (pressure - WaterVapourPressure) * InspiredO2Fraction
  }

  /** Arterial oxygen partial pressure: the inspired one less the
      alveolar-arterial gradient. It is non-negative exactly when the
      pressure is at least 47 + 5 / 0.2095 mmHg. */
  function ArterialO2(pressure: real): (p: real)
    ensures p >= 0.0 <==> pressure >= WaterVapourPressure + AlveolarArterialGradient / InspiredO2Fraction
  {
    InspiredO2(pressure) - AlveolarArterialGradient
  }

  /** The cubic sigmoid approximation of the oxygen dissociation curve.
      The precondition excludes exactly the zero denominator; the result
      is the saturation s with s : 100 = PaO2^3 : (PaO2^3 + 150^3). */
  function Saturation(paO2: real): (s: real)
    requires Cube(paO2) + HalfSaturationCube != 0.0
    ensures s * (Cube(paO2) + HalfSaturationCube) == 100.0 * Cube(paO2)
  {
    100.0 * Cube(paO2) / (Cube(paO2) + HalfSaturationCube)
  }

  /** Ventilation rises by 100% of the resting rate per 1000 m above
      1500 m, and is capped at 60 L/min. */
  function Ventilation(altitudeM: real): (v: real)
    ensures SeaLevelVentilation <= v <= VentilationCap
    ensures v == SeaLevelVentilation <==> altitudeM <= VentilationThreshold
    ensures v == VentilationCap <==> altitudeM >= 10500.0
    ensures VentilationThreshold <= altitudeM <= 10500.0 ==>
              v == 6.0 + 6.0 * (altitudeM - VentilationThreshold) / 1000.0
  {
    var altitudeAbove1500 := Max(0.0, altitudeM - VentilationThreshold);
    var increaseFactor := altitudeAbove1500 / 1000.0;
    var rate := SeaLevelVentilation * (1.0 + increaseFactor);
    Min(rate, VentilationCap)
  }

  /** Heart rate rises by 1 bpm per 100 m above 1000 m. */
  function HeartRate(altitudeM: real): (h: real)
    ensures h >= SeaLevelHeartRate
    ensures h == SeaLevelHeartRate <==> altitudeM <= HeartRateThreshold
    ensures altitudeM >= HeartRateThreshold ==> h == 70.0 + (altitudeM - HeartRateThreshold) / 100.0
  {
    var altitudeAbove1000 := Max(0.0, altitudeM - HeartRateThreshold);
    var increase := altitudeAbove1000 / 100.0;
    SeaLevelHeartRate + increase
  }

  /** All physiological parameters at an altitude given in feet; `power`
      stands for b |-> b ** 5.25588. */
  function Physiology(altitudeFt: real, power: real -> real): (r: Result<PhysiologicalParameters>)
    ensures r == Err(NonRealPressure) <==> FeetToMetres(altitudeFt) > AtmosphereTop
    ensures r == Err(ZeroDivision) <==>
              FeetToMetres(altitudeFt) <= AtmosphereTop &&
              Cube(ArterialO2(Pressure(FeetToMetres(altitudeFt), power))) + HalfSaturationCube == 0.0
    ensures r.Ok? ==>
              && r.value.altitudeFt == altitudeFt
              && r.value.altitudeM / MetresPerFoot == altitudeFt
              && SeaLevelVentilation <= r.value.ventilationRate <= VentilationCap
              && r.value.heartRate >= SeaLevelHeartRate
  {
    var altitudeM := FeetToMetres(altitudeFt);
    if BarometricBase(altitudeM) < 0.0 then
      Err(NonRealPressure)
    else
      var pressure := Pressure(altitudeM, power);
      var paO2 := ArterialO2(pressure);
      if Cube(paO2) + HalfSaturationCube == 0.0 then
        Err(ZeroDivision)
      else
        Ok(PhysiologicalParameters(
          altitudeFt, altitudeM, pressure, paO2, Saturation(paO2),
          Ventilation(altitudeM), HeartRate(altitudeM)))
  }

  // ---------------------------------------------------------------------
  // The cube and the saturation curve

  /** The cube is strictly increasing. */
  lemma CubeStrictlyIncreasing(a: real, b: real)
    requires a < b
    ensures Cube(a) < Cube(b)
  {
    var d := b - a;
    assert Cube(b) - Cube(a) == d * (a * a + a * b + b * b);
    assert a * a + a * b + b * b == (a + b / 2.0) * (a + b / 2.0) + 3.0 * (b * b) / 4.0;
    if b == 0.0 {
      assert a < 0.0;
      assert a * a > 0.0;
    } else {
      assert b * b > 0.0;
    }
  }

  /** The cube is non-decreasing. */
  lemma CubeMonotone(a: real, b: real)
    requires a <= b
    ensures Cube(a) <= Cube(b)
  {
    if a < b { CubeStrictlyIncreasing(a, b); }
  }

  /** Above -150 mmHg the saturation formula is defined, and it is
      100 less a positive term. */
  lemma SaturationDefined(paO2: real)
    requires paO2 > -150.0
    ensures Cube(paO2) + HalfSaturationCube > 0.0
    ensures Saturation(paO2) == 100.0 - 100.0 * HalfSaturationCube / (Cube(paO2) + HalfSaturationCube)
  {
  }

  /** The saturation lies in [0, 100) for a non-negative PaO2, and stays
      below 100 for every PaO2 above -150. */
  lemma SaturationBounds(paO2: real)
    requires paO2 > -150.0
    ensures Saturation(paO2) < 100.0
    ensures Saturation(paO2) >= 0.0 <==> paO2 >= 0.0
  {
    SaturationDefined(paO2);
    var d := Cube(paO2) + HalfSaturationCube;
    assert 100.0 * HalfSaturationCube / d > 0.0;
    if paO2 >= 0.0 {
      CubeMonotone(0.0, paO2);
      assert 100.0 * Cube(paO2) / d >= 0.0;
    } else {
      CubeStrictlyIncreasing(paO2, 0.0);
      QuotientBelow(100.0 * Cube(paO2), d, 0.0);
    }
  }

  /** The saturation is non-decreasing in PaO2 where it is defined by
      a positive denominator. */
  lemma SaturationMonotone(a: real, b: real)
    requires -150.0 < a <= b
    ensures Saturation(a) <= Saturation(b)
  {
    SaturationDefined(a);
    SaturationDefined(b);
    CubeMonotone(a, b);
    var da := Cube(a) + HalfSaturationCube;
    var db := Cube(b) + HalfSaturationCube;
    assert 0.0 < da <= db;
    DivisionAntitone(100.0 * HalfSaturationCube, da, db);
  }

  /** A positive numerator over a larger positive denominator is smaller. */
  lemma DivisionAntitone(n: real, x: real, y: real)
    requires n >= 0.0 && 0.0 < x <= y
    ensures n / y <= n / x
  {
  }

  /** A quotient by a positive denominator stays below c when the
      numerator is below c times the denominator. */
  lemma QuotientBelow(n: real, d: real, c: real)
    requires d > 0.0 && n < c * d
    ensures n / d < c
  {
  }

  /** PaO2 = 150 is the half-saturation point: the saturation is at least
      50% exactly when PaO2 is at least 150 mmHg. */
  lemma HalfSaturation(paO2: real)
    requires paO2 > -150.0
    ensures Saturation(150.0) == 50.0
    ensures Saturation(paO2) >= 50.0 <==> paO2 >= 150.0
  {
    SaturationDefined(paO2);
    assert Cube(150.0) == HalfSaturationCube;
    var d := Cube(paO2) + HalfSaturationCube;
    if paO2 >= 150.0 {
      SaturationMonotone(150.0, paO2);
    } else {
      CubeStrictlyIncreasing(paO2, 150.0);
      assert 100.0 * Cube(paO2) < 50.0 * d;
      QuotientBelow(100.0 * Cube(paO2), d, 50.0);
    }
  }

  // ---------------------------------------------------------------------
  // Pressure and arterial oxygen

  /** The arterial oxygen partial pressure is strictly increasing in the
      barometric pressure. */
  lemma ArterialO2Increasing(p: real, q: real)
    requires p < q
    ensures ArterialO2(p) < ArterialO2(q)
  {
  }

  /** At sea level the pressure is 760 mmHg. */
  lemma SeaLevelPressureIs760(power: real -> real)
    requires IsBarometricPower(power)
    ensures Pressure(0.0, power) == SeaLevelPressure
  {
  }

  /** Within the atmosphere the pressure is non-negative, at most 760 mmHg
      at or above sea level, and non-increasing with altitude. */
  lemma PressureFalls(lower: real, upper: real, power: real -> real)
    requires IsBarometricPower(power)
    requires lower <= upper <= AtmosphereTop
    ensures 0.0 <= Pressure(upper, power) <= Pressure(lower, power)
    ensures lower >= 0.0 ==> Pressure(lower, power) <= SeaLevelPressure
  {
  }

  // ---------------------------------------------------------------------
  // Ventilation and heart rate

  /** The ventilation rate is non-decreasing in altitude. */
  lemma VentilationMonotone(lower: real, upper: real)
    requires lower <= upper
    ensures Ventilation(lower) <= Ventilation(upper)
  {
  }

  /** The heart rate is non-decreasing in altitude, and strictly
      increasing above 1000 m. */
  lemma HeartRateMonotone(lower: real, upper: real)
    requires lower <= upper
    ensures HeartRate(lower) <= HeartRate(upper)
    ensures HeartRateThreshold < upper && lower < upper ==> HeartRate(lower) < HeartRate(upper)
  {
  }

  // ---------------------------------------------------------------------
  // The whole record

  /** Below the top of the atmosphere every altitude has a real record:
      the pressure is non-negative, so PaO2 stays above -150 mmHg and the
      saturation is below 100%. */
  lemma PhysiologyDefined(altitudeFt: real, power: real -> real)
    requires IsBarometricPower(power)
    requires FeetToMetres(altitudeFt) <= AtmosphereTop
    ensures Physiology(altitudeFt, power).Ok?
    ensures Physiology(altitudeFt, power).value.pressureMmHg >= 0.0
    ensures Physiology(altitudeFt, power).value.paO2MmHg > -150.0
    ensures Physiology(altitudeFt, power).value.saO2Percent < 100.0
    ensures altitudeFt >= 0.0 ==> Physiology(altitudeFt, power).value.pressureMmHg <= SeaLevelPressure
  {
    var m := FeetToMetres(altitudeFt);
    PressureFalls(m, m, power);
    var paO2 := ArterialO2(Pressure(m, power));
    assert paO2 > -150.0;
    SaturationDefined(paO2);
    SaturationBounds(paO2);
  }

  /** Climbing never raises pressure, PaO2 or saturation and never lowers
      ventilation or heart rate. */
  lemma PhysiologyMonotone(lowerFt: real, upperFt: real, power: real -> real)
    requires IsBarometricPower(power)
    requires lowerFt <= upperFt
    requires FeetToMetres(upperFt) <= AtmosphereTop
    ensures Physiology(lowerFt, power).Ok? && Physiology(upperFt, power).Ok?
    ensures
      var lo, hi := Physiology(lowerFt, power).value, Physiology(upperFt, power).value;
      && hi.pressureMmHg <= lo.pressureMmHg
      && hi.paO2MmHg <= lo.paO2MmHg
      && hi.saO2Percent <= lo.saO2Percent
      && lo.ventilationRate <= hi.ventilationRate
      && lo.heartRate <= hi.heartRate
  {
    var ml, mu := FeetToMetres(lowerFt), FeetToMetres(upperFt);
    PhysiologyDefined(lowerFt, power);
    PhysiologyDefined(upperFt, power);
    PressureFalls(ml, mu, power);
    var pl, pu := ArterialO2(Pressure(ml, power)), ArterialO2(Pressure(mu, power));
    assert pu <= pl;
    SaturationMonotone(pu, pl);
    VentilationMonotone(ml, mu);
    HeartRateMonotone(ml, mu);
  }

  /** At sea level: 0 m, 760 mmHg, an SaO2 between 47% and 48%, resting
      ventilation and heart rate. */
  lemma SeaLevelRecord(power: real -> real)
    requires IsBarometricPower(power)
    ensures Physiology(0.0, power).Ok?
    ensures
      var r := Physiology(0.0, power).value;
      && r.altitudeM == 0.0
      && r.pressureMmHg == SeaLevelPressure
      && r.paO2MmHg == 144.3735
      && r.saO2Percent == Saturation(144.3735)
      && 47.0 < r.saO2Percent < 48.0
      && r.ventilationRate == SeaLevelVentilation
      && r.heartRate == SeaLevelHeartRate
  {
  }

  /** At 25000 ft: 7620 m, 42.72 L/min (below the 60 L/min cap) and 136.2 bpm. */
  lemma At25000Feet(power: real -> real)
    requires IsBarometricPower(power)
    ensures Physiology(25000.0, power).Ok?
    ensures
      var r := Physiology(25000.0, power).value;
      && r.altitudeM == 7620.0
      && r.ventilationRate == 42.72
      && r.ventilationRate < VentilationCap
      && r.heartRate == 136.2
  {
    PhysiologyDefined(25000.0, power);
  }
}
