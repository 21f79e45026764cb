/** The calculator's default settings and the budget they produce when the
    ventilation rate computed for the default altitude feeds the gas
    consumption, as the program's driver does. */
module Defaults {
  import Physiology
  import Budget

  /** One field per recognised option. */
  datatype Settings = Settings(
    studentsPerWeek: int,
    weeks: int,
    sessionMinutes: real,
    recoveryMinutes: real,
    altitudeFt: real,
    priceAir: real,
    priceNitrogen: real,
    priceOxygen: real,
    contingency: real)

  const Default: Settings := Settings(20, 26, 20.0, 5.0, 25000.0, 17853.0, 17838.0, 19654.0, 0.10)

  /** At the defaults the ventilation rate is 42.72 L/min, and the budget
      built on it is the one below (exact over the reals). */
  lemma DefaultBudget(power: real -> real)
    requires Physiology.IsBarometricPower(power)
    ensures Physiology.Physiology(Default.altitudeFt, power).Ok?
    ensures
      var s := Default;
      var v := Physiology.Physiology(s.altitudeFt, power).value.ventilationRate;
      var b := Budget.GasConsumption(s.studentsPerWeek, s.weeks, s.sessionMinutes, v,
                                     s.recoveryMinutes, s.priceAir, s.priceNitrogen, s.priceOxygen,
                                     s.contingency);
      && v == 42.72
      && b.weeklyAir == 17.088
      && b.weeklyNitrogen == 0.8544
      && b.weeklyOxygen == 4.272
      && b.totalAir == 444.288
      && b.totalNitrogen == 22.2144
      && b.totalOxygen == 111.072
      && b.costAir == 7931873.664
      && b.costNitrogen == 396260.4672
      && b.costOxygen == 2183009.088
      && b.totalCost == 10511143.2192
      && b.totalCostWithContingency == 11562257.54112
  {
    Physiology.At25000Feet(power);
  }
}
