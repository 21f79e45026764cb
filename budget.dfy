/** Gas consumption and cost of a normobaric hypoxia training programme:
    compressed air during each session, extra nitrogen to lower the
    oxygen fraction, and pure oxygen during recovery. */
module Budget {

  /** The eleven figures of the budget: volumes in cubic metres, costs in
      the currency of the prices. */
  datatype GasBudget = GasBudget(
    weeklyAir: real,
    weeklyNitrogen: real,
    weeklyOxygen: real,
    totalAir: real,
    totalNitrogen: real,
    totalOxygen: real,
    costAir: real,
    costNitrogen: real,
    costOxygen: real,
    totalCost: real,
    totalCostWithContingency: real)

  /** The budget of a programme of `weeks` weeks with `sessionsPerWeek`
      sessions a week (one per student), for a ventilation rate in L/min;
      prices are per cubic metre and `contingency` is a fraction, 10% when
      the caller leaves it out. */
  function GasConsumption(
    sessionsPerWeek: int, weeks: int, sessionMinutes: real, ventilationRate: real,
    recoveryMinutes: real, priceAir: real, priceNitrogen: real, priceOxygen: real,
    contingency: real := 0.10): (b: GasBudget)
    ensures b.weeklyNitrogen == 0.05 * b.weeklyAir
    ensures b.totalNitrogen == 0.05 * b.totalAir
  {
    // litres to cubic metres
    var airPerSession := ventilationRate * sessionMinutes / 1000.0;
    // nitrogen added to the air: 5% of its volume
    var nitrogenPerSession := airPerSession * 0.05;
    // pure oxygen during the recovery phase
    var oxygenPerSession := ventilationRate * recoveryMinutes / 1000.0;

    var weeklyAir := airPerSession * sessionsPerWeek as real;
    var weeklyNitrogen := nitrogenPerSession * sessionsPerWeek as real;
    var weeklyOxygen := oxygenPerSession * sessionsPerWeek as real;

    var totalAir := weeklyAir * weeks as real;
    var totalNitrogen := weeklyNitrogen * weeks as real;
    var totalOxygen := weeklyOxygen * weeks as real;

    var costAir := totalAir * priceAir;
    var costNitrogen := totalNitrogen * priceNitrogen;
    var costOxygen := totalOxygen * priceOxygen;

    var totalCost := costAir + costNitrogen + costOxygen;
    GasBudget(weeklyAir, weeklyNitrogen, weeklyOxygen,
              totalAir, totalNitrogen, totalOxygen,
              costAir, costNitrogen, costOxygen,
              totalCost, totalCost * (1.0 + contingency))
  }

  // ---------------------------------------------------------------------
  // A distribution step used below

  lemma Distribute(x: real, a: real, b: real)
    ensures x * (a + b) == x * a + x * b
  {
  }

  // ---------------------------------------------------------------------
  // A closed form of the budget

  /** Every figure in terms of the inputs alone. With k = ventilation x
      sessions x weeks / 1000: total air is k x session minutes, total
      oxygen is k x recovery minutes, each cost is a total volume times its
      unit price, and the total cost is k times the cost of one litre per
      minute of each gas over the session and the recovery. */
  lemma ClosedForm(
    sessionsPerWeek: int, weeks: int, sessionMinutes: real, ventilationRate: real,
    recoveryMinutes: real, priceAir: real, priceNitrogen: real, priceOxygen: real,
    contingency: real)
    ensures
      var b := GasConsumption(sessionsPerWeek, weeks, sessionMinutes, ventilationRate,
                              recoveryMinutes, priceAir, priceNitrogen, priceOxygen, contingency);
      var s, w := sessionsPerWeek as real, weeks as real;
      var k := ventilationRate * s * w / 1000.0;
      && b.weeklyAir == ventilationRate * sessionMinutes * s / 1000.0
      && b.weeklyOxygen == ventilationRate * recoveryMinutes * s / 1000.0
      && b.weeklyNitrogen == 0.05 * ventilationRate * sessionMinutes * s / 1000.0
      && b.totalAir == b.weeklyAir * w
      && b.totalNitrogen == b.weeklyNitrogen * w
      && b.totalOxygen == b.weeklyOxygen * w
      && b.totalAir == k * sessionMinutes
      && b.totalOxygen == k * recoveryMinutes
      && b.costAir == b.totalAir * priceAir
      && b.costNitrogen == b.totalNitrogen * priceNitrogen
      && b.costOxygen == b.totalOxygen * priceOxygen
      && b.totalCost == b.costAir + b.costNitrogen + b.costOxygen
      && b.totalCost == k * (sessionMinutes * (priceAir + 0.05 * priceNitrogen)
                             + recoveryMinutes * priceOxygen)
  {
  }

  // ---------------------------------------------------------------------
  // Weeks

  /** The weekly figures do not depend on the length of the programme. */
  lemma WeeklyIndependentOfWeeks(
    sessionsPerWeek: int, weeks1: int, weeks2: int, sessionMinutes: real, ventilationRate: real,
    recoveryMinutes: real, priceAir: real, priceNitrogen: real, priceOxygen: real,
    contingency: real)
    ensures
      var b1 := GasConsumption(sessionsPerWeek, weeks1, sessionMinutes, ventilationRate,
                               recoveryMinutes, priceAir, priceNitrogen, priceOxygen, contingency);
      var b2 := GasConsumption(sessionsPerWeek, weeks2, sessionMinutes, ventilationRate,
                               recoveryMinutes, priceAir, priceNitrogen, priceOxygen, contingency);
      && b1.weeklyAir == b2.weeklyAir
      && b1.weeklyNitrogen == b2.weeklyNitrogen
      && b1.weeklyOxygen == b2.weeklyOxygen
  {
  }

  /** A programme of w1 + w2 weeks uses and costs what one of w1 weeks and
      one of w2 weeks use and cost together, week by week alike. */
  lemma WeeksAdditive(
    sessionsPerWeek: int, w1: int, w2: int, sessionMinutes: real, ventilationRate: real,
    recoveryMinutes: real, priceAir: real, priceNitrogen: real, priceOxygen: real,
    contingency: real)
    ensures
      var b1 := GasConsumption(sessionsPerWeek, w1, sessionMinutes, ventilationRate,
                               recoveryMinutes, priceAir, priceNitrogen, priceOxygen, contingency);
      var b2 := GasConsumption(sessionsPerWeek, w2, sessionMinutes, ventilationRate,
                               recoveryMinutes, priceAir, priceNitrogen, priceOxygen, contingency);
      var c := GasConsumption(sessionsPerWeek, w1 + w2, sessionMinutes, ventilationRate,
                              recoveryMinutes, priceAir, priceNitrogen, priceOxygen, contingency);
      && c.weeklyAir == b1.weeklyAir
      && c.weeklyNitrogen == b1.weeklyNitrogen
      && c.weeklyOxygen == b1.weeklyOxygen
      && c.totalAir == b1.totalAir + b2.totalAir
      && c.totalNitrogen == b1.totalNitrogen + b2.totalNitrogen
      && c.totalOxygen == b1.totalOxygen + b2.totalOxygen
      && c.costAir == b1.costAir + b2.costAir
      && c.costNitrogen == b1.costNitrogen + b2.costNitrogen
      && c.costOxygen == b1.costOxygen + b2.costOxygen
      && c.totalCost == b1.totalCost + b2.totalCost
      && c.totalCostWithContingency == b1.totalCostWithContingency + b2.totalCostWithContingency
  {
    var b1 := GasConsumption(sessionsPerWeek, w1, sessionMinutes, ventilationRate,
                             recoveryMinutes, priceAir, priceNitrogen, priceOxygen, contingency);
    var b2 := GasConsumption(sessionsPerWeek, w2, sessionMinutes, ventilationRate,
                             recoveryMinutes, priceAir, priceNitrogen, priceOxygen, contingency);
    var x, y := w1 as real, w2 as real;
    assert (w1 + w2) as real == x + y;
    Distribute(b1.weeklyAir, x, y);
    Distribute(b1.weeklyNitrogen, x, y);
    Distribute(b1.weeklyOxygen, x, y);
    Distribute(priceAir, b1.totalAir, b2.totalAir);
    Distribute(priceNitrogen, b1.totalNitrogen, b2.totalNitrogen);
    Distribute(priceOxygen, b1.totalOxygen, b2.totalOxygen);
    var c := GasConsumption(sessionsPerWeek, w1 + w2, sessionMinutes, ventilationRate,
                            recoveryMinutes, priceAir, priceNitrogen, priceOxygen, contingency);
    assert c.totalAir == b1.totalAir + b2.totalAir;
    assert c.totalNitrogen == b1.totalNitrogen + b2.totalNitrogen;
    assert c.totalOxygen == b1.totalOxygen + b2.totalOxygen;
    assert c.costAir == b1.costAir + b2.costAir;
    assert c.costNitrogen == b1.costNitrogen + b2.costNitrogen;
    assert c.costOxygen == b1.costOxygen + b2.costOxygen;
    assert c.weeklyAir == b1.weeklyAir == b2.weeklyAir;
    assert c.weeklyNitrogen == b1.weeklyNitrogen == b2.weeklyNitrogen;
    assert c.weeklyOxygen == b1.weeklyOxygen == b2.weeklyOxygen;
    assert c.totalCost == b1.totalCost + b2.totalCost;
    Distribute(1.0 + contingency, b1.totalCost, b2.totalCost);
    assert c.totalCost * (1.0 + contingency) == (1.0 + contingency) * (b1.totalCost + b2.totalCost);
    assert c.totalCostWithContingency == b1.totalCostWithContingency + b2.totalCostWithContingency;
  }

  /** Doubling the weeks doubles every total volume and cost and leaves
      the weekly figures as they are. */
  lemma DoubleWeeks(
    sessionsPerWeek: int, weeks: int, sessionMinutes: real, ventilationRate: real,
    recoveryMinutes: real, priceAir: real, priceNitrogen: real, priceOxygen: real,
    contingency: real)
    ensures
      var b := GasConsumption(sessionsPerWeek, weeks, sessionMinutes, ventilationRate,
                              recoveryMinutes, priceAir, priceNitrogen, priceOxygen, contingency);
      var c := GasConsumption(sessionsPerWeek, 2 * weeks, sessionMinutes, ventilationRate,
                              recoveryMinutes, priceAir, priceNitrogen, priceOxygen, contingency);
      && c.weeklyAir == b.weeklyAir
      && c.weeklyNitrogen == b.weeklyNitrogen
      && c.weeklyOxygen == b.weeklyOxygen
      && c.totalAir == 2.0 * b.totalAir
      && c.totalNitrogen == 2.0 * b.totalNitrogen
      && c.totalOxygen == 2.0 * b.totalOxygen
      && c.costAir == 2.0 * b.costAir
      && c.costNitrogen == 2.0 * b.costNitrogen
      && c.costOxygen == 2.0 * b.costOxygen
      && c.totalCost == 2.0 * b.totalCost
      && c.totalCostWithContingency == 2.0 * b.totalCostWithContingency
  {
    assert 2 * weeks == weeks + weeks;
    WeeksAdditive(sessionsPerWeek, weeks, weeks, sessionMinutes, ventilationRate,
                  recoveryMinutes, priceAir, priceNitrogen, priceOxygen, contingency);
  }

  // ---------------------------------------------------------------------
  // Ventilation

  /** Every volume and cost is proportional to the ventilation rate. */
  lemma ScaleVentilation(
    sessionsPerWeek: int, weeks: int, sessionMinutes: real, ventilationRate: real,
    recoveryMinutes: real, priceAir: real, priceNitrogen: real, priceOxygen: real,
    contingency: real, f: real)
    ensures
      var b := GasConsumption(sessionsPerWeek, weeks, sessionMinutes, ventilationRate,
                              recoveryMinutes, priceAir, priceNitrogen, priceOxygen, contingency);
      var c := GasConsumption(sessionsPerWeek, weeks, sessionMinutes, f * ventilationRate,
                              recoveryMinutes, priceAir, priceNitrogen, priceOxygen, contingency);
      && c.weeklyAir == f * b.weeklyAir
      && c.weeklyNitrogen == f * b.weeklyNitrogen
      && c.weeklyOxygen == f * b.weeklyOxygen
      && c.totalAir == f * b.totalAir
      && c.totalNitrogen == f * b.totalNitrogen
      && c.totalOxygen == f * b.totalOxygen
      && c.costAir == f * b.costAir
      && c.costNitrogen == f * b.costNitrogen
      && c.costOxygen == f * b.costOxygen
      && c.totalCost == f * b.totalCost
      && c.totalCostWithContingency == f * b.totalCostWithContingency
  {
  }

  // ---------------------------------------------------------------------
  // Signs and the contingency

  /** With non-negative inputs every figure is non-negative; of the
      contingency it is enough that 1 + contingency is non-negative. */
  lemma NonNegative(
    sessionsPerWeek: int, weeks: int, sessionMinutes: real, ventilationRate: real,
    recoveryMinutes: real, priceAir: real, priceNitrogen: real, priceOxygen: real,
    contingency: real)
    requires sessionsPerWeek >= 0 && weeks >= 0
    requires sessionMinutes >= 0.0 && ventilationRate >= 0.0 && recoveryMinutes >= 0.0
    requires priceAir >= 0.0 && priceNitrogen >= 0.0 && priceOxygen >= 0.0
    requires contingency >= -1.0
    ensures
      var b := GasConsumption(sessionsPerWeek, weeks, sessionMinutes, ventilationRate,
                              recoveryMinutes, priceAir, priceNitrogen, priceOxygen, contingency);
      && b.weeklyAir >= 0.0 && b.weeklyNitrogen >= 0.0 && b.weeklyOxygen >= 0.0
      && b.totalAir >= 0.0 && b.totalNitrogen >= 0.0 && b.totalOxygen >= 0.0
      && b.costAir >= 0.0 && b.costNitrogen >= 0.0 && b.costOxygen >= 0.0
      && b.totalCost >= 0.0 && b.totalCostWithContingency >= 0.0
  {
  }

  /** For a positive total cost, the adjusted total is at least the total
      exactly when the contingency is non-negative, and a non-negative
      contingency never lowers a non-negative (possibly zero) total; the
      default 10% makes the adjusted total exactly 1.1 times the total. */
  lemma ContingencyMarkup(
    sessionsPerWeek: int, weeks: int, sessionMinutes: real, ventilationRate: real,
    recoveryMinutes: real, priceAir: real, priceNitrogen: real, priceOxygen: real,
    contingency: real)
    ensures
      var b := GasConsumption(sessionsPerWeek, weeks, sessionMinutes, ventilationRate,
                              recoveryMinutes, priceAir, priceNitrogen, priceOxygen, contingency);
      && (b.totalCost > 0.0 ==> (b.totalCostWithContingency >= b.totalCost <==> contingency >= 0.0))
      && (b.totalCost >= 0.0 && contingency >= 0.0 ==> b.totalCostWithContingency >= b.totalCost)
      && (contingency == 0.10 ==> b.totalCostWithContingency == 1.1 * b.totalCost)
  {
    var b := GasConsumption(sessionsPerWeek, weeks, sessionMinutes, ventilationRate,
                            recoveryMinutes, priceAir, priceNitrogen, priceOxygen, contingency);
    assert b.totalCostWithContingency == b.totalCost + b.totalCost * contingency;
  }

  /** Changing the contingency changes the contingency-adjusted total and
      no other figure. */
  lemma ContingencyChangesOnlyItsTotal(
    sessionsPerWeek: int, weeks: int, sessionMinutes: real, ventilationRate: real,
    recoveryMinutes: real, priceAir: real, priceNitrogen: real, priceOxygen: real,
    contingency1: real, contingency2: real)
    ensures
      var b1 := GasConsumption(sessionsPerWeek, weeks, sessionMinutes, ventilationRate,
                               recoveryMinutes, priceAir, priceNitrogen, priceOxygen, contingency1);
      var b2 := GasConsumption(sessionsPerWeek, weeks, sessionMinutes, ventilationRate,
                               recoveryMinutes, priceAir, priceNitrogen, priceOxygen, contingency2);
      b2 == b1.(totalCostWithContingency := b1.totalCost * (1.0 + contingency2))
  {
  }

  // ---------------------------------------------------------------------
  // A worked example

  /** 40 L/min, 20 sessions a week of 20 minutes plus 5 minutes of
      recovery, 26 weeks, at prices 17853, 17838 and 19654 and the default
      10% contingency. */
  lemma Example40LitresPerMinute()
    ensures
      var b := GasConsumption(20, 26, 20.0, 40.0, 5.0, 17853.0, 17838.0, 19654.0);
      && b.weeklyAir == 16.0
      && b.weeklyNitrogen == 0.8
      && b.weeklyOxygen == 4.0
      && b.totalAir == 416.0
      && b.totalNitrogen == 20.8
      && b.totalOxygen == 104.0
      && b.costAir == 7426848.0
      && b.costNitrogen == 371030.4
      && b.costOxygen == 2044016.0
      && b.totalCost == 9841894.4
      && b.totalCostWithContingency == 10826083.84
      && b.totalCostWithContingency == 1.1 * b.totalCost
  {
  }
}
