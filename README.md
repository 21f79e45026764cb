# Normobaric hypoxia training budget, modelled in Dafny

The calculator estimates how an average adult responds to a simulated
altitude and turns that estimate into a gas budget for a training
programme. Its core is two side-effect-free calculations in
`NormobaricHypoxia_Cost.py`:

* `calculate_physiological_parameters` takes an altitude in feet. It
  returns the altitude in metres, the barometric pressure, the arterial
  oxygen partial pressure (PaO2), a cubic-sigmoid oxygen saturation
  (SaO2), a threshold-linear ventilation rate capped at 60 L/min, and a
  threshold-linear heart rate.
* `calculate_gas_consumption` takes the sessions per week, the weeks, the
  session and recovery durations, the ventilation rate, three unit prices
  and a contingency fraction. It returns eleven figures: weekly and total
  volumes of compressed air, added nitrogen and recovery oxygen, one cost
  per gas, the total cost and the total with contingency.

The model is written over exact `real`s, with `int` for the two counts.
It has three modules:

* `physiology.dfy`, module `Physiology`: the first calculation as
  `Physiology.Physiology` plus one function per step (`FeetToMetres`,
  `BarometricBase`, `Pressure`, `InspiredO2`, `ArterialO2`, `Saturation`,
  `Ventilation`, `HeartRate`).
* `budget.dfy`, module `Budget`: the second calculation as
  `Budget.GasConsumption`. It keeps the source's nine-argument signature,
  including the 10% default of the contingency argument, and returns the
  eleven-field record `GasBudget`.
* `defaults.dfy`, module `Defaults`: the driver's default settings as a
  typed record, and one lemma that applies both calculations to them.

The barometric formula raises `1 - 2.25577e-5 * h` to the power
`5.25588`. Dafny's reals have no non-integer power, so that power is a
parameter `power: real -> real`. The lemmas about pressure, PaO2 and
SaO2 assume only what `Physiology.IsBarometricPower` states about it:
it maps 1 to 1, and on the non-negative reals it is non-negative and
non-decreasing. The Python exponent has all three properties.

Two inputs have no real-valued answer in the source, and the model
returns an error for each:

* `Err(NonRealPressure)`: above about 44331 m the base is negative. Python
  then computes a complex pressure, PaO2 and SaO2.
* `Err(ZeroDivision)`: PaO2³ + 150³ is zero. Python would raise
  `ZeroDivisionError` here. Under `IsBarometricPower` this cannot happen
  for real altitudes (`Physiology.PhysiologyDefined`).

Two facts about the code are worth stating outright:

* At the default 25000 ft (7620 m) the ventilation rate is
  6 · (1 + 6.12) = 42.72 L/min. The 60 L/min cap is reached only from
  10500 m (`Physiology.At25000Feet` for the value, `Physiology.Ventilation`
  for the cap).
* `calculate_physiological_parameters` takes only the altitude, so the
  physiology record has no field besides the altitude and the values
  computed from it.

## Model

| member | source | states |
|---|---|---|
| `Physiology.FeetToMetres` | NormobaricHypoxia_Cost.py:60 | dividing the metres by 0.3048 gives back the feet; metres are non-negative exactly when feet are |
| `Physiology.BarometricBase` | NormobaricHypoxia_Cost.py:61 | the base of the power law is non-negative exactly up to 1/2.25577e-5 m, and at most 1 exactly at or above sea level |
| `Physiology.Pressure` | NormobaricHypoxia_Cost.py:61 | the pressure divided by 760 is the power law applied to the base; for a power with the properties of `IsBarometricPower` it lies in [0, 760] mmHg from sea level to the top of the atmosphere |
| `Physiology.InspiredO2` | NormobaricHypoxia_Cost.py:65 | the inspired O2 pressure (P − 47)·0.2095 never exceeds 0.2095·P, and is non-negative exactly when P ≥ 47 mmHg |
| `Physiology.ArterialO2` | NormobaricHypoxia_Cost.py:63-68 | PaO2 = (P − 47)·0.2095 − 5 is non-negative exactly when P ≥ 47 + 5/0.2095 mmHg |
| `Physiology.Saturation` | NormobaricHypoxia_Cost.py:69 | its `requires` excludes exactly the `ZeroDivisionError` case PaO2³ + 150³ = 0, which `Physiology.Physiology` returns as `Err(ZeroDivision)`; the result s satisfies s · (PaO2³ + 150³) = 100 · PaO2³ |
| `Physiology.Ventilation` | NormobaricHypoxia_Cost.py:71-75 | for every altitude the rate lies in [6, 60]; it is 6 exactly at or below 1500 m, 60 exactly from 10500 m, and 6 + 6·(h − 1500)/1000 in between |
| `Physiology.HeartRate` | NormobaricHypoxia_Cost.py:77-80 | the rate is at least 70; it is 70 exactly at or below 1000 m, and 70 + (h − 1000)/100 above |
| `Physiology.Physiology` | NormobaricHypoxia_Cost.py:44-90 | the error cases: a non-real pressure exactly above the top of the atmosphere, a zero division exactly when PaO2³ + 150³ = 0; on success the record echoes the feet, holds the matching metres, a ventilation rate in [6, 60] and a heart rate of at least 70 |
| `Physiology.SaturationDefined` | NormobaricHypoxia_Cost.py:69 | for PaO2 > −150 the denominator is positive and SaO2 = 100 − 100·150³/(PaO2³ + 150³) |
| `Physiology.SaturationBounds` | NormobaricHypoxia_Cost.py:69 | for PaO2 > −150, SaO2 < 100, and SaO2 ≥ 0 exactly when PaO2 ≥ 0; so SaO2 lies in [0, 100) for PaO2 ≥ 0 |
| `Physiology.SaturationMonotone` | NormobaricHypoxia_Cost.py:69 | SaO2 is non-decreasing in PaO2 above −150 mmHg |
| `Physiology.HalfSaturation` | NormobaricHypoxia_Cost.py:69 | SaO2(150) = 50, and SaO2 ≥ 50 exactly when PaO2 ≥ 150 |
| `Physiology.ArterialO2Increasing` | NormobaricHypoxia_Cost.py:65-68 | PaO2 is strictly increasing in the barometric pressure |
| `Physiology.SeaLevelPressureIs760` | NormobaricHypoxia_Cost.py:55-61 | at 0 m the pressure is 760 mmHg |
| `Physiology.PressureFalls` | NormobaricHypoxia_Cost.py:59-61 | within the atmosphere the pressure is non-negative and non-increasing in altitude, and at most 760 mmHg at or above sea level |
| `Physiology.VentilationMonotone` | NormobaricHypoxia_Cost.py:72-75 | the ventilation rate is non-decreasing in altitude |
| `Physiology.HeartRateMonotone` | NormobaricHypoxia_Cost.py:78-80 | the heart rate is non-decreasing in altitude, and strictly increasing above 1000 m |
| `Physiology.PhysiologyDefined` | NormobaricHypoxia_Cost.py:59-69 | every altitude up to the top of the atmosphere yields a record, with pressure ≥ 0, PaO2 > −150, SaO2 < 100, and pressure ≤ 760 for altitudes ≥ 0 |
| `Physiology.PhysiologyMonotone` | NormobaricHypoxia_Cost.py:59-80 | climbing never raises pressure, PaO2 or SaO2, and never lowers the ventilation or heart rate |
| `Physiology.SeaLevelRecord` | NormobaricHypoxia_Cost.py:54-90 | at 0 ft: 0 m, 760 mmHg, PaO2 144.3735 mmHg, SaO2 = Saturation(144.3735), which lies between 47% and 48%, 6 L/min, 70 bpm |
| `Physiology.At25000Feet` | NormobaricHypoxia_Cost.py:60-80 | at 25000 ft: 7620 m, 42.72 L/min (below the cap), 136.2 bpm |
| `Budget.GasConsumption` | NormobaricHypoxia_Cost.py:92-123 | weekly and total nitrogen are exactly 0.05 times weekly and total air; the contingency defaults to 0.10 |
| `Budget.ClosedForm` | NormobaricHypoxia_Cost.py:110-130 | weekly air and weekly oxygen are rate × minutes × sessions / 1000 (session minutes for air, recovery minutes for oxygen), and weekly nitrogen is 0.05 × rate × session minutes × sessions / 1000; each total is weekly × weeks; each cost is total × unit price; the total cost is the sum of the three costs, and equals rate·sessions·weeks/1000 × (session minutes·(air price + 0.05·nitrogen price) + recovery minutes·oxygen price) |
| `Budget.WeeklyIndependentOfWeeks` | NormobaricHypoxia_Cost.py:115-118 | the weekly figures do not depend on the number of weeks |
| `Budget.WeeksAdditive` | NormobaricHypoxia_Cost.py:120-131 | a programme of w1 + w2 weeks has the same weekly figures, and its totals and costs are the sums of those for w1 and for w2 weeks |
| `Budget.DoubleWeeks` | NormobaricHypoxia_Cost.py:120-131 | doubling the weeks doubles every total volume and cost and leaves the weekly figures unchanged |
| `Budget.ScaleVentilation` | NormobaricHypoxia_Cost.py:110-131 | multiplying the ventilation rate by f multiplies all eleven figures by f |
| `Budget.NonNegative` | NormobaricHypoxia_Cost.py:110-131 | with non-negative counts, durations, rate and prices, and a contingency ≥ −1, all eleven figures are non-negative |
| `Budget.ContingencyMarkup` | NormobaricHypoxia_Cost.py:130-131 | for a positive total cost, the total with contingency is at least the total exactly when the contingency is ≥ 0; for any non-negative total, including zero, a contingency ≥ 0 never lowers it; at the default 0.10 it is exactly 1.1 × the total |
| `Budget.ContingencyChangesOnlyItsTotal` | NormobaricHypoxia_Cost.py:130-145 | changing the contingency changes only the total with contingency, which becomes total × (1 + contingency) |
| `Budget.Example40LitresPerMinute` | NormobaricHypoxia_Cost.py:110-131 | at 40 L/min, 20 sessions of 20 + 5 minutes and 26 weeks: weekly 16.0 / 0.8 / 4.0 m³, total air 416.0 m³, and the costs at the default prices, with the contingency left at its default and the contingency total equal to 1.1 × the total |
| `Defaults.DefaultBudget` | NormobaricHypoxia_Cost.py:154-187 | at the default settings the computed ventilation rate (42.72 L/min) gives the stated eleven budget figures |

## Left out

- `get_user_input` (lines 23-42): interactive prompting, re-prompting after a `ValueError`, and falling back to the default. This is I/O.
- `main` (lines 147-204): prompting, printing and `:.2f` / `.title()` formatting. Only its default values and the way it passes the ventilation rate into the gas calculation appear, in `Defaults.DefaultBudget`.
- The `KeyboardInterrupt` handler and `sys.exit` (lines 206-211): process control.
- The exponent `** 5.25588` (line 61) is an abstract parameter constrained by `IsBarometricPower`. No pressure other than 760 mmHg at sea level is proved. The SaO2 at sea level is stated as `Saturation(144.3735)` and bounded between 47% and 48%, not given as a decimal.
- Physiology.Physiology: above the top of the atmosphere the source returns complex-valued pressure, PaO2 and SaO2, and still returns real altitude, ventilation and heart-rate fields. The model returns `Err(NonRealPressure)` instead of that partly complex record.
- IEEE-754 floating point: the model is exact over the reals. Facts such as "exactly 1.1 × the total" hold here, not bit for bit in Python floats.
- Idempotence of both calculations follows from their being Dafny functions, so no separate lemma states it.
- Python's dynamic typing: the counts are `int`, and every other input and output is `real`.
