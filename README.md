# Elevator earthpit calculator — Dafny model

The calculator asks for a pit type (regular, chemical earthing or
maintenance-free), a plate material (galvanized iron or copper), a soil type
(loamy, clay, sandy, rocky, black cotton), the soil resistivity and the
desired earth resistance. From these it computes a recommended pit depth,
an expected resistance, a cost estimate, an installation checklist, a
weather-impact table and a yearly inspection schedule. This project models
that calculation and proves its properties:

- `tables.dfy` (`EarthpitTables`): the three selectors as datatypes and the
  constant tables keyed by them (material factor, soil factor, depth factor,
  base cost, soil complexity).
- `rounding.dfy` (`Rounding`): `round(x, 2)` on exact reals, rounding half
  to even.
- `calculation.dfy` (`EarthpitCalc`): the depth formula, expected resistance
  and cost, with monotonicity and bound lemmas.
- `installation.dfy` (`EarthpitInstall`): the checklist and the weather table.
- `schedule.dfy` (`InspectionSchedule`): the inspection cadence, the activity
  list and the loop that builds the dated schedule.

Numbers are Dafny `real`s. The constants `1.2`, `0.7`, `3.141592653589793`
and so on are taken as exact decimals. The input form's minimums
(resistivity at least 1.0, desired resistance at least 0.1) are `requires`
clauses. The form enforces them, and the calculation has no invalid-input
check of its own.

## Model

| member | source | states |
|---|---|---|
| EarthpitTables.MaterialFactor | Earthpit.py:74-83 | the plate's depth multiplier is in (0, 1], is 1 exactly for galvanized iron, and is 0.5 for copper |
| EarthpitTables.StripType | Earthpit.py:77-82 | the strip label named after the plate material ("GI" or "Copper") is never empty |
| EarthpitTables.SoilFactor | Earthpit.py:86-92 | every soil's depth multiplier lies between 0.8 and 2.0 |
| EarthpitTables.DepthFactor | Earthpit.py:95-114 | every pit type's depth factor is in (0, 1], and is 1 exactly for a regular pit |
| EarthpitTables.BaseCost | Earthpit.py:139-152 | every base installation cost lies between 15000 and 35000 |
| EarthpitTables.SoilComplexity | Earthpit.py:156-162 | every soil's cost multiplier is between 1 and 1.8, and is 1 exactly for loamy soil |
| EarthpitTables.CopperPremium | Earthpit.py:139-152 | for every pit type a copper plate costs exactly 10000 more than galvanized iron |
| EarthpitTables.BaseCostIncreasing | Earthpit.py:139-152 | for each material, cost strictly increases Regular < Chemical < Maintenance-Free, by 5000 per step |
| Rounding.RoundHalfEven | Earthpit.py:118 | the result is an integer within 1/2 of the input, and is even on an exact tie |
| Rounding.RoundHalfEvenUnique | Earthpit.py:118 | those two properties determine the rounded integer uniquely |
| Rounding.RoundHalfEvenMonotone | Earthpit.py:118 | rounding to an integer preserves order |
| Rounding.Round2 | Earthpit.py:118 | round(x, 2) is a whole number of hundredths, namely x·100 rounded half to even; it is within 0.005 of x and non-negative for non-negative x |
| Rounding.Round2Monotone | Earthpit.py:118 | round(x, 2) preserves order |
| Rounding.Round2Exact | Earthpit.py:118 | a value that already has two decimals is unchanged by round(x, 2) |
| EarthpitCalc.WithinInputLimits | Earthpit.py:55-63 | resistivity ≥ 1.0 and desired resistance ≥ 0.1, the input widgets' minimums; within them resistivity and the formula's divisor 4·π·desired resistance are strictly positive |
| EarthpitCalc.BaseDepth | Earthpit.py:117 | the base depth is strictly positive and times 4·π·desired resistance gives resistivity·material factor·soil factor |
| EarthpitCalc.UnroundedDepth | Earthpit.py:118 | the depth before rounding is positive, at most the base depth, and equal to it for a regular pit |
| EarthpitCalc.PitDepth | Earthpit.py:117-118 | the recommended depth is non-negative and within 0.005 of the unrounded depth |
| EarthpitCalc.UnroundedDepthMonotoneInResistivity | Earthpit.py:117-118 | with the other inputs fixed, the unrounded depth is non-decreasing in resistivity |
| EarthpitCalc.UnroundedDepthAntitoneInDesired | Earthpit.py:117-118 | with the other inputs fixed, the unrounded depth is non-increasing in desired resistance |
| EarthpitCalc.PitDepthMonotoneInResistivity | Earthpit.py:117-118 | the rounded depth is non-decreasing in resistivity |
| EarthpitCalc.PitDepthAntitoneInDesired | Earthpit.py:117-118 | the rounded depth is non-increasing in desired resistance |
| EarthpitCalc.ExpectedResistance | Earthpit.py:129 | the expected resistance is non-negative, at most the desired resistance rounded to two decimals, and equal to it for a regular pit |
| EarthpitCalc.UnroundedExpectedResistanceBound | Earthpit.py:129 | before rounding, desired resistance × depth factor is positive and never exceeds the desired resistance |
| EarthpitCalc.DepthCost | Earthpit.py:155 | the depth cost is non-negative and zero only for zero depth |
| EarthpitCalc.TotalCost | Earthpit.py:164-165 | the total is at least the base cost plus the depth cost (soil complexity is at least 1), and exactly that for loamy soil |
| EarthpitCalc.TotalCostMonotoneInResistivity | Earthpit.py:155-165 | the total cost is non-decreasing in resistivity |
| EarthpitCalc.TotalCostAntitoneInDesired | Earthpit.py:155-165 | the total cost is non-increasing in desired resistance |
| EarthpitCalc.DefaultScenario | Earthpit.py:55-165 | the form's defaults (100 Ω·m, 5 Ω, regular, GI, loamy) give depth 1.59 m and total cost 16590 |
| EarthpitInstall.Components | Earthpit.py:201-208 | the checklist has six components with pairwise distinct names |
| EarthpitInstall.Checklist | Earthpit.py:201-208 | the checklist pairs each of those six components, in that order, with its installed flag |
| EarthpitInstall.ChecklistInstalled | Earthpit.py:201-208 | "Moisture Control" is installed iff the pit is not maintenance-free; "Chemical Compound" iff it is chemical; the other four always |
| EarthpitInstall.WeatherImpact | Earthpit.py:249-254 | the weather table has four seasons |
| EarthpitInstall.Lookup | Earthpit.py:251 | a dictionary lookup returns nothing exactly when no entry has that key, and otherwise a value stored under that key |
| EarthpitInstall.SummerImpact | Earthpit.py:251 | the summer text is "May require additional watering" iff the pit is regular, otherwise "Stable performance" |
| EarthpitInstall.WeatherOnlySummerVaries | Earthpit.py:249-254 | all pit types get the same seasons in the same order, and the same text for every season but summer |
| InspectionSchedule.InspectionFrequency | Earthpit.py:264-269 | the cadence divides the year, giving 4, 2 or 1 inspections for regular, chemical or maintenance-free |
| InspectionSchedule.Activities | Earthpit.py:275-280 | the activity list starts with the three base checks and has 5, 4 or 3 entries; a regular pit then adds the moisture and salt/coal checks in that order, a chemical pit the chemical compound check; each extra appears iff its pit type |
| InspectionSchedule.BuildSchedule | Earthpit.py:261-281 | the schedule has 4, 2 or 1 entries; entry k is dated (year, 1 + k·cadence, 1); months lie in 1..12 and strictly increase; every entry has the same activity list |

## Left out

- The Streamlit page: layout, input widgets, markdown output and the sidebar. This is presentation only.
- The ASCII pit diagram. It is string formatting for display.
- The clock read of the current year. The year is a parameter of `BuildSchedule`.
- The "YYYY-MM-DD" rendering of inspection dates. Dates are the `Date` datatype.
- Binary floating point. The model rounds the exact real value half to even, as Python's `round` does on the exact value of a float. It does not claim bit-exact agreement with Python's float arithmetic. `:,.2f` formatting is display only.
- Descriptive constant text: filling, lifetime and maintenance strings, plate size, conductivity, material properties, environment factors and the maintenance guidelines. These constants have no behaviour to check.
- The strip length input. It is displayed but feeds no calculation.
- Spreadsheet or document export. The modelled file has none.
- Per-activity frequencies or notes. A schedule entry carries only a date and an activity list (Earthpit.py:273-281), and so does `Inspection`.
