# Poultry results service: a verified model

This project models the poultry results service of the Holos farm-emissions
calculator, `H.Core/Services/Animals/PoultryResultsService.cs`. The model covers three parts:

- **`CalculateDailyEmissions`.** It builds one poultry group's emission record for one day: enteric and
  manure methane, manure and bedding carbon, the nitrogen excretion rate, direct and indirect (volatilization and
  leaching) N2O, and the nitrogen and manure available for land application. It also overwrites the crude protein
  of the management period's selected diet.
- **`CalculateEnergyEmissions`.** It sets a month record's energy CO2.
- **The service's closed-form equations.**

Files:

- `core_constants.dfy`: the two shared constants. Their values do not appear in the modelled code, so they are
  only known to be positive.
- `poultry_model.dfy`: the entities.
  - `Diet` and `GroupEmissionsByMonth` are classes, because the calculator assigns their fields in place (the
    diet's crude protein, line 154; the month's energy CO2, line 328). `ManagementPeriod` is a class because it
    holds a reference to its selected diet, through which that assignment is made.
  - `Farm` holds the province and the monthly temperatures the calculator reads, plus an opaque `Rest` standing for
    everything else about the farm, which the land-applied ammonia helper receives.
  - The day record `GroupEmissionsByDay` and the read-only settings are datatypes.
- `poultry_equations.dfy`: every equation of the service's `Equations` region, as a function over `real`. Each
  has a contract that states its meaning: a yearly total, a conversion, a zero case or a sign. The lemmas relate the
  equations to each other.
- `poultry_results_service.dfy`: the two calculations.
  - `CalculateDailyEmissions` is proved against the specification function `DailyEmissions`, and against
    `PeriodAfterDay` for the diet it overwrites. It is split into one method per section of the source's
    calculation. Each section method is proved against its own stage function.
  - `CalculateEnergyEmissions` is proved against `MonthlyEnergyAfter`.
  - Some code lies outside the modelled file: the base-class helpers, the diet table, the animal-type
    classification and the electricity conversion table. These are the function-valued fields of `Collaborators`.
    Every result therefore holds for any choice of them, and the proofs state which helper each branch uses, with
    which arguments.
- `poultry_properties.dfy`: what the calculator promises, stated about the specification functions:
  - the egg-stage early exit;
  - the chicken and turkey branches;
  - the layer and broiler formulas;
  - the choice of volatilization fraction;
  - the ammonia from housing and storage;
  - the consistency of the whole record;
  - that repeating a day changes nothing;
  - the linearity of the energy step.

## Model

| member | source | states |
|---|---|---|
| PoultryEquations.AmmoniaLossFromHousing | H.Core/Services/Animals/PoultryResultsService.cs:344-349 | 365 days of the daily loss are the yearly TAN times the housing factor; zero when either is zero; for a factor in [0, 1] the loss lies between 0 and a 365th of the yearly TAN |
| PoultryEquations.AmmoniaEmissionsFromHousing | H.Core/Services/Animals/PoultryResultsService.cs:356-360 | dividing the emission by the NH3-N to NH3 factor gives back the loss; the emission is non-negative exactly when the loss is |
| PoultryEquations.AmmoniaLossFromStorage | H.Core/Services/Animals/PoultryResultsService.cs:368-373 | 365 days of the daily loss are the yearly TAN times the storage factor; zero cases; bounded by a 365th of the TAN for a factor in [0, 1] |
| PoultryEquations.AmmoniaEmissionsFromStorage | H.Core/Services/Animals/PoultryResultsService.cs:380-384 | the emission converts back to the storage loss; non-negative exactly when the loss is |
| PoultryEquations.DailyShareBounded | H.Core/Services/Animals/PoultryResultsService.cs:348 | a year of a daily share (yearly amount / 365 times a factor) is the yearly amount times the factor; zero when either is zero; within [0, yearly / 365] for a factor in [0, 1] |
| PoultryEquations.EntericMethaneEmission | H.Core/Services/Animals/PoultryResultsService.cs:393-398 | zero when rate, head count or days is zero; non-negative for non-negative inputs (its full year: `FullYearIsYearlyRate`) |
| PoultryEquations.ManureMethaneEmission | H.Core/Services/Animals/PoultryResultsService.cs:407-412 | zero when rate, head count or days is zero; non-negative for non-negative inputs |
| PoultryEquations.ManureNitrogen | H.Core/Services/Animals/PoultryResultsService.cs:421-426 | zero when rate, head count or days is zero; non-negative for non-negative inputs |
| PoultryEquations.ManureDirectNitrogenEmission | H.Core/Services/Animals/PoultryResultsService.cs:435-440 | over one day it is rate times emission factor; zero cases; non-negativity |
| PoultryEquations.ManureVolatilizationNitrogenEmission | H.Core/Services/Animals/PoultryResultsService.cs:520-526 | zero when the fraction, factor or days is zero; non-negative for non-negative inputs |
| PoultryEquations.ManureLeachingNitrogenEmission | H.Core/Services/Animals/PoultryResultsService.cs:536-542 | zero when the fraction, factor or days is zero; non-negative for non-negative inputs |
| PoultryEquations.ManureAvailableForLandApplication | H.Core/Services/Animals/PoultryResultsService.cs:552-559 | equals rate times days when the two fractions sum to zero; at most rate times days for non-negative rate, days and fractions; non-negative when the fractions sum to at most one |
| PoultryEquations.AvailableBounds | H.Core/Services/Animals/PoultryResultsService.cs:555-558 | the available nitrogen is rate times days when nothing is lost, at most rate times days, and non-negative while the fractions sum to at most one |
| PoultryEquations.ProteinIntakePoultry | H.Core/Services/Animals/PoultryResultsService.cs:448-453 | for a crude-protein fraction in [0, 1] the intake lies between 0 and the dry-matter intake; zero when either input is zero |
| PoultryEquations.ProteinShareBounded | H.Core/Services/Animals/PoultryResultsService.cs:452 | a share in [0, 1] of a non-negative intake lies between 0 and the intake; zero when either is zero |
| PoultryEquations.ProteinRetainedLayers | H.Core/Services/Animals/PoultryResultsService.cs:463-472 | without eggs it is the live-weight protein times the gain; without gain it is the egg protein times egg production in grams; non-negative for non-negative inputs |
| PoultryEquations.ProteinRetainedLayersParts | H.Core/Services/Animals/PoultryResultsService.cs:463-472 | the layer protein retained is the sum of its live-weight part (no eggs) and its egg part (no gain), so with the no-egg and no-gain cases it is fixed for all inputs |
| PoultryEquations.ProteinRetainedBroilers | H.Core/Services/Animals/PoultryResultsService.cs:481-491 | over the production period the retained protein is 0.175 of the weight gained; zero without gain; for a positive period it is non-negative exactly when the final weight is at least the initial weight |
| PoultryEquations.NitrogenExcretionRateChickens | H.Core/Services/Animals/PoultryResultsService.cs:499-509 | the rate, as protein (times 6.25), is intake minus retained; non-negative exactly when intake is at least retained; at most intake / 6.25 when retained is non-negative |
| PoultryEquations.TotalEnergyCarbonDioxideEmissionsFromPoultryOperations | H.Core/Services/Animals/PoultryResultsService.cs:569-577 | zero when head count, days or conversion factor is zero; non-negative for non-negative inputs |
| PoultryEquations.HousingAndStorageLossCoincide | H.Core/Services/Animals/PoultryResultsService.cs:344-384 | with equal factors the housing and storage losses, and their emissions, are equal |
| PoultryEquations.AmmoniaEmissionsScaleLoss | H.Core/Services/Animals/PoultryResultsService.cs:344-384 | each ammonia emission is the yearly TAN / 365 times its factor times the NH3-N to NH3 factor |
| PoultryEquations.FullYearIsYearlyRate | H.Core/Services/Animals/PoultryResultsService.cs:393-426 | over DaysInYear days enteric CH4, manure CH4 and manure N are the yearly per-head rate times the head count, and energy CO2 is head count times 2.88 kWh times the conversion factor |
| PoultryEquations.EntericMethaneAdditiveInDays | H.Core/Services/Animals/PoultryResultsService.cs:393-398 | enteric CH4 over two stretches of days adds up to the value over both |
| PoultryEquations.ManureMethaneAdditiveInDays | H.Core/Services/Animals/PoultryResultsService.cs:407-412 | manure CH4 over two stretches of days adds up to the value over both |
| PoultryEquations.ManureNitrogenAdditiveInDays | H.Core/Services/Animals/PoultryResultsService.cs:421-426 | manure N over two stretches of days adds up to the value over both |
| PoultryEquations.DirectNitrogenAdditiveInDays | H.Core/Services/Animals/PoultryResultsService.cs:435-440 | direct N2O over two stretches of days adds up to the value over both |
| PoultryEquations.YearlyRateAdditive | H.Core/Services/Animals/PoultryResultsService.cs:397 | a yearly amount spread over days is additive in the days |
| PoultryEquations.VolatilizationAndLeachingCoincide | H.Core/Services/Animals/PoultryResultsService.cs:520-542 | the volatilization and leaching N2O are the same product; both equal the direct N2O equation with the rate scaled by the fraction |
| PoultryEquations.NoLeachingForPoultry | H.Core/Services/Animals/PoultryResultsService.cs:20 | with the poultry leaching fraction (zero) the leaching N2O is zero, and with no volatilization all excreted nitrogen is available |
| PoultryEquations.ManureNitrogenBalance | H.Core/Services/Animals/PoultryResultsService.cs:552-559 | available plus volatilized plus leached nitrogen is what was excreted over the days |
| PoultryEquations.EnergyAdditive | H.Core/Services/Animals/PoultryResultsService.cs:569-577 | energy CO2 is additive in head count and in days |
| PoultryEquations.EnergyHomogeneous | H.Core/Services/Animals/PoultryResultsService.cs:569-577 | scaling the head count or the days scales the energy CO2 |
| PoultryResultsService.CalculateDailyEmissions | H.Core/Services/Animals/PoultryResultsService.cs:40-317 | the returned record is `DailyEmissions` of the period as it was, and the period afterwards is `PeriodAfterDay` (only the selected diet's crude protein may change); the previous day's record plays no part |
| PoultryResultsService.CalculateEntericAndCarbon | H.Core/Services/Animals/PoultryResultsService.cs:56-96 | sets enteric CH4 and the manure and bedding carbon fields to the base equations of the period's settings, leaving every other field as it was |
| PoultryResultsService.CalculateManureMethane | H.Core/Services/Animals/PoultryResultsService.cs:98-130 | chickens copy volatile solids and derive the CH4 rate from them, other groups take the daily rate; then CH4, carbon lost as CH4 and carbon in stored manure; nothing else changes |
| PoultryResultsService.CalculateNitrogenExcretionRate | H.Core/Services/Animals/PoultryResultsService.cs:136-180 | turkeys take the tabulated rate and keep their diet; others take the protein balance of their diet-table row, with the layer or broiler formula, and their selected diet gets the table's crude protein |
| PoultryResultsService.CalculateDirectNitrogen | H.Core/Services/Animals/PoultryResultsService.cs:182-208 | sets nitrogen excreted, nitrogen from bedding and direct N2O from the record's excretion rate; nothing else changes |
| PoultryResultsService.CalculateVolatilization | H.Core/Services/Animals/PoultryResultsService.cs:218-260 | sets the housing and storage ammonia from this file's equations, the custom or the derived volatilized fraction, and the volatilization N2O; nothing else changes |
| PoultryResultsService.CalculateLeachingAndTotals | H.Core/Services/Animals/PoultryResultsService.cs:266-285 | sets leaching N2O and the indirect and total manure N2O from the record's fields; nothing else changes |
| PoultryResultsService.CalculateLandApplication | H.Core/Services/Animals/PoultryResultsService.cs:287-314 | sets nitrogen and manure available for land application and the C:N ratio, then the land-applied ammonia from the record so far; nothing else changes |
| PoultryResultsService.CalculateEnergyEmissions | H.Core/Services/Animals/PoultryResultsService.cs:320-332 | the month's energy CO2 becomes `MonthlyEnergyAfter`: unchanged for egg stages, otherwise the poultry energy equation for the period's head count, the month's days and the year's and province's conversion factor; nothing else changes |
| PoultryProperties.EggStagesEmitNothing | H.Core/Services/Animals/PoultryResultsService.cs:48-54 | for eggs and newly hatched eggs the record is the fresh all-zero record and the period is unchanged |
| PoultryProperties.ManureMethaneRateByGroup | H.Core/Services/Animals/PoultryResultsService.cs:98-118 | for chicken groups the volatile solids are copied and the rate comes from VS, B0 and MCF; otherwise the rate is the daily rate and VS stays zero; CH4 is that rate for the head count |
| PoultryProperties.TurkeysUseTabulatedNitrogenRate | H.Core/Services/Animals/PoultryResultsService.cs:136-144 | turkeys get the configured excretion rate, keep dry-matter intake, protein intake and protein retained at zero, and keep their diet |
| PoultryProperties.OthersUseProteinBalance | H.Core/Services/Animals/PoultryResultsService.cs:145-180 | other animals: intake is the table's dry matter times its crude protein, 6.25 times the rate is intake minus retained, retained follows the layer formula for the two layer types and the broiler formula otherwise, and the diet gets the table's crude protein |
| PoultryProperties.HousingAndStorageAmmonia | H.Core/Services/Animals/PoultryResultsService.cs:218-234 | in the day record a year of each loss is the yearly TAN times its factor, each emission converts back to its loss, and equal factors give equal housing and storage values |
| PoultryProperties.VolatilizedFractionChoice | H.Core/Services/Animals/PoultryResultsService.cs:236-255 | the fraction is the custom one when asked for, otherwise the helper over the two losses and the nitrogen excreted and from bedding; the volatilization rate uses it |
| PoultryProperties.DailyRecordConsistent | H.Core/Services/Animals/PoultryResultsService.cs:56-304 | in a computed record every carbon and nitrogen quantity, including the fecal carbon rate and the carbon and nitrogen bedding rates from their own bedding concentrations, is its equation applied to the period's settings and the record's own final fields |
| PoultryProperties.LandAppliedAmmoniaSeesRecord | H.Core/Services/Animals/PoultryResultsService.cs:306-314 | the land-applied ammonia is the helper's value for the finished record with that field still zero, and for the period after the diet was overwritten |
| PoultryProperties.RepeatingADayChangesNothing | H.Core/Services/Animals/PoultryResultsService.cs:40-317 | computing the day again on the period it left behind gives the same record and the same period |
| PoultryProperties.EggStagesUseNoEnergy | H.Core/Services/Animals/PoultryResultsService.cs:322-325 | for egg and newly hatched egg types the monthly energy CO2 keeps its value |
| PoultryProperties.MonthlyEnergyOfOtherPeriods | H.Core/Services/Animals/PoultryResultsService.cs:320-332 | otherwise it does not depend on its previous value, a full year is head count times 2.88 times the conversion factor, and it is additive in head count and in days |

## Left out

- Base-class helpers: the helpers the service inherits from `AnimalResultsServiceBase` are uninterpreted function values (`BaseEquations`). Examples are fecal carbon, bedding, methane rate, nitrogen excreted, fraction volatilized and land-applied ammonia. Their formulas are not in the modelled file. `AnimalResultsServiceBase` is not part of this model.
- Animal-type classification: `IsEggs`, `IsNewlyHatchedEggs`, `IsChickenType` and `IsTurkeyType` are extension methods defined elsewhere, so they are uninterpreted predicates (`AnimalTypeTraits`). Animal types other than the two layer types are opaque codes.
- Lookups taken as inputs: the poultry diet table (line 151), the monthly mean temperature (line 49) and the electricity conversion factor (line 327) are functions passed in.
- Missing diet rows: `Diets` is a total function, so every animal type has a diet-table row. The source uses the looked-up row at line 153 without a null check, so a missing row would raise an exception; the model cannot express that case.
- `animalComponentBase`: the `AnimalComponentBase` parameter of `CalculateDailyEmissions` is never read, so the parameter is omitted.
- Floating point: `double` is `real`, so IEEE rounding, overflow, infinities and NaN are not modelled.
- ProteinRetainedBroilers: requires a non-zero production period. The source divides by it and would yield an infinity or NaN for a zero period.
- CalculateDailyEmissions: requires a non-zero production period for periods that are neither turkeys nor layers, for the same reason. The requirement does not apply to egg-stage groups.
- CalculateNitrogenExcretionRate: requires the same non-zero production period for animals that are neither turkeys nor layers, because its broiler branch (lines 170-174) divides by it.
- CalculateDailyEmissions: the day record is a value that the method builds and returns, not a heap object. Aliasing of a freshly constructed record cannot be observed.
- CalculateDailyEmissions: `TotalAmmoniaEmissionsFromLandAppliedManure` receives the record to read. The model does not capture any writes the base-class helper might make to the record or to the management period.
- CalculateDailyEmissions: the method takes `previousDaysEmissions` (line 44) but never reads it, so nothing carries over from one day to the next.
- CalculateDailyEmissions: the source's single method is split into one method per section, each proved against its stage function. The order of field assignments within each section follows the source.
- Overloads and unused code: the daily calculation reaches direct N2O (line 206), volatilization N2O (line 258) and leaching N2O (line 273) through base-class overloads of different arity, and enteric CH4 (line 62) and manure CH4 (line 116) through differently named base-class helpers. This file's own versions of those five equations, and `CalculateManureAvailableForLandApplication`, are modelled as functions but no calculation calls them. `FractionLeaching` (line 20) is likewise unused except in `NoLeachingForPoultry`.
- Temperature: the poultry daily record depends on the month's temperature only through the land-applied ammonia helper. This calculator has no temperature-adjusted storage carry-over, no temperature-banded land-application fractions and no manure-tank bookkeeping, so the model has none either.
