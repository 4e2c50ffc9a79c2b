/**
 * What the poultry results service promises about a day record and the
 * monthly energy CO2, stated about the specification functions
 * `DailyEmissions`, `PeriodAfterDay` and `MonthlyEnergyAfter` that the two
 * methods are proved against. Each lemma holds for every choice of the
 * helpers, the classification, the diet table and the conversion table.
 */
module PoultryProperties {
  import opened CoreConstants
  import opened PoultryModel
  import opened PoultryEquations
  import opened PoultryResultsService

  /** Egg stages of the group type neither emit nor change the period. */
  lemma EggStagesEmitNothing(c: Collaborators, p: PeriodState, dateTime: Date, animalGroup: AnimalGroup, farm: Farm)
    requires c.Traits.IsEggs(animalGroup.GroupType) || c.Traits.IsNewlyHatchedEggs(animalGroup.GroupType)
    ensures DailyEmissions(c, p, dateTime, animalGroup, farm) == ZeroDay
    ensures PeriodAfterDay(c, p, animalGroup) == p
  {
  }

  /**
   * The manure CH4 rate: a chicken group copies its volatile solids and derives
   * the rate from them, any other group uses the tabulated daily rate and keeps
   * zero volatile solids. Either way the CH4 is that rate for the head count.
   */
  lemma ManureMethaneRateByGroup(c: Collaborators, p: PeriodState, dateTime: Date, animalGroup: AnimalGroup, farm: Farm)
    requires ProductionPeriodDefined(c, p, animalGroup)
    requires !c.Traits.IsEggStage(animalGroup.GroupType)
    ensures var r, md := DailyEmissions(c, p, dateTime, animalGroup, farm), p.ManureDetails;
      if c.Traits.IsChickenType(animalGroup.GroupType) then
        r.VolatileSolids == md.VolatileSolids &&
        r.ManureMethaneEmissionRate == c.Base.ManureMethaneEmissionRate(
          md.VolatileSolids, md.MethaneProducingCapacityOfManure, md.MethaneConversionFactor)
      else
        r.VolatileSolids == 0.0 && r.ManureMethaneEmissionRate == md.DailyManureMethaneEmissionRate
    ensures var r := DailyEmissions(c, p, dateTime, animalGroup, farm);
      r.ManureMethaneEmission == c.Base.ManureMethane(r.ManureMethaneEmissionRate, p.NumberOfAnimals)
  {
  }

  /**
   * Turkeys take the tabulated nitrogen excretion rate; the protein balance is
   * not computed (its fields stay zero) and the selected diet is left alone.
   */
  lemma TurkeysUseTabulatedNitrogenRate(c: Collaborators, p: PeriodState, dateTime: Date, animalGroup: AnimalGroup,
                                        farm: Farm)
    requires !c.Traits.IsEggStage(animalGroup.GroupType) && c.Traits.IsTurkeyType(p.AnimalType)
    ensures var r := DailyEmissions(c, p, dateTime, animalGroup, farm);
      r.NitrogenExcretionRate == p.ManureDetails.NitrogenExretionRate &&
      r.DryMatterIntake == 0.0 && r.ProteinIntake == 0.0 && r.ProteinRetained == 0.0
    ensures PeriodAfterDay(c, p, animalGroup) == p
  {
  }

  /**
   * Other animals take the protein balance of their diet-table row: the intake
   * is the diet's dry matter times its crude protein, which is also copied to
   * the selected diet; the retained protein is the layer formula for the two
   * layer types and the broiler formula otherwise; and the excreted nitrogen,
   * as protein, is what was eaten and not retained.
   */
  lemma OthersUseProteinBalance(c: Collaborators, p: PeriodState, dateTime: Date, animalGroup: AnimalGroup, farm: Farm)
    requires ProductionPeriodDefined(c, p, animalGroup)
    requires !c.Traits.IsEggStage(animalGroup.GroupType) && !c.Traits.IsTurkeyType(p.AnimalType)
    ensures var r, diet := DailyEmissions(c, p, dateTime, animalGroup, farm), c.Diets(p.AnimalType);
      r.DryMatterIntake == diet.DailyMeanIntake &&
      r.ProteinIntake == diet.DailyMeanIntake * diet.CrudeProtein &&
      r.NitrogenExcretionRate * ProteinToNitrogen == r.ProteinIntake - r.ProteinRetained &&
      (r.NitrogenExcretionRate >= 0.0 <==> r.ProteinIntake >= r.ProteinRetained)
    ensures var r, diet := DailyEmissions(c, p, dateTime, animalGroup, farm), c.Diets(p.AnimalType);
      if IsLayer(p.AnimalType) then
        r.ProteinRetained == ProteinRetainedLayers(diet.ProteinLiveWeight, diet.WeightGain, diet.ProteinContentEgg,
                                                   diet.EggProduction)
      else
        r.ProteinRetained * diet.ProductionPeriod == (diet.FinalWeight - diet.InitialWeight) * ProteinRetainedForGain
    ensures PeriodAfterDay(c, p, animalGroup) == p.(CrudeProtein := c.Diets(p.AnimalType).CrudeProtein)
  {
  }

  /**
   * Ammonia from housing and storage: a year of each daily loss is the yearly
   * TAN times its emission factor, each emission is its loss converted to NH3,
   * and equal factors give equal housing and storage values.
   */
  lemma HousingAndStorageAmmonia(c: Collaborators, p: PeriodState, dateTime: Date, animalGroup: AnimalGroup, farm: Farm)
    requires ProductionPeriodDefined(c, p, animalGroup)
    requires !c.Traits.IsEggStage(animalGroup.GroupType)
    ensures var r, md := DailyEmissions(c, p, dateTime, animalGroup, farm), p.ManureDetails;
      365.0 * r.AmmoniaConcentrationInHousing == md.YearlyTanExcretion * p.HousingDetails.AmmoniaEmissionFactorForHousing &&
      365.0 * r.AmmoniaLostFromStorage == md.YearlyTanExcretion * md.AmmoniaEmissionFactorForManureStorage &&
      r.AmmoniaEmissionsFromHousingSystem / ConvertNH3NToNH3 == r.AmmoniaConcentrationInHousing &&
      r.AmmoniaEmissionsFromStorageSystem / ConvertNH3NToNH3 == r.AmmoniaLostFromStorage
    ensures var r, md := DailyEmissions(c, p, dateTime, animalGroup, farm), p.ManureDetails;
      p.HousingDetails.AmmoniaEmissionFactorForHousing == md.AmmoniaEmissionFactorForManureStorage ==>
        r.AmmoniaConcentrationInHousing == r.AmmoniaLostFromStorage &&
        r.AmmoniaEmissionsFromHousingSystem == r.AmmoniaEmissionsFromStorageSystem
  {
  }

  /**
   * The volatilized fraction is the custom one when the manure settings ask for
   * it, and otherwise the helper's value for the two ammonia losses and the
   * nitrogen excreted and added with bedding; the volatilization rate uses it.
   */
  lemma VolatilizedFractionChoice(c: Collaborators, p: PeriodState, dateTime: Date, animalGroup: AnimalGroup, farm: Farm)
    requires ProductionPeriodDefined(c, p, animalGroup)
    requires !c.Traits.IsEggStage(animalGroup.GroupType)
    ensures var r, md := DailyEmissions(c, p, dateTime, animalGroup, farm), p.ManureDetails;
      r.FractionOfManureVolatilized ==
        if md.UseCustomVolatilizationFraction then md.VolatilizationFraction
        else c.Base.FractionOfManureVolatilized(r.AmmoniaConcentrationInHousing, r.AmmoniaLostFromStorage,
                                                r.AmountOfNitrogenExcreted, r.AmountOfNitrogenAddedFromBedding)
    ensures var r, md := DailyEmissions(c, p, dateTime, animalGroup, farm), p.ManureDetails;
      r.ManureVolatilizationRate == c.Base.ManureVolatilizationEmissionRateNonBeefCattle(
        r.NitrogenExcretionRate, r.FractionOfManureVolatilized, md.EmissionFactorVolatilization)
  {
  }

  /**
   * The nitrogen chain of a day record: each N2O and land-application quantity
   * is its helper applied to the quantities of the same record it depends on.
   */
  predicate NitrogenChainConsistent(r: GroupEmissionsByDay, b: BaseEquations, p: PeriodState) {
    var md, hd, n := p.ManureDetails, p.HousingDetails, p.NumberOfAnimals;
    && r.AmountOfNitrogenExcreted == b.AmountOfNitrogenExcreted(r.NitrogenExcretionRate, n)
    && r.RateOfNitrogenAddedFromBeddingMaterial == b.RateOfNitrogenAddedFromBeddingMaterial(
         hd.UserDefinedBeddingRate, hd.TotalNitrogenKilogramsDryMatterForBedding, hd.BeddingMaterialType)
    && r.AmountOfNitrogenAddedFromBedding == b.AmountOfNitrogenAddedFromBeddingMaterial(r.RateOfNitrogenAddedFromBeddingMaterial, n)
    && r.ManureDirectN2ONEmissionRate == b.ManureDirectNitrogenEmissionRate(r.NitrogenExcretionRate, md.N2ODirectEmissionFactor)
    && r.ManureDirectN2ONEmission == b.ManureDirectNitrogenEmission(r.ManureDirectN2ONEmissionRate, n)
    && r.ManureVolatilizationN2ONEmission == b.ManureVolatilizationNitrogenEmission(r.ManureVolatilizationRate, n)
    && r.ManureNitrogenLeachingRate == b.ManureLeachingNitrogenEmissionRate(
         r.NitrogenExcretionRate, md.LeachingFraction, md.EmissionFactorLeaching)
    && r.ManureN2ONLeachingEmission == b.ManureLeachingNitrogenEmission(r.ManureNitrogenLeachingRate, n)
    && r.ManureIndirectN2ONEmission == b.ManureIndirectNitrogenEmission(
         r.ManureVolatilizationN2ONEmission, r.ManureN2ONLeachingEmission)
    && r.ManureN2ONEmission == b.ManureNitrogenEmission(r.ManureDirectN2ONEmission, r.ManureIndirectN2ONEmission)
    && r.NitrogenAvailableForLandApplication == b.TotalAvailableManureNitrogenInStoredManure(
         r.AmountOfNitrogenExcreted, r.AmountOfNitrogenAddedFromBedding, r.ManureDirectN2ONEmission,
         r.ManureIndirectN2ONEmission)
    && r.ManureCarbonNitrogenRatio == b.ManureCarbonToNitrogenRatio(
         r.AmountOfCarbonInStoredManure, r.NitrogenAvailableForLandApplication)
    && r.TotalVolumeOfManureAvailableForLandApplication == b.TotalVolumeOfManureAvailableForLandApplication(
         r.NitrogenAvailableForLandApplication, md.FractionOfNitrogenInManure)
  }

  /** The carbon chain of a day record, likewise. */
  predicate CarbonChainConsistent(r: GroupEmissionsByDay, b: BaseEquations, p: PeriodState) {
    var md, hd, n := p.ManureDetails, p.HousingDetails, p.NumberOfAnimals;
    && r.EntericMethaneEmission == b.EntericMethaneEmissionForSwinePoultryAndOtherLivestock(md.YearlyEntericMethaneRate, n)
    && r.FecalCarbonExcretionRate == b.FecalCarbonExcretionRateForSheepPoultryAndOtherLivestock(
         md.ManureExcretionRate, md.FractionOfCarbonInManure)
    && r.FecalCarbonExcretion == b.AmountOfFecalCarbonExcreted(r.FecalCarbonExcretionRate, n)
    && r.RateOfCarbonAddedFromBeddingMaterial == b.RateOfCarbonAddedFromBeddingMaterial(
         hd.UserDefinedBeddingRate, hd.TotalCarbonKilogramsDryMatterForBedding, hd.BeddingMaterialType)
    && r.CarbonAddedFromBeddingMaterial == b.AmountOfCarbonAddedFromBeddingMaterial(r.RateOfCarbonAddedFromBeddingMaterial, n)
    && r.CarbonFromManureAndBedding == b.AmountOfCarbonFromManureAndBedding(r.FecalCarbonExcretion, r.CarbonAddedFromBeddingMaterial)
    && r.ManureMethaneEmission == b.ManureMethane(r.ManureMethaneEmissionRate, n)
    && r.AmountOfCarbonLostAsMethaneDuringManagement == b.CarbonLostAsMethaneDuringManagement(r.ManureMethaneEmission)
    && r.AmountOfCarbonInStoredManure == b.AmountOfCarbonInStoredManure(
         r.FecalCarbonExcretion, r.CarbonAddedFromBeddingMaterial, r.AmountOfCarbonLostAsMethaneDuringManagement)
  }

  /**
   * A day record that is computed at all is consistent: every derived quantity
   * is its equation applied to the quantities it depends on, as they stand in
   * the finished record.
   */
  lemma DailyRecordConsistent(c: Collaborators, p: PeriodState, dateTime: Date, animalGroup: AnimalGroup, farm: Farm)
    requires ProductionPeriodDefined(c, p, animalGroup)
    requires !c.Traits.IsEggStage(animalGroup.GroupType)
    ensures CarbonChainConsistent(DailyEmissions(c, p, dateTime, animalGroup, farm), c.Base, p)
    ensures NitrogenChainConsistent(DailyEmissions(c, p, dateTime, animalGroup, farm), c.Base, p)
  {
  }

  /**
   * The ammonia from land-applied manure is the helper's value for the record
   * as it stood before that field was set (every other field final, the field
   * itself still zero) and for the period after its diet was overwritten.
   */
  lemma LandAppliedAmmoniaSeesRecord(c: Collaborators, p: PeriodState, dateTime: Date, animalGroup: AnimalGroup, farm: Farm)
    requires ProductionPeriodDefined(c, p, animalGroup)
    requires !c.Traits.IsEggStage(animalGroup.GroupType)
    ensures var r := DailyEmissions(c, p, dateTime, animalGroup, farm);
      r.AmmoniaEmissionsFromLandAppliedManure == c.Base.TotalAmmoniaEmissionsFromLandAppliedManure(
        farm, dateTime, r.(AmmoniaEmissionsFromLandAppliedManure := 0.0), animalGroup.GroupType,
        farm.MeanTemperatureForMonth(dateTime.Month), PeriodAfterDay(c, p, animalGroup))
  {
  }

  /**
   * A day is a fixed point: computing it again on the period it left behind
   * gives the same record and the same period.
   */
  lemma RepeatingADayChangesNothing(c: Collaborators, p: PeriodState, dateTime: Date,
                                      animalGroup: AnimalGroup, farm: Farm)
    requires ProductionPeriodDefined(c, p, animalGroup)
    ensures ProductionPeriodDefined(c, PeriodAfterDay(c, p, animalGroup), animalGroup)
    ensures PeriodAfterDay(c, PeriodAfterDay(c, p, animalGroup), animalGroup) == PeriodAfterDay(c, p, animalGroup)
    ensures DailyEmissions(c, PeriodAfterDay(c, p, animalGroup), dateTime, animalGroup, farm)
         == DailyEmissions(c, p, dateTime, animalGroup, farm)
  {
  }

  /** The energy step leaves the monthly energy CO2 of an egg-stage period as it was. */
  lemma EggStagesUseNoEnergy(c: Collaborators, animalType: AnimalType, numberOfAnimals: real, year: int,
                             daysInMonth: real, farm: Farm, previous: real)
    requires c.Traits.IsEggs(animalType) || c.Traits.IsNewlyHatchedEggs(animalType)
    ensures MonthlyEnergyAfter(c, animalType, numberOfAnimals, year, daysInMonth, farm, previous) == previous
  {
  }

  /**
   * For any other period the monthly energy CO2 does not depend on its previous
   * value, a full year of it is the yearly electricity per placement converted
   * for the year and province times the head count, and it adds up over head
   * counts and over days.
   */
  lemma MonthlyEnergyOfOtherPeriods(c: Collaborators, animalType: AnimalType, n1: real, n2: real, year: int,
                                    days1: real, days2: real, farm: Farm, previous: real)
    requires !c.Traits.IsEggStage(animalType)
    ensures MonthlyEnergyAfter(c, animalType, n1, year, days1, farm, previous)
         == MonthlyEnergyAfter(c, animalType, n1, year, days1, farm, 0.0)
    ensures MonthlyEnergyAfter(c, animalType, n1, year, DaysInYear, farm, previous)
         == n1 * PoultryConversion * c.ElectricityConversion(year, farm.Province)
    ensures MonthlyEnergyAfter(c, animalType, n1 + n2, year, days1, farm, previous)
         == MonthlyEnergyAfter(c, animalType, n1, year, days1, farm, previous)
          + MonthlyEnergyAfter(c, animalType, n2, year, days1, farm, previous)
    ensures MonthlyEnergyAfter(c, animalType, n1, year, days1 + days2, farm, previous)
         == MonthlyEnergyAfter(c, animalType, n1, year, days1, farm, previous)
          + MonthlyEnergyAfter(c, animalType, n1, year, days2, farm, previous)
  {
    EnergyAdditive(n1, n2, days1, days2, c.ElectricityConversion(year, farm.Province));
    FullYearIsYearlyRate(0.0, n1, c.ElectricityConversion(year, farm.Province));
  }
}
