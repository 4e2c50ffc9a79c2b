/**
 * The poultry results service: the daily emission record of a poultry group
 * (`CalculateDailyEmissions`) and the monthly energy CO2 (`CalculateEnergyEmissions`).
 *
 * Each method is proved against a specification function: `DailyEmissions`
 * (with `PeriodAfterDay` for the diet it overwrites) and `MonthlyEnergyAfter`.
 * The helpers that the service inherits from its base class, the diet table,
 * the animal-type classification and the electricity conversion table lie
 * outside the modelled code; they are the function-valued fields of
 * `Collaborators`, so the proofs hold for every choice of them and state
 * which helper each branch uses, and with which arguments.
 */
module PoultryResultsService {
  import opened PoultryModel
  import opened PoultryEquations

  /** The shared equations of the animal results base class, left uninterpreted. */
  datatype BaseEquations = BaseEquations(
    EntericMethaneEmissionForSwinePoultryAndOtherLivestock: (real, real) -> real,
    FecalCarbonExcretionRateForSheepPoultryAndOtherLivestock: (real, real) -> real,
    AmountOfFecalCarbonExcreted: (real, real) -> real,
    RateOfCarbonAddedFromBeddingMaterial: (real, real, BeddingMaterialType) -> real,
    AmountOfCarbonAddedFromBeddingMaterial: (real, real) -> real,
    AmountOfCarbonFromManureAndBedding: (real, real) -> real,
    ManureMethaneEmissionRate: (real, real, real) -> real,
    ManureMethane: (real, real) -> real,
    CarbonLostAsMethaneDuringManagement: real -> real,
    AmountOfCarbonInStoredManure: (real, real, real) -> real,
    AmountOfNitrogenExcreted: (real, real) -> real,
    RateOfNitrogenAddedFromBeddingMaterial: (real, real, BeddingMaterialType) -> real,
    AmountOfNitrogenAddedFromBeddingMaterial: (real, real) -> real,
    ManureDirectNitrogenEmissionRate: (real, real) -> real,
    ManureDirectNitrogenEmission: (real, real) -> real,
    FractionOfManureVolatilized: (real, real, real, real) -> real,
    ManureVolatilizationEmissionRateNonBeefCattle: (real, real, real) -> real,
    ManureVolatilizationNitrogenEmission: (real, real) -> real,
    ManureLeachingNitrogenEmissionRate: (real, real, real) -> real,
    ManureLeachingNitrogenEmission: (real, real) -> real,
    ManureIndirectNitrogenEmission: (real, real) -> real,
    ManureNitrogenEmission: (real, real) -> real,
    TotalAvailableManureNitrogenInStoredManure: (real, real, real, real) -> real,
    ManureCarbonToNitrogenRatio: (real, real) -> real,
    TotalVolumeOfManureAvailableForLandApplication: (real, real) -> real,
    TotalAmmoniaEmissionsFromLandAppliedManure: (Farm, Date, GroupEmissionsByDay, AnimalType, real, PeriodState) -> real)

  /** Everything the service consults besides its own equations. */
  datatype Collaborators = Collaborators(
    Base: BaseEquations,
    Traits: AnimalTypeTraits,
    /** The poultry diet table, keyed by animal type. */
    Diets: AnimalType -> PoultryDietData,
    /** Electricity conversion factor by year and province. */
    ElectricityConversion: (int, string) -> real)

  /** The broiler protein formula divides by the production period; this is what makes it defined. */
  predicate ProductionPeriodDefined(c: Collaborators, p: PeriodState, animalGroup: AnimalGroup) {
    (!c.Traits.IsEggStage(animalGroup.GroupType) && !c.Traits.IsTurkeyType(p.AnimalType) && !IsLayer(p.AnimalType))
      ==> c.Diets(p.AnimalType).ProductionPeriod != 0.0
  }

  /**
   * The management period after a day was computed: for a group that is not an
   * egg stage and a period whose animals are not turkeys, the selected diet's
   * crude protein is replaced by the diet table's.
   */
  function PeriodAfterDay(c: Collaborators, p: PeriodState, animalGroup: AnimalGroup): PeriodState {
    if c.Traits.IsEggStage(animalGroup.GroupType) || c.Traits.IsTurkeyType(p.AnimalType) then p
    else p.(CrudeProtein := c.Diets(p.AnimalType).CrudeProtein)
  }

  // ---------------------------------------------------------------------------
  // The daily chain, one stage per section of the calculation. Each stage sets
  // the fields of its section and reads the fields earlier stages have set.
  // ---------------------------------------------------------------------------

  /** Enteric CH4 and manure and bedding carbon (Eqns. 3.4.1-1, 4.1.1-3 to 4.1.1-7). */
  function WithEntericAndCarbon(d: GroupEmissionsByDay, b: BaseEquations, p: PeriodState): GroupEmissionsByDay {
    var md, hd, n := p.ManureDetails, p.HousingDetails, p.NumberOfAnimals;
    var fecalRate := b.FecalCarbonExcretionRateForSheepPoultryAndOtherLivestock(md.ManureExcretionRate, md.FractionOfCarbonInManure);
    var fecal := b.AmountOfFecalCarbonExcreted(fecalRate, n);
    var beddingRate := b.RateOfCarbonAddedFromBeddingMaterial(
      hd.UserDefinedBeddingRate, hd.TotalCarbonKilogramsDryMatterForBedding, hd.BeddingMaterialType);
    var bedding := b.AmountOfCarbonAddedFromBeddingMaterial(beddingRate, n);
    d.(EntericMethaneEmission := b.EntericMethaneEmissionForSwinePoultryAndOtherLivestock(md.YearlyEntericMethaneRate, n),
       FecalCarbonExcretionRate := fecalRate,
       FecalCarbonExcretion := fecal,
       RateOfCarbonAddedFromBeddingMaterial := beddingRate,
       CarbonAddedFromBeddingMaterial := bedding,
       CarbonFromManureAndBedding := b.AmountOfCarbonFromManureAndBedding(fecal, bedding))
  }

  /**
   * Manure CH4 and the carbon left in stored manure (Eqns. 4.1.2-5, 4.1.3-13,
   * 4.1.3-14). Chicken groups copy their volatile solids and derive the rate
   * from them; other groups use the constant daily rate.
   */
  function WithManureMethane(d: GroupEmissionsByDay, b: BaseEquations, p: PeriodState, isChicken: bool): GroupEmissionsByDay {
    var md, n := p.ManureDetails, p.NumberOfAnimals;
    var d' := if isChicken
      then d.(VolatileSolids := md.VolatileSolids,
              ManureMethaneEmissionRate := b.ManureMethaneEmissionRate(
                md.VolatileSolids, md.MethaneProducingCapacityOfManure, md.MethaneConversionFactor))
      else d.(ManureMethaneEmissionRate := md.DailyManureMethaneEmissionRate);
    var methane := b.ManureMethane(d'.ManureMethaneEmissionRate, n);
    var lost := b.CarbonLostAsMethaneDuringManagement(methane);
    d'.(ManureMethaneEmission := methane,
        AmountOfCarbonLostAsMethaneDuringManagement := lost,
        AmountOfCarbonInStoredManure := b.AmountOfCarbonInStoredManure(
          d'.FecalCarbonExcretion, d'.CarbonAddedFromBeddingMaterial, lost))
  }

  /**
   * The nitrogen excretion rate (Eqns. 4.2.1-24 to 4.2.1-28). Turkeys take the
   * tabulated rate; other animals the protein balance of their diet-table row,
   * with the layer or the broiler formula for protein retained.
   */
  function WithNitrogenExcretionRate(d: GroupEmissionsByDay, p: PeriodState, isTurkey: bool, diet: PoultryDietData): GroupEmissionsByDay
    requires !isTurkey && !IsLayer(p.AnimalType) ==> diet.ProductionPeriod != 0.0
  {
    if isTurkey then d.(NitrogenExcretionRate := p.ManureDetails.NitrogenExretionRate)
    else
      var intake := ProteinIntakePoultry(diet.DailyMeanIntake, diet.CrudeProtein);
      var retained := if IsLayer(p.AnimalType)
        then ProteinRetainedLayers(diet.ProteinLiveWeight, diet.WeightGain, diet.ProteinContentEgg, diet.EggProduction)
        else ProteinRetainedBroilers(diet.InitialWeight, diet.FinalWeight, diet.ProductionPeriod);
      d.(DryMatterIntake := diet.DailyMeanIntake,
         ProteinIntake := intake,
         ProteinRetained := retained,
         NitrogenExcretionRate := NitrogenExcretionRateChickens(intake, retained))
  }

  /** Nitrogen excreted, nitrogen from bedding and direct N2O (Eqns. 4.2.1-29 to 4.2.1-31, 4.2.2-1, 4.2.2-2). */
  function WithDirectNitrogen(d: GroupEmissionsByDay, b: BaseEquations, p: PeriodState): GroupEmissionsByDay {
    var md, hd, n := p.ManureDetails, p.HousingDetails, p.NumberOfAnimals;
    var beddingRate := b.RateOfNitrogenAddedFromBeddingMaterial(
      hd.UserDefinedBeddingRate, hd.TotalNitrogenKilogramsDryMatterForBedding, hd.BeddingMaterialType);
    var directRate := b.ManureDirectNitrogenEmissionRate(d.NitrogenExcretionRate, md.N2ODirectEmissionFactor);
    d.(AmountOfNitrogenExcreted := b.AmountOfNitrogenExcreted(d.NitrogenExcretionRate, n),
       RateOfNitrogenAddedFromBeddingMaterial := beddingRate,
       AmountOfNitrogenAddedFromBedding := b.AmountOfNitrogenAddedFromBeddingMaterial(beddingRate, n),
       ManureDirectN2ONEmissionRate := directRate,
       ManureDirectN2ONEmission := b.ManureDirectNitrogenEmission(directRate, n))
  }

  /**
   * Ammonia from housing and storage and the volatilization N2O (Eqns. 4.3.3-1
   * to 4.3.3-4). The volatilized fraction is the custom one when the manure
   * settings ask for it, otherwise derived from the two ammonia losses and the
   * nitrogen excreted and added with bedding.
   */
  function WithVolatilization(d: GroupEmissionsByDay, b: BaseEquations, p: PeriodState): GroupEmissionsByDay {
    var md, hd, n := p.ManureDetails, p.HousingDetails, p.NumberOfAnimals;
    var housing := AmmoniaLossFromHousing(md.YearlyTanExcretion, hd.AmmoniaEmissionFactorForHousing);
    var storage := AmmoniaLossFromStorage(md.YearlyTanExcretion, md.AmmoniaEmissionFactorForManureStorage);
    var fraction := if md.UseCustomVolatilizationFraction
      then md.VolatilizationFraction
      else b.FractionOfManureVolatilized(housing, storage, d.AmountOfNitrogenExcreted, d.AmountOfNitrogenAddedFromBedding);
    var rate := b.ManureVolatilizationEmissionRateNonBeefCattle(d.NitrogenExcretionRate, fraction, md.EmissionFactorVolatilization);
    d.(AmmoniaConcentrationInHousing := housing,
       AmmoniaEmissionsFromHousingSystem := AmmoniaEmissionsFromHousing(housing),
       AmmoniaLostFromStorage := storage,
       AmmoniaEmissionsFromStorageSystem := AmmoniaEmissionsFromStorage(storage),
       FractionOfManureVolatilized := fraction,
       ManureVolatilizationRate := rate,
       ManureVolatilizationN2ONEmission := b.ManureVolatilizationNitrogenEmission(rate, n))
  }

  /** Leaching N2O and the indirect and total manure N2O (Eqns. 4.3.4-1, 4.3.4-2, 4.3.5-1, 4.3.7-1). */
  function WithLeachingAndTotals(d: GroupEmissionsByDay, b: BaseEquations, p: PeriodState): GroupEmissionsByDay {
    var md, n := p.ManureDetails, p.NumberOfAnimals;
    var rate := b.ManureLeachingNitrogenEmissionRate(d.NitrogenExcretionRate, md.LeachingFraction, md.EmissionFactorLeaching);
    var leaching := b.ManureLeachingNitrogenEmission(rate, n);
    var indirect := b.ManureIndirectNitrogenEmission(d.ManureVolatilizationN2ONEmission, leaching);
    d.(ManureNitrogenLeachingRate := rate,
       ManureN2ONLeachingEmission := leaching,
       ManureIndirectN2ONEmission := indirect,
       ManureN2ONEmission := b.ManureNitrogenEmission(d.ManureDirectN2ONEmission, indirect))
  }

  /**
   * Nitrogen and manure available for land application and the carbon to
   * nitrogen ratio (Eqns. 4.5.2-6, 4.5.3-1, 4.5.3-2), then the ammonia from
   * land-applied manure (Eqn. 4.6.2-2), whose helper sees the record so far.
   */
  function WithLandApplication(d: GroupEmissionsByDay, b: BaseEquations, p: PeriodState, farm: Farm, dateTime: Date,
                               groupType: AnimalType, temperature: real): GroupEmissionsByDay {
    var available := b.TotalAvailableManureNitrogenInStoredManure(
      d.AmountOfNitrogenExcreted, d.AmountOfNitrogenAddedFromBedding, d.ManureDirectN2ONEmission, d.ManureIndirectN2ONEmission);
    var d' := d.(NitrogenAvailableForLandApplication := available,
                 ManureCarbonNitrogenRatio := b.ManureCarbonToNitrogenRatio(d.AmountOfCarbonInStoredManure, available),
                 TotalVolumeOfManureAvailableForLandApplication := b.TotalVolumeOfManureAvailableForLandApplication(
                   available, p.ManureDetails.FractionOfNitrogenInManure));
    d'.(AmmoniaEmissionsFromLandAppliedManure := b.TotalAmmoniaEmissionsFromLandAppliedManure(
      farm, dateTime, d', groupType, temperature, p))
  }

  /**
   * The day record of a poultry group: the zero record for egg stages of the
   * group type, otherwise the stages above applied in order to the zero record.
   * The land-application stage sees the period after the diet was overwritten.
   */
  function DailyEmissions(c: Collaborators, p: PeriodState, dateTime: Date, animalGroup: AnimalGroup, farm: Farm): GroupEmissionsByDay
    requires ProductionPeriodDefined(c, p, animalGroup)
  {
    if c.Traits.IsEggStage(animalGroup.GroupType) then ZeroDay
    else
      var carbon := WithEntericAndCarbon(ZeroDay, c.Base, p);
      var methane := WithManureMethane(carbon, c.Base, p, c.Traits.IsChickenType(animalGroup.GroupType));
      var excretion := WithNitrogenExcretionRate(methane, p, c.Traits.IsTurkeyType(p.AnimalType), c.Diets(p.AnimalType));
      var direct := WithDirectNitrogen(excretion, c.Base, p);
      var volatilization := WithVolatilization(direct, c.Base, p);
      var leaching := WithLeachingAndTotals(volatilization, c.Base, p);
      WithLandApplication(leaching, c.Base, PeriodAfterDay(c, p, animalGroup), farm, dateTime, animalGroup.GroupType,
                          farm.MeanTemperatureForMonth(dateTime.Month))
  }

  /**
   * Builds the day record of a poultry group on a fresh zero record, section by
   * section, and overwrites the crude protein of the period's selected diet when
   * the protein balance is used. The previous day's record is not read.
   */
  method CalculateDailyEmissions(c: Collaborators, managementPeriod: ManagementPeriod, dateTime: Date,
                                 previousDaysEmissions: GroupEmissionsByDay, animalGroup: AnimalGroup, farm: Farm)
    returns (dailyEmissions: GroupEmissionsByDay)
    requires ProductionPeriodDefined(c, managementPeriod.State(), animalGroup)
    modifies managementPeriod.SelectedDiet
    ensures dailyEmissions == DailyEmissions(c, old(managementPeriod.State()), dateTime, animalGroup, farm)
    ensures managementPeriod.State() == PeriodAfterDay(c, old(managementPeriod.State()), animalGroup)
  {
    dailyEmissions := ZeroDay;
    var temperature := farm.MeanTemperatureForMonth(dateTime.Month);

    if c.Traits.IsNewlyHatchedEggs(animalGroup.GroupType) || c.Traits.IsEggs(animalGroup.GroupType) {
      return;
    }

    var period := managementPeriod.State();
    dailyEmissions := CalculateEntericAndCarbon(dailyEmissions, c.Base, period);
    dailyEmissions := CalculateManureMethane(dailyEmissions, c.Base, period, c.Traits.IsChickenType(animalGroup.GroupType));

    dailyEmissions := CalculateNitrogenExcretionRate(c, managementPeriod, dailyEmissions);
    dailyEmissions := CalculateDirectNitrogen(dailyEmissions, c.Base, period);
    dailyEmissions := CalculateVolatilization(dailyEmissions, c.Base, period);
    dailyEmissions := CalculateLeachingAndTotals(dailyEmissions, c.Base, period);
    dailyEmissions := CalculateLandApplication(dailyEmissions, c.Base, managementPeriod.State(), farm, dateTime,
                                               animalGroup.GroupType, temperature);
  }

  /** Enteric methane (Eqn. 3.4.1-1) and manure carbon (Eqns. 4.1.1-3 to 4.1.1-7), field by field. */
  method CalculateEntericAndCarbon(d: GroupEmissionsByDay, b: BaseEquations, p: PeriodState)
    returns (dailyEmissions: GroupEmissionsByDay)
    ensures dailyEmissions == WithEntericAndCarbon(d, b, p)
  {
    var md, hd, n := p.ManureDetails, p.HousingDetails, p.NumberOfAnimals;
    dailyEmissions := d;
    dailyEmissions := dailyEmissions.(EntericMethaneEmission :=
      b.EntericMethaneEmissionForSwinePoultryAndOtherLivestock(md.YearlyEntericMethaneRate, n));
    dailyEmissions := dailyEmissions.(FecalCarbonExcretionRate :=
      b.FecalCarbonExcretionRateForSheepPoultryAndOtherLivestock(md.ManureExcretionRate, md.FractionOfCarbonInManure));
    dailyEmissions := dailyEmissions.(FecalCarbonExcretion :=
      b.AmountOfFecalCarbonExcreted(dailyEmissions.FecalCarbonExcretionRate, n));
    dailyEmissions := dailyEmissions.(RateOfCarbonAddedFromBeddingMaterial := b.RateOfCarbonAddedFromBeddingMaterial(
      hd.UserDefinedBeddingRate, hd.TotalCarbonKilogramsDryMatterForBedding, hd.BeddingMaterialType));
    dailyEmissions := dailyEmissions.(CarbonAddedFromBeddingMaterial :=
      b.AmountOfCarbonAddedFromBeddingMaterial(dailyEmissions.RateOfCarbonAddedFromBeddingMaterial, n));
    dailyEmissions := dailyEmissions.(CarbonFromManureAndBedding :=
      b.AmountOfCarbonFromManureAndBedding(dailyEmissions.FecalCarbonExcretion, dailyEmissions.CarbonAddedFromBeddingMaterial));
  }

  /** Manure CH4 and the carbon left in stored manure (Eqns. 4.1.2-5, 4.1.3-13, 4.1.3-14), field by field. */
  method CalculateManureMethane(d: GroupEmissionsByDay, b: BaseEquations, p: PeriodState, isChicken: bool)
    returns (dailyEmissions: GroupEmissionsByDay)
    ensures dailyEmissions == WithManureMethane(d, b, p, isChicken)
  {
    var md, n := p.ManureDetails, p.NumberOfAnimals;
    dailyEmissions := d;
    if isChicken {
      // chickens: the rate comes from volatile solids
      dailyEmissions := dailyEmissions.(VolatileSolids := md.VolatileSolids);
      dailyEmissions := dailyEmissions.(ManureMethaneEmissionRate := b.ManureMethaneEmissionRate(
        dailyEmissions.VolatileSolids, md.MethaneProducingCapacityOfManure, md.MethaneConversionFactor));
    } else {
      // turkeys: a constant rate
      dailyEmissions := dailyEmissions.(ManureMethaneEmissionRate := md.DailyManureMethaneEmissionRate);
    }
    dailyEmissions := dailyEmissions.(ManureMethaneEmission := b.ManureMethane(dailyEmissions.ManureMethaneEmissionRate, n));
    dailyEmissions := dailyEmissions.(AmountOfCarbonLostAsMethaneDuringManagement :=
      b.CarbonLostAsMethaneDuringManagement(dailyEmissions.ManureMethaneEmission));
    dailyEmissions := dailyEmissions.(AmountOfCarbonInStoredManure := b.AmountOfCarbonInStoredManure(
      dailyEmissions.FecalCarbonExcretion, dailyEmissions.CarbonAddedFromBeddingMaterial,
      dailyEmissions.AmountOfCarbonLostAsMethaneDuringManagement));
  }

  /**
   * The nitrogen excretion rate (Eqns. 4.2.1-24 to 4.2.1-28), field by field.
   * For animals other than turkeys it first copies the diet table's crude
   * protein into the period's selected diet and reads it back from there.
   */
  method CalculateNitrogenExcretionRate(c: Collaborators, managementPeriod: ManagementPeriod, d: GroupEmissionsByDay)
    returns (dailyEmissions: GroupEmissionsByDay)
    requires var p := managementPeriod.State();
      !c.Traits.IsTurkeyType(p.AnimalType) && !IsLayer(p.AnimalType) ==> c.Diets(p.AnimalType).ProductionPeriod != 0.0
    modifies managementPeriod.SelectedDiet
    ensures var p := old(managementPeriod.State());
      dailyEmissions == WithNitrogenExcretionRate(d, p, c.Traits.IsTurkeyType(p.AnimalType), c.Diets(p.AnimalType))
    ensures var p := old(managementPeriod.State());
      managementPeriod.State() == if c.Traits.IsTurkeyType(p.AnimalType) then p
                                  else p.(CrudeProtein := c.Diets(p.AnimalType).CrudeProtein)
  {
    dailyEmissions := d;
    if c.Traits.IsTurkeyType(managementPeriod.AnimalType) {
      // turkeys: the tabulated rate (Eqn. 4.2.1-24)
      dailyEmissions := dailyEmissions.(NitrogenExcretionRate := managementPeriod.ManureDetails.NitrogenExretionRate);
    } else {
      // chickens: the protein balance (Eqns. 4.2.1-25 to 4.2.1-28)
      var poultryDietData := c.Diets(managementPeriod.AnimalType);
      dailyEmissions := dailyEmissions.(DryMatterIntake := poultryDietData.DailyMeanIntake);
      managementPeriod.SelectedDiet.CrudeProtein := poultryDietData.CrudeProtein;
      dailyEmissions := dailyEmissions.(ProteinIntake :=
        ProteinIntakePoultry(dailyEmissions.DryMatterIntake, managementPeriod.SelectedDiet.CrudeProtein));
      if managementPeriod.AnimalType == LayersDryPoultry || managementPeriod.AnimalType == LayersWetPoultry {
        dailyEmissions := dailyEmissions.(ProteinRetained := ProteinRetainedLayers(
          poultryDietData.ProteinLiveWeight, poultryDietData.WeightGain,
          poultryDietData.ProteinContentEgg, poultryDietData.EggProduction));
      } else {
        dailyEmissions := dailyEmissions.(ProteinRetained := ProteinRetainedBroilers(
          poultryDietData.InitialWeight, poultryDietData.FinalWeight, poultryDietData.ProductionPeriod));
      }
      dailyEmissions := dailyEmissions.(NitrogenExcretionRate :=
        NitrogenExcretionRateChickens(dailyEmissions.ProteinIntake, dailyEmissions.ProteinRetained));
    }
  }

  /** Nitrogen excreted and added with bedding, and direct N2O (Eqns. 4.2.1-29 to 4.2.1-31, 4.2.2-1, 4.2.2-2). */
  method CalculateDirectNitrogen(d: GroupEmissionsByDay, b: BaseEquations, p: PeriodState)
    returns (dailyEmissions: GroupEmissionsByDay)
    ensures dailyEmissions == WithDirectNitrogen(d, b, p)
  {
    var md, hd, n := p.ManureDetails, p.HousingDetails, p.NumberOfAnimals;
    dailyEmissions := d;
    dailyEmissions := dailyEmissions.(AmountOfNitrogenExcreted := b.AmountOfNitrogenExcreted(dailyEmissions.NitrogenExcretionRate, n));
    dailyEmissions := dailyEmissions.(RateOfNitrogenAddedFromBeddingMaterial := b.RateOfNitrogenAddedFromBeddingMaterial(
      hd.UserDefinedBeddingRate, hd.TotalNitrogenKilogramsDryMatterForBedding, hd.BeddingMaterialType));
    dailyEmissions := dailyEmissions.(AmountOfNitrogenAddedFromBedding :=
      b.AmountOfNitrogenAddedFromBeddingMaterial(dailyEmissions.RateOfNitrogenAddedFromBeddingMaterial, n));
    dailyEmissions := dailyEmissions.(ManureDirectN2ONEmissionRate :=
      b.ManureDirectNitrogenEmissionRate(dailyEmissions.NitrogenExcretionRate, md.N2ODirectEmissionFactor));
    dailyEmissions := dailyEmissions.(ManureDirectN2ONEmission :=
      b.ManureDirectNitrogenEmission(dailyEmissions.ManureDirectN2ONEmissionRate, n));
  }

  /** Ammonia from housing and storage and the volatilization N2O (Eqns. 4.3.3-1 to 4.3.3-4), field by field. */
  method CalculateVolatilization(d: GroupEmissionsByDay, b: BaseEquations, p: PeriodState)
    returns (dailyEmissions: GroupEmissionsByDay)
    ensures dailyEmissions == WithVolatilization(d, b, p)
  {
    var md, hd, n := p.ManureDetails, p.HousingDetails, p.NumberOfAnimals;
    dailyEmissions := d;
    dailyEmissions := dailyEmissions.(AmmoniaConcentrationInHousing :=
      AmmoniaLossFromHousing(md.YearlyTanExcretion, hd.AmmoniaEmissionFactorForHousing));
    dailyEmissions := dailyEmissions.(AmmoniaEmissionsFromHousingSystem :=
      AmmoniaEmissionsFromHousing(dailyEmissions.AmmoniaConcentrationInHousing));
    dailyEmissions := dailyEmissions.(AmmoniaLostFromStorage :=
      AmmoniaLossFromStorage(md.YearlyTanExcretion, md.AmmoniaEmissionFactorForManureStorage));
    dailyEmissions := dailyEmissions.(AmmoniaEmissionsFromStorageSystem :=
      AmmoniaEmissionsFromStorage(dailyEmissions.AmmoniaLostFromStorage));
    if md.UseCustomVolatilizationFraction {
      dailyEmissions := dailyEmissions.(FractionOfManureVolatilized := md.VolatilizationFraction);
    } else {
      dailyEmissions := dailyEmissions.(FractionOfManureVolatilized := b.FractionOfManureVolatilized(
        dailyEmissions.AmmoniaConcentrationInHousing, dailyEmissions.AmmoniaLostFromStorage,
        dailyEmissions.AmountOfNitrogenExcreted, dailyEmissions.AmountOfNitrogenAddedFromBedding));
    }
    dailyEmissions := dailyEmissions.(ManureVolatilizationRate := b.ManureVolatilizationEmissionRateNonBeefCattle(
      dailyEmissions.NitrogenExcretionRate, dailyEmissions.FractionOfManureVolatilized, md.EmissionFactorVolatilization));
    dailyEmissions := dailyEmissions.(ManureVolatilizationN2ONEmission :=
      b.ManureVolatilizationNitrogenEmission(dailyEmissions.ManureVolatilizationRate, n));
  }

  /** Leaching N2O (Eqns. 4.3.4-1, 4.3.4-2) and the indirect and total manure N2O (Eqns. 4.3.5-1, 4.3.7-1). */
  method CalculateLeachingAndTotals(d: GroupEmissionsByDay, b: BaseEquations, p: PeriodState)
    returns (dailyEmissions: GroupEmissionsByDay)
    ensures dailyEmissions == WithLeachingAndTotals(d, b, p)
  {
    var md, n := p.ManureDetails, p.NumberOfAnimals;
    dailyEmissions := d;
    dailyEmissions := dailyEmissions.(ManureNitrogenLeachingRate := b.ManureLeachingNitrogenEmissionRate(
      dailyEmissions.NitrogenExcretionRate, md.LeachingFraction, md.EmissionFactorLeaching));
    dailyEmissions := dailyEmissions.(ManureN2ONLeachingEmission :=
      b.ManureLeachingNitrogenEmission(dailyEmissions.ManureNitrogenLeachingRate, n));
    dailyEmissions := dailyEmissions.(ManureIndirectN2ONEmission := b.ManureIndirectNitrogenEmission(
      dailyEmissions.ManureVolatilizationN2ONEmission, dailyEmissions.ManureN2ONLeachingEmission));
    dailyEmissions := dailyEmissions.(ManureN2ONEmission :=
      b.ManureNitrogenEmission(dailyEmissions.ManureDirectN2ONEmission, dailyEmissions.ManureIndirectN2ONEmission));
  }

  /** Land application (Eqns. 4.5.2-6, 4.5.3-1, 4.5.3-2) and the ammonia from land-applied manure (Eqn. 4.6.2-2). */
  method CalculateLandApplication(d: GroupEmissionsByDay, b: BaseEquations, p: PeriodState, farm: Farm, dateTime: Date,
                                  groupType: AnimalType, temperature: real)
    returns (dailyEmissions: GroupEmissionsByDay)
    ensures dailyEmissions == WithLandApplication(d, b, p, farm, dateTime, groupType, temperature)
  {
    dailyEmissions := d;
    dailyEmissions := dailyEmissions.(NitrogenAvailableForLandApplication := b.TotalAvailableManureNitrogenInStoredManure(
      dailyEmissions.AmountOfNitrogenExcreted, dailyEmissions.AmountOfNitrogenAddedFromBedding,
      dailyEmissions.ManureDirectN2ONEmission, dailyEmissions.ManureIndirectN2ONEmission));
    dailyEmissions := dailyEmissions.(ManureCarbonNitrogenRatio := b.ManureCarbonToNitrogenRatio(
      dailyEmissions.AmountOfCarbonInStoredManure, dailyEmissions.NitrogenAvailableForLandApplication));
    dailyEmissions := dailyEmissions.(TotalVolumeOfManureAvailableForLandApplication :=
      b.TotalVolumeOfManureAvailableForLandApplication(
        dailyEmissions.NitrogenAvailableForLandApplication, p.ManureDetails.FractionOfNitrogenInManure));
    dailyEmissions := dailyEmissions.(AmmoniaEmissionsFromLandAppliedManure := b.TotalAmmoniaEmissionsFromLandAppliedManure(
      farm, dateTime, dailyEmissions, groupType, temperature, p));
  }

  /**
   * The monthly energy CO2 after the energy step: unchanged for egg stages of
   * the period's animal type, otherwise the poultry energy equation for the
   * period's head count, the month's days and the year's and province's
   * electricity conversion factor.
   */
  function MonthlyEnergyAfter(c: Collaborators, animalType: AnimalType, numberOfAnimals: real, year: int,
                              daysInMonth: real, farm: Farm, previous: real): real
  {
    if c.Traits.IsEggStage(animalType) then previous
    else TotalEnergyCarbonDioxideEmissionsFromPoultryOperations(
      numberOfAnimals, daysInMonth, c.ElectricityConversion(year, farm.Province))
  }

  /** Sets the monthly energy CO2 of a month record; nothing else changes. */
  method CalculateEnergyEmissions(c: Collaborators, groupEmissionsByMonth: GroupEmissionsByMonth, farm: Farm)
    modifies groupEmissionsByMonth`MonthlyEnergyCarbonDioxide
    ensures var data := groupEmissionsByMonth.MonthsAndDaysData;
      groupEmissionsByMonth.MonthlyEnergyCarbonDioxide == MonthlyEnergyAfter(
        c, data.ManagementPeriod.AnimalType, data.ManagementPeriod.NumberOfAnimals, data.Year, data.DaysInMonth,
        farm, old(groupEmissionsByMonth.MonthlyEnergyCarbonDioxide))
  {
    var data := groupEmissionsByMonth.MonthsAndDaysData;
    if c.Traits.IsNewlyHatchedEggs(data.ManagementPeriod.AnimalType) || c.Traits.IsEggs(data.ManagementPeriod.AnimalType) {
      return;
    }
    var energyConversionFactor := c.ElectricityConversion(data.Year, farm.Province);
    groupEmissionsByMonth.MonthlyEnergyCarbonDioxide := TotalEnergyCarbonDioxideEmissionsFromPoultryOperations(
      data.ManagementPeriod.NumberOfAnimals, data.DaysInMonth, energyConversionFactor);
  }
}
