/**
 * The entities the poultry daily-emissions calculator reads and writes:
 * animal types and their classification, the manure, housing and diet
 * settings of a management period, the farm's climate, and the per-day and
 * per-month emission records.
 *
 * Objects that outlive a calculation and whose fields it assigns in place are
 * classes (`GroupEmissionsByMonth`, `Diet`, and `ManagementPeriod`, which owns
 * the diet it points to). The day record the daily calculation creates, fills
 * and returns is the value `GroupEmissionsByDay`, each field assignment a
 * datatype update; the settings the calculator only reads are datatypes.
 * Every quantity of the source's `double` type is a `real`.
 */
module PoultryModel {

  /**
   * Animal types. The calculator names only the two layer types; it reaches
   * every other type through the classification predicates below.
   */
  datatype AnimalType = LayersDryPoultry | LayersWetPoultry | OtherAnimalType(code: nat)

  /**
   * Classification of animal types (eggs, newly hatched eggs, chicken, turkey).
   * Its definition lies outside the modelled code, so it is a parameter.
   */
  datatype AnimalTypeTraits = AnimalTypeTraits(
    IsEggs: AnimalType -> bool,
    IsNewlyHatchedEggs: AnimalType -> bool,
    IsChickenType: AnimalType -> bool,
    IsTurkeyType: AnimalType -> bool)
  {
    /** Life stages that do not metabolize: newly hatched eggs and eggs. */
    predicate IsEggStage(t: AnimalType) {
      IsNewlyHatchedEggs(t) || IsEggs(t)
    }
  }

  /** Layers are identified by their two animal types. */
  predicate IsLayer(t: AnimalType) {
    t == LayersDryPoultry || t == LayersWetPoultry
  }

  /** Kind of bedding material; its values matter only to the bedding helpers. */
  datatype BeddingMaterialType = BeddingMaterialType(code: nat)

  /** Manure-handling settings of a management period. */
  datatype ManureDetails = ManureDetails(
    YearlyEntericMethaneRate: real,
    ManureExcretionRate: real,
    FractionOfCarbonInManure: real,
    VolatileSolids: real,
    MethaneProducingCapacityOfManure: real,
    MethaneConversionFactor: real,
    DailyManureMethaneEmissionRate: real,
    NitrogenExretionRate: real,
    N2ODirectEmissionFactor: real,
    YearlyTanExcretion: real,
    AmmoniaEmissionFactorForManureStorage: real,
    UseCustomVolatilizationFraction: bool,
    VolatilizationFraction: real,
    EmissionFactorVolatilization: real,
    LeachingFraction: real,
    EmissionFactorLeaching: real,
    FractionOfNitrogenInManure: real)

  /** Housing and bedding settings of a management period. */
  datatype HousingDetails = HousingDetails(
    UserDefinedBeddingRate: real,
    TotalCarbonKilogramsDryMatterForBedding: real,
    TotalNitrogenKilogramsDryMatterForBedding: real,
    BeddingMaterialType: BeddingMaterialType,
    AmmoniaEmissionFactorForHousing: real)

  /** One row of the poultry diet table, keyed by animal type. */
  datatype PoultryDietData = PoultryDietData(
    DailyMeanIntake: real,
    CrudeProtein: real,
    ProteinLiveWeight: real,
    WeightGain: real,
    ProteinContentEgg: real,
    EggProduction: real,
    InitialWeight: real,
    FinalWeight: real,
    ProductionPeriod: real)

  datatype Date = Date(Year: int, Month: int, Day: int)

  /** Everything else about a farm; the modelled code never reads it, only passes it on. */
  datatype FarmRest = FarmRest(code: nat)

  /**
   * A farm: the province and the monthly mean temperatures the calculator reads,
   * and the rest, which the land-applied ammonia helper receives with them.
   */
  datatype Farm = Farm(Province: string, MeanTemperatureForMonth: int -> real, Rest: FarmRest)

  datatype AnimalGroup = AnimalGroup(GroupType: AnimalType)

  /** The value of a management period: everything the daily calculator reads from it. */
  datatype PeriodState = PeriodState(
    AnimalType: AnimalType,
    NumberOfAnimals: real,
    ManureDetails: ManureDetails,
    HousingDetails: HousingDetails,
    CrudeProtein: real)

  /** One group's emissions on one day. */
  datatype GroupEmissionsByDay = GroupEmissionsByDay(
    EntericMethaneEmission: real,
    FecalCarbonExcretionRate: real,
    FecalCarbonExcretion: real,
    RateOfCarbonAddedFromBeddingMaterial: real,
    CarbonAddedFromBeddingMaterial: real,
    CarbonFromManureAndBedding: real,
    VolatileSolids: real,
    ManureMethaneEmissionRate: real,
    ManureMethaneEmission: real,
    AmountOfCarbonLostAsMethaneDuringManagement: real,
    AmountOfCarbonInStoredManure: real,
    NitrogenExcretionRate: real,
    DryMatterIntake: real,
    ProteinIntake: real,
    ProteinRetained: real,
    AmountOfNitrogenExcreted: real,
    RateOfNitrogenAddedFromBeddingMaterial: real,
    AmountOfNitrogenAddedFromBedding: real,
    ManureDirectN2ONEmissionRate: real,
    ManureDirectN2ONEmission: real,
    AmmoniaConcentrationInHousing: real,
    AmmoniaEmissionsFromHousingSystem: real,
    AmmoniaLostFromStorage: real,
    AmmoniaEmissionsFromStorageSystem: real,
    FractionOfManureVolatilized: real,
    ManureVolatilizationRate: real,
    ManureVolatilizationN2ONEmission: real,
    ManureNitrogenLeachingRate: real,
    ManureN2ONLeachingEmission: real,
    ManureIndirectN2ONEmission: real,
    ManureN2ONEmission: real,
    NitrogenAvailableForLandApplication: real,
    ManureCarbonNitrogenRatio: real,
    TotalVolumeOfManureAvailableForLandApplication: real,
    AmmoniaEmissionsFromLandAppliedManure: real)

  /** A freshly constructed day record: every quantity is zero. */
  const ZeroDay := GroupEmissionsByDay(
    0.0, 0.0, 0.0, 0.0, 0.0, 0.0, 0.0, 0.0, 0.0, 0.0,
    0.0, 0.0, 0.0, 0.0, 0.0, 0.0, 0.0, 0.0, 0.0, 0.0,
    0.0, 0.0, 0.0, 0.0, 0.0, 0.0, 0.0, 0.0, 0.0, 0.0,
    0.0, 0.0, 0.0, 0.0, 0.0)

  /** The diet selected for a management period; the calculator overwrites its crude protein. */
  class Diet {
    var CrudeProtein: real

    constructor (crudeProtein: real)
      ensures CrudeProtein == crudeProtein
    {
      CrudeProtein := crudeProtein;
    }
  }

  /** A management period: its animals, settings, and the diet it selects. */
  class ManagementPeriod {
    var AnimalType: AnimalType
    var NumberOfAnimals: real
    var ManureDetails: ManureDetails
    var HousingDetails: HousingDetails
    var SelectedDiet: Diet

    constructor (animalType: AnimalType, numberOfAnimals: real, manureDetails: ManureDetails,
                 housingDetails: HousingDetails, selectedDiet: Diet)
      ensures SelectedDiet == selectedDiet
      ensures State() == PeriodState(animalType, numberOfAnimals, manureDetails, housingDetails,
                                     selectedDiet.CrudeProtein)
    {
      AnimalType := animalType;
      NumberOfAnimals := numberOfAnimals;
      ManureDetails := manureDetails;
      HousingDetails := housingDetails;
      SelectedDiet := selectedDiet;
    }

    /** The period's current value, including the crude protein of its selected diet. */
    function State(): PeriodState
      reads this, SelectedDiet
    {
      PeriodState(AnimalType, NumberOfAnimals, ManureDetails, HousingDetails, SelectedDiet.CrudeProtein)
    }
  }

  /** The calendar month a monthly record covers, and the period it belongs to. */
  datatype MonthsAndDaysData = MonthsAndDaysData(ManagementPeriod: ManagementPeriod, Year: int, DaysInMonth: real)

  /** One group's emissions over one month; the energy step sets its energy CO2. */
  class GroupEmissionsByMonth {
    var MonthsAndDaysData: MonthsAndDaysData
    var MonthlyEnergyCarbonDioxide: real

    constructor (monthsAndDaysData: MonthsAndDaysData)
      ensures MonthsAndDaysData == monthsAndDaysData && MonthlyEnergyCarbonDioxide == 0.0
    {
      MonthsAndDaysData := monthsAndDaysData;
      MonthlyEnergyCarbonDioxide := 0.0;
    }
  }
}
