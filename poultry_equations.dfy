/**
 * The closed-form equations of the poultry results service (its "Equations"
 * region). Each one is a single arithmetic expression over `real`; the
 * contracts state what the quantity means (its sign, when it vanishes, what a
 * full year of it adds up to, how it converts back), and the lemmas at the end
 * relate the equations to each other and to the accumulation over days.
 */
module PoultryEquations {
  import opened CoreConstants

  /** Fraction of manure nitrogen lost to leaching for poultry (Eqn. 3.5.3-4); zero. */
  const FractionLeaching: real := 0.0

  /** Crude protein retained per unit of live-weight gain for broilers (Eqn. 4.2.1-27). */
  const ProteinRetainedForGain: real := 0.175

  /** Conversion from dietary protein to dietary nitrogen (Eqn. 4.2.1-28). */
  const ProteinToNitrogen: real := 6.25

  /** Electricity used per poultry placement per year, in kWh (Eqn. 6.2.3-1). */
  const PoultryConversion: real := 2.88

  // ---------------------------------------------------------------------------
  // Ammonia from housing and storage (Eqns. 4.3.3-1 to 4.3.3-4). Both daily
  // losses divide the yearly TAN by the literal 365, not by DaysInYear.
  // ---------------------------------------------------------------------------

  /** Eqn. 4.3.3-1: ammonia nitrogen lost from housing (kg NH3-N per day). */
  function AmmoniaLossFromHousing(yearlyTanExcreted: real, housingEmissionFactor: real): (r: real)
    // 365 days of this loss are the yearly TAN times the emission factor
    ensures 365.0 * r == yearlyTanExcreted * housingEmissionFactor
    ensures yearlyTanExcreted == 0.0 || housingEmissionFactor == 0.0 ==> r == 0.0
    ensures 0.0 <= yearlyTanExcreted && 0.0 <= housingEmissionFactor <= 1.0 ==>
              0.0 <= r <= yearlyTanExcreted / 365.0
  {
    var loss := (yearlyTanExcreted / 365.0) * housingEmissionFactor;
    DailyShareBounded(yearlyTanExcreted, housingEmissionFactor, loss);
    loss
  }

  /** Eqn. 4.3.3-2: ammonia emitted from housing (kg NH3 per day). */
  function AmmoniaEmissionsFromHousing(ammoniaLossFromHousing: real): (r: real)
    // dividing by the conversion factor recovers the nitrogen loss
    ensures r / ConvertNH3NToNH3 == ammoniaLossFromHousing
    ensures r >= 0.0 <==> ammoniaLossFromHousing >= 0.0
  {
    ammoniaLossFromHousing * ConvertNH3NToNH3
  }

  /** Eqn. 4.3.3-3: ammonia nitrogen lost from storage (kg NH3-N per day). */
  function AmmoniaLossFromStorage(yearlyTanExcreted: real, emissionFactorForStorage: real): (r: real)
    ensures 365.0 * r == yearlyTanExcreted * emissionFactorForStorage
    ensures yearlyTanExcreted == 0.0 || emissionFactorForStorage == 0.0 ==> r == 0.0
    ensures 0.0 <= yearlyTanExcreted && 0.0 <= emissionFactorForStorage <= 1.0 ==>
              0.0 <= r <= yearlyTanExcreted / 365.0
  {
    var loss := (yearlyTanExcreted / 365.0) * emissionFactorForStorage;
    DailyShareBounded(yearlyTanExcreted, emissionFactorForStorage, loss);
    loss
  }

  /** Eqn. 4.3.3-4: ammonia emitted from storage (kg NH3 per day). */
  function AmmoniaEmissionsFromStorage(ammoniaLossFromStorage: real): (r: real)
    ensures r / ConvertNH3NToNH3 == ammoniaLossFromStorage
    ensures r >= 0.0 <==> ammoniaLossFromStorage >= 0.0
  {
    ammoniaLossFromStorage * ConvertNH3NToNH3
  }

  /**
   * One day's share of a yearly amount, scaled by a factor: a year of it is the
   * scaled yearly amount, and a factor in [0, 1] keeps it within the share.
   */
  lemma DailyShareBounded(yearly: real, factor: real, daily: real)
    requires daily == (yearly / 365.0) * factor
    ensures 365.0 * daily == yearly * factor
    ensures yearly == 0.0 || factor == 0.0 ==> daily == 0.0
    ensures 0.0 <= yearly && 0.0 <= factor <= 1.0 ==> 0.0 <= daily <= yearly / 365.0
  {
    var share := yearly / 365.0;
    assert 365.0 * share == yearly;
    assert 365.0 * (share * factor) == (365.0 * share) * factor;
    if 0.0 <= yearly && 0.0 <= factor <= 1.0 {
      assert 0.0 <= share;
      assert share * factor <= share * 1.0;
    }
  }

  // ---------------------------------------------------------------------------
  // Monthly methane, manure nitrogen and N2O (Eqns. 3.5.1-1 to 3.5.3-6).
  // ---------------------------------------------------------------------------

  /** Eqn. 3.5.1-1: enteric CH4 over a number of days from a yearly per-head rate (kg CH4). */
  function EntericMethaneEmission(entericMethaneEmissionRate: real, numberOfPoultry: real, numberOfDaysInMonth: real): (r: real)
    ensures entericMethaneEmissionRate == 0.0 || numberOfPoultry == 0.0 || numberOfDaysInMonth == 0.0 ==> r == 0.0
    ensures 0.0 <= entericMethaneEmissionRate && 0.0 <= numberOfPoultry && 0.0 <= numberOfDaysInMonth ==> r >= 0.0
  {
    entericMethaneEmissionRate * numberOfPoultry * numberOfDaysInMonth / DaysInYear
  }

  /** Eqn. 3.5.2-1: manure CH4 over a number of days from a yearly per-head rate (kg CH4). */
  function ManureMethaneEmission(manureMethaneEmissionRate: real, numberOfPoultry: real, numberOfDaysInMonth: real): (r: real)
    ensures manureMethaneEmissionRate == 0.0 || numberOfPoultry == 0.0 || numberOfDaysInMonth == 0.0 ==> r == 0.0
    ensures 0.0 <= manureMethaneEmissionRate && 0.0 <= numberOfPoultry && 0.0 <= numberOfDaysInMonth ==> r >= 0.0
  {
    manureMethaneEmissionRate * numberOfPoultry * numberOfDaysInMonth / DaysInYear
  }

  /** Eqn. 3.5.3-1: manure nitrogen over a number of days from a yearly per-head rate (kg N). */
  function ManureNitrogen(nitrogenExcretionRate: real, numberOfPoultry: real, numberOfDays: real): (r: real)
    ensures nitrogenExcretionRate == 0.0 || numberOfPoultry == 0.0 || numberOfDays == 0.0 ==> r == 0.0
    ensures 0.0 <= nitrogenExcretionRate && 0.0 <= numberOfPoultry && 0.0 <= numberOfDays ==> r >= 0.0
  {
    numberOfDays * nitrogenExcretionRate * numberOfPoultry / DaysInYear
  }

  /** Eqn. 3.5.3-2: direct N2O-N from manure over a number of days (kg N2O-N). */
  function ManureDirectNitrogenEmission(manureNitrogenExcretionRate: real, emissionFactor: real, numberOfDays: real): (r: real)
    ensures numberOfDays == 1.0 ==> r == manureNitrogenExcretionRate * emissionFactor
    ensures manureNitrogenExcretionRate == 0.0 || emissionFactor == 0.0 || numberOfDays == 0.0 ==> r == 0.0
    ensures 0.0 <= manureNitrogenExcretionRate && 0.0 <= emissionFactor && 0.0 <= numberOfDays ==> r >= 0.0
  {
    manureNitrogenExcretionRate * emissionFactor * numberOfDays
  }

  /** Eqn. 3.5.3-3: N2O-N from volatilized manure nitrogen over a number of days (kg N2O-N). */
  function ManureVolatilizationNitrogenEmission(manureNitrogenExcretionRate: real, volatilizationFraction: real,
                                                emissionFactorForVolatilization: real, numberOfDaysInMonth: real): (r: real)
    ensures volatilizationFraction == 0.0 || emissionFactorForVolatilization == 0.0 || numberOfDaysInMonth == 0.0 ==> r == 0.0
    ensures (0.0 <= manureNitrogenExcretionRate && 0.0 <= volatilizationFraction &&
             0.0 <= emissionFactorForVolatilization && 0.0 <= numberOfDaysInMonth) ==> r >= 0.0
  {
    manureNitrogenExcretionRate * volatilizationFraction * emissionFactorForVolatilization * numberOfDaysInMonth
  }

  /** Eqn. 3.5.3-4: N2O-N from leached manure nitrogen over a number of days (kg N2O-N). */
  function ManureLeachingNitrogenEmission(manureNitrogenExcretionRate: real, leachingFraction: real,
                                          emissionFactorForLeaching: real, numberOfDaysInMonth: real): (r: real)
    ensures leachingFraction == 0.0 || emissionFactorForLeaching == 0.0 || numberOfDaysInMonth == 0.0 ==> r == 0.0
    ensures (0.0 <= manureNitrogenExcretionRate && 0.0 <= leachingFraction &&
             0.0 <= emissionFactorForLeaching && 0.0 <= numberOfDaysInMonth) ==> r >= 0.0
  {
    manureNitrogenExcretionRate * leachingFraction * emissionFactorForLeaching * numberOfDaysInMonth
  }

  /** Eqn. 3.5.3-6: manure nitrogen left for land application after volatilization and leaching (kg N). */
  function ManureAvailableForLandApplication(manureNitrogenExcretionRate: real, volatilizationFraction: real,
                                             leachingFraction: real, numberOfDays: real): (r: real)
    // with no nitrogen lost, everything excreted is available
    ensures volatilizationFraction + leachingFraction == 0.0 ==> r == manureNitrogenExcretionRate * numberOfDays
    // losses never add nitrogen
    ensures (0.0 <= manureNitrogenExcretionRate && 0.0 <= numberOfDays &&
             0.0 <= volatilizationFraction && 0.0 <= leachingFraction) ==>
              r <= manureNitrogenExcretionRate * numberOfDays
    // and never remove more than was excreted while the fractions sum to at most one
    ensures (0.0 <= manureNitrogenExcretionRate && 0.0 <= numberOfDays &&
             volatilizationFraction + leachingFraction <= 1.0) ==> r >= 0.0
  {
    var factor := 1.0 - (volatilizationFraction + leachingFraction);
    var available := manureNitrogenExcretionRate * factor * numberOfDays;
    AvailableBounds(manureNitrogenExcretionRate, volatilizationFraction, leachingFraction, numberOfDays, available);
    available
  }

  /** What is left after the two losses is within what was excreted, and no more is lost than there was. */
  lemma AvailableBounds(rate: real, vf: real, lf: real, days: real, available: real)
    requires available == rate * (1.0 - (vf + lf)) * days
    ensures vf + lf == 0.0 ==> available == rate * days
    ensures 0.0 <= rate && 0.0 <= days && 0.0 <= vf && 0.0 <= lf ==> available <= rate * days
    ensures 0.0 <= rate && 0.0 <= days && vf + lf <= 1.0 ==> available >= 0.0
  {
    var whole := rate * days;
    var kept := 1.0 - (vf + lf);
    assert available == whole * kept;
    if vf + lf == 0.0 {
      assert kept == 1.0;
    }
    if 0.0 <= rate && 0.0 <= days {
      assert 0.0 <= whole;
      if 0.0 <= vf && 0.0 <= lf {
        assert whole * kept <= whole * 1.0;
      }
    }
  }

  // ---------------------------------------------------------------------------
  // Protein balance and nitrogen excretion for chickens (Eqns. 4.2.1-25 to 4.2.1-28).
  // ---------------------------------------------------------------------------

  /**
   * Eqn. 4.2.1-25: protein intake (kg per head per day). The source documents
   * crude protein as a percentage of dry matter but multiplies by it unscaled,
   * so the bound below, for crude protein in [0, 1], applies when it is given
   * as a fraction.
   */
  function ProteinIntakePoultry(dryMatterIntake: real, crudeProtein: real): (r: real)
    ensures 0.0 <= dryMatterIntake && 0.0 <= crudeProtein <= 1.0 ==> 0.0 <= r <= dryMatterIntake
    ensures dryMatterIntake == 0.0 || crudeProtein == 0.0 ==> r == 0.0
  {
    var intake := dryMatterIntake * crudeProtein;
    ProteinShareBounded(dryMatterIntake, crudeProtein, intake);
    intake
  }

  /** A share in [0, 1] of a non-negative intake lies between nothing and all of it. */
  lemma ProteinShareBounded(intake: real, share: real, part: real)
    requires part == intake * share
    ensures 0.0 <= intake && 0.0 <= share <= 1.0 ==> 0.0 <= part <= intake
    ensures intake == 0.0 || share == 0.0 ==> part == 0.0
  {
    if 0.0 <= intake && 0.0 <= share <= 1.0 {
      assert intake - part == intake * (1.0 - share);
      assert 0.0 <= intake * (1.0 - share);
      assert 0.0 <= part;
    }
  }

  /**
   * Eqn. 4.2.1-26: protein retained by layers (kg per head per day): protein in
   * live-weight gain plus protein in eggs, with egg mass given in grams.
   */
  function ProteinRetainedLayers(proteinInLiveWeight: real, weightGain: real,
                                 proteinContentOfEggs: real, eggProduction: real): (r: real)
    ensures eggProduction == 0.0 ==> r == proteinInLiveWeight * weightGain
    ensures weightGain == 0.0 ==> 1000.0 * r == proteinContentOfEggs * eggProduction
    ensures (0.0 <= proteinInLiveWeight && 0.0 <= weightGain &&
             0.0 <= proteinContentOfEggs && 0.0 <= eggProduction) ==> r >= 0.0
  {
    (proteinInLiveWeight * weightGain) + ((proteinContentOfEggs * eggProduction) / 1000.0)
  }

  /** The protein retained by layers is its live-weight part plus its egg part. */
  lemma ProteinRetainedLayersParts(proteinInLiveWeight: real, weightGain: real,
                                   proteinContentOfEggs: real, eggProduction: real)
    ensures ProteinRetainedLayers(proteinInLiveWeight, weightGain, proteinContentOfEggs, eggProduction)
         == ProteinRetainedLayers(proteinInLiveWeight, weightGain, 0.0, 0.0)
          + ProteinRetainedLayers(0.0, 0.0, proteinContentOfEggs, eggProduction)
  {
  }

  /**
   * Eqn. 4.2.1-27: protein retained by broilers (kg per head per day): 0.175 of
   * the weight gained over the production period, spread over its days.
   */
  function ProteinRetainedBroilers(initialWeight: real, finalWeight: real, productionPeriod: real): (r: real)
    requires productionPeriod != 0.0
    // over the whole period the retained protein is 0.175 of the weight gained
    ensures r * productionPeriod == (finalWeight - initialWeight) * ProteinRetainedForGain
    ensures finalWeight == initialWeight ==> r == 0.0
    ensures productionPeriod > 0.0 ==> (r >= 0.0 <==> finalWeight >= initialWeight)
  {
    ((finalWeight - initialWeight) * ProteinRetainedForGain) / productionPeriod
  }

  /** Eqn. 4.2.1-28: nitrogen excretion rate of chickens (kg N per head per day). */
  function NitrogenExcretionRateChickens(proteinIntake: real, proteinRetained: real): (r: real)
    // the excreted nitrogen, as protein, is what was eaten and not retained
    ensures r * ProteinToNitrogen == proteinIntake - proteinRetained
    ensures r >= 0.0 <==> proteinIntake >= proteinRetained
    ensures proteinRetained >= 0.0 ==> r <= proteinIntake / ProteinToNitrogen
  {
    (proteinIntake / ProteinToNitrogen) - (proteinRetained / ProteinToNitrogen)
  }

  // ---------------------------------------------------------------------------
  // Energy (Eqn. 6.2.3-1).
  // ---------------------------------------------------------------------------

  /** Eqn. 6.2.3-1: CO2 from the electricity used by a poultry barn over a number of days (kg CO2). */
  function TotalEnergyCarbonDioxideEmissionsFromPoultryOperations(numberOfAnimals: real, numberOfDays: real,
                                                                  energyConversion: real): (r: real)
    ensures numberOfAnimals == 0.0 || numberOfDays == 0.0 || energyConversion == 0.0 ==> r == 0.0
    ensures 0.0 <= numberOfAnimals && 0.0 <= numberOfDays && 0.0 <= energyConversion ==> r >= 0.0
  {
    numberOfAnimals * (PoultryConversion / DaysInYear) * energyConversion * numberOfDays
  }

  // ---------------------------------------------------------------------------
  // Relations between the equations.
  // ---------------------------------------------------------------------------

  /** Housing and storage losses are the same equation: equal factors give equal losses and emissions. */
  lemma HousingAndStorageLossCoincide(yearlyTanExcreted: real, factor: real)
    ensures AmmoniaLossFromHousing(yearlyTanExcreted, factor) == AmmoniaLossFromStorage(yearlyTanExcreted, factor)
    ensures AmmoniaEmissionsFromHousing(AmmoniaLossFromHousing(yearlyTanExcreted, factor))
         == AmmoniaEmissionsFromStorage(AmmoniaLossFromStorage(yearlyTanExcreted, factor))
  {
  }

  /** The ammonia emitted is the nitrogen loss scaled by the NH3-N to NH3 factor, for housing and storage alike. */
  lemma AmmoniaEmissionsScaleLoss(yearlyTanExcreted: real, housingFactor: real, storageFactor: real)
    ensures AmmoniaEmissionsFromHousing(AmmoniaLossFromHousing(yearlyTanExcreted, housingFactor))
         == yearlyTanExcreted / 365.0 * housingFactor * ConvertNH3NToNH3
    ensures AmmoniaEmissionsFromStorage(AmmoniaLossFromStorage(yearlyTanExcreted, storageFactor))
         == yearlyTanExcreted / 365.0 * storageFactor * ConvertNH3NToNH3
  {
  }

  /**
   * A full year of each yearly-rate equation is the yearly per-head amount
   * times the head count (for energy: the yearly electricity per placement,
   * converted to CO2).
   */
  lemma FullYearIsYearlyRate(rate: real, n: real, conversion: real)
    ensures EntericMethaneEmission(rate, n, DaysInYear) == rate * n
    ensures ManureMethaneEmission(rate, n, DaysInYear) == rate * n
    ensures ManureNitrogen(rate, n, DaysInYear) == rate * n
    ensures TotalEnergyCarbonDioxideEmissionsFromPoultryOperations(n, DaysInYear, conversion)
         == n * PoultryConversion * conversion
  {
    var k := rate * n;
    assert k * DaysInYear / DaysInYear == k;
    assert DaysInYear * rate * n == k * DaysInYear;
    var perPlacement := n * PoultryConversion * conversion;
    assert n * (PoultryConversion / DaysInYear) * conversion * DaysInYear == perPlacement * DaysInYear / DaysInYear;
  }

  // Emissions over two consecutive stretches of days add up to the emission over both.

  lemma EntericMethaneAdditiveInDays(rate: real, n: real, days1: real, days2: real)
    ensures EntericMethaneEmission(rate, n, days1 + days2)
         == EntericMethaneEmission(rate, n, days1) + EntericMethaneEmission(rate, n, days2)
  {
    YearlyRateAdditive(rate * n, days1, days2, EntericMethaneEmission(rate, n, days1 + days2),
                       EntericMethaneEmission(rate, n, days1), EntericMethaneEmission(rate, n, days2));
  }

  lemma ManureMethaneAdditiveInDays(rate: real, n: real, days1: real, days2: real)
    ensures ManureMethaneEmission(rate, n, days1 + days2)
         == ManureMethaneEmission(rate, n, days1) + ManureMethaneEmission(rate, n, days2)
  {
    YearlyRateAdditive(rate * n, days1, days2, ManureMethaneEmission(rate, n, days1 + days2),
                       ManureMethaneEmission(rate, n, days1), ManureMethaneEmission(rate, n, days2));
  }

  lemma ManureNitrogenAdditiveInDays(rate: real, n: real, days1: real, days2: real)
    ensures ManureNitrogen(rate, n, days1 + days2)
         == ManureNitrogen(rate, n, days1) + ManureNitrogen(rate, n, days2)
  {
    var k := rate * n;
    assert (days1 + days2) * rate * n == k * (days1 + days2);
    assert days1 * rate * n == k * days1;
    assert days2 * rate * n == k * days2;
    YearlyRateAdditive(k, days1, days2, ManureNitrogen(rate, n, days1 + days2),
                       ManureNitrogen(rate, n, days1), ManureNitrogen(rate, n, days2));
  }

  lemma DirectNitrogenAdditiveInDays(rate: real, factor: real, days1: real, days2: real)
    ensures ManureDirectNitrogenEmission(rate, factor, days1 + days2)
         == ManureDirectNitrogenEmission(rate, factor, days1) + ManureDirectNitrogenEmission(rate, factor, days2)
  {
    var j := rate * factor;
    assert j * (days1 + days2) == j * days1 + j * days2;
  }

  /** A yearly amount spread over days, for two stretches of days, adds up. */
  lemma YearlyRateAdditive(k: real, days1: real, days2: real, whole: real, part1: real, part2: real)
    requires whole == k * (days1 + days2) / DaysInYear
    requires part1 == k * days1 / DaysInYear && part2 == k * days2 / DaysInYear
    ensures whole == part1 + part2
  {
    assert k * (days1 + days2) == k * days1 + k * days2;
  }

  /** Volatilization and leaching N2O are the same chain: rate, fraction, factor and days. */
  lemma VolatilizationAndLeachingCoincide(rate: real, fraction: real, factor: real, days: real)
    ensures ManureVolatilizationNitrogenEmission(rate, fraction, factor, days)
         == ManureLeachingNitrogenEmission(rate, fraction, factor, days)
    ensures ManureVolatilizationNitrogenEmission(rate, fraction, factor, days)
         == ManureDirectNitrogenEmission(rate * fraction, factor, days)
  {
  }

  /** With the poultry leaching fraction the leaching N2O is zero, whatever the rate, factor and days. */
  lemma NoLeachingForPoultry(rate: real, factor: real, days: real)
    ensures ManureLeachingNitrogenEmission(rate, FractionLeaching, factor, days) == 0.0
    ensures ManureAvailableForLandApplication(rate, 0.0, FractionLeaching, days) == rate * days
  {
  }

  /**
   * Nitrogen balance of Eqn. 3.5.3-6: what is available plus what is
   * volatilized plus what is leached is what was excreted over the days.
   */
  lemma ManureNitrogenBalance(rate: real, vf: real, lf: real, days: real)
    ensures ManureAvailableForLandApplication(rate, vf, lf, days) + rate * vf * days + rate * lf * days
         == rate * days
  {
  }

  /** Energy CO2 is additive in the head count and in the number of days. */
  lemma EnergyAdditive(n1: real, n2: real, days1: real, days2: real, conversion: real)
    ensures TotalEnergyCarbonDioxideEmissionsFromPoultryOperations(n1 + n2, days1, conversion)
         == TotalEnergyCarbonDioxideEmissionsFromPoultryOperations(n1, days1, conversion)
          + TotalEnergyCarbonDioxideEmissionsFromPoultryOperations(n2, days1, conversion)
    ensures TotalEnergyCarbonDioxideEmissionsFromPoultryOperations(n1, days1 + days2, conversion)
         == TotalEnergyCarbonDioxideEmissionsFromPoultryOperations(n1, days1, conversion)
          + TotalEnergyCarbonDioxideEmissionsFromPoultryOperations(n1, days2, conversion)
  {
  }

  /** Energy CO2 scales with the head count and with the number of days. */
  lemma EnergyHomogeneous(scale: real, n: real, days: real, conversion: real)
    ensures TotalEnergyCarbonDioxideEmissionsFromPoultryOperations(scale * n, days, conversion)
         == scale * TotalEnergyCarbonDioxideEmissionsFromPoultryOperations(n, days, conversion)
    ensures TotalEnergyCarbonDioxideEmissionsFromPoultryOperations(n, scale * days, conversion)
         == scale * TotalEnergyCarbonDioxideEmissionsFromPoultryOperations(n, days, conversion)
  {
    var perHeadDay := (PoultryConversion / DaysInYear) * conversion;
    assert scale * n * perHeadDay * days == scale * (n * perHeadDay * days);
    assert n * perHeadDay * (scale * days) == scale * (n * perHeadDay * days);
  }
}
