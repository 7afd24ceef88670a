// Federal and state income tax, and how fast the whole stack can rise: the
// brackets, the gains stacked on them, the Social Security phase-in, the senior
// phaseout, the net investment income tax and the state's own table together.
module IncomeTax {
  import opened BracketTables
  import opened Domain
  import opened Reals
  import opened TaxTables

  // ---- The source's formulas ----------------------------------------------

  const OBBBA_PER_PERSON := 6000.0
  const OBBBA_PHASEOUT_RATE := 0.06
  const OBBBA_LAST_YEAR := 2028

  function FrozenThreshold(nominal2025: real, taxYear: TaxYear): real {
    Times(nominal2025, taxYear.frozenScale)
  }

  function BaseDeduction(fs: FilingStatus): real {
    match fs
    case Single => 15750.0
    case MarriedFilingJointly => 31500.0
    case MarriedFilingSeparately => 15750.0
    case HeadOfHousehold => 23625.0
  }

  function PerSenior(fs: FilingStatus): real {
    match fs
    case Single => 2000.0
    case MarriedFilingJointly => 1600.0
    case MarriedFilingSeparately => 1600.0
    case HeadOfHousehold => 2000.0
  }

  function PhaseoutStart(fs: FilingStatus): real {
    if fs.MarriedFilingJointly? then 150000.0 else 75000.0
  }

  function DeductionFor(household: Household, taxYear: TaxYear, magi: real): real {
    var fs := household.filingStatus;
    var seniors := household.Seniors();
    if seniors == 0 then BaseDeduction(fs)
    else
      var deduction := BaseDeduction(fs) + seniors as real * PerSenior(fs);
      if fs.MarriedFilingSeparately? || taxYear.year > OBBBA_LAST_YEAR then deduction
      else
        var reduction := Pos(magi - PhaseoutStart(fs)) * OBBBA_PHASEOUT_RATE;
        deduction + Pos(seniors as real * OBBBA_PER_PERSON - reduction)
  }

  function NetInvestmentIncomeThreshold(fs: FilingStatus): real {
    match fs
    case MarriedFilingJointly => 250000.0
    case MarriedFilingSeparately => 125000.0
    case _ => 200000.0
  }

  function NetInvestmentIncomeTax(ordinary: real, qualified: real, fs: FilingStatus, taxYear: TaxYear): real {
    0.038 * Min(Pos(qualified),
                Pos(ordinary + qualified - FrozenThreshold(NetInvestmentIncomeThreshold(fs), taxYear)))
  }

  /** Federal tax, with each loop replaced by the area it is proved to compute. */
  function FederalTaxOn(ordinary: real, qualified: real, deduction: real, fs: FilingStatus, taxYear: TaxYear): real {
    var taxableIncome := Pos(ordinary - deduction);
    var ordinaryTax := TaxBelow(FederalBrackets(fs), taxableIncome);
    var unusedDeduction := Pos(deduction - ordinary);
    var taxableQualified := Pos(qualified - unusedDeduction);
    var ltcgTax := TaxBelow(GainsBrackets(fs), taxableIncome + taxableQualified)
                   - TaxBelow(GainsBrackets(fs), taxableIncome);
    ordinaryTax + ltcgTax + NetInvestmentIncomeTax(ordinary, qualified, fs, taxYear)
  }

  /** The federal tax as the source runs it, through the two bracket loops. */
  method ComputeFederalTax(ordinary: real, qualified: real, deduction: real, fs: FilingStatus, taxYear: TaxYear)
    returns (tax: real)
    ensures tax == FederalTaxOn(ordinary, qualified, deduction, fs, taxYear)
  {
    FederalTable(fs);
    GainsTable(fs);
    var taxableIncome := Pos(ordinary - deduction);
    var ordinaryTax := CalculateProgressiveTax(taxableIncome, FederalBrackets(fs));
    var unusedDeduction := Pos(deduction - ordinary);
    var taxableQualified := Pos(qualified - unusedDeduction);
    var ltcgTax := CalculateLtcgTax(taxableIncome, taxableQualified, GainsBrackets(fs));
    tax := ordinaryTax + ltcgTax + NetInvestmentIncomeTax(ordinary, qualified, fs, taxYear);
  }

  /** What the state's own profile looks at. Every modelled state exempts benefits. */
  datatype StateTaxInput = StateTaxInput(
    wages: real,
    otherOrdinary: real,
    qualified: real,
    pretaxHsa: real,
    pretaxTraditional: real)

  predicate ConformsToFederalHsa(state: State) {
    !state.CA?
  }

  function StateTaxOf(state: State, fs: FilingStatus, input: StateTaxInput): real {
    var brackets := StateBrackets(state, fs);
    var deduction := StateStandardDeduction(state, fs);
    if brackets.None? || deduction.None? then 0.0
    else
      var deductiblePretax := if ConformsToFederalHsa(state) then input.pretaxHsa + input.pretaxTraditional
                              else input.pretaxTraditional;
      TaxBelow(brackets.value,
               Pos(input.wages + input.otherOrdinary + input.qualified - deductiblePretax - deduction.value))
  }

  function SocialSecurityTiers(fs: FilingStatus): (real, real) {
    match fs
    case Single => (25000.0, 34000.0)
    case MarriedFilingJointly => (32000.0, 44000.0)
    case MarriedFilingSeparately => (0.0, 0.0)
    case HeadOfHousehold => (25000.0, 34000.0)
  }

  function TaxableSocialSecurity(otherIncome: real, benefit: real, qualified: real, fs: FilingStatus, taxYear: TaxYear): real {
    if benefit == 0.0 then 0.0
    else
      var combined := otherIncome + qualified + benefit * 0.5;
      var tier1 := FrozenThreshold(SocialSecurityTiers(fs).0, taxYear);
      var tier2 := FrozenThreshold(SocialSecurityTiers(fs).1, taxYear);
      if combined <= tier1 then 0.0
      else if combined <= tier2 then Min(benefit * 0.5, (combined - tier1) * 0.5)
      else
        var lowerTierTaxable := Min(benefit * 0.5, (tier2 - tier1) * 0.5);
        Min(benefit * 0.85, (combined - tier2) * 0.85 + lowerTierTaxable)
  }

  /** Federal tax once the deduction has been read off the year's own income. */
  function FederalTaxOnIncome(household: Household, taxYear: TaxYear, ordinary: real, qualified: real): real {
    FederalTaxOn(ordinary, qualified, DeductionFor(household, taxYear, ordinary + qualified),
                 household.filingStatus, taxYear)
  }

  function RetirementTaxableIncome(withdrawals: real, benefit: real, qualified: real, household: Household, taxYear: TaxYear): real {
    var ordinary := withdrawals + TaxableSocialSecurity(withdrawals, benefit, qualified, household.filingStatus, taxYear);
    Pos(ordinary - DeductionFor(household, taxYear, ordinary + qualified))
  }

  function RetirementTax(withdrawals: real, benefit: real, qualified: real, household: Household, state: State, taxYear: TaxYear): real {
    var ordinary := withdrawals + TaxableSocialSecurity(withdrawals, benefit, qualified, household.filingStatus, taxYear);
    FederalTaxOnIncome(household, taxYear, ordinary, qualified)
    + StateTaxOf(state, household.filingStatus, StateTaxInput(0.0, withdrawals, qualified, 0.0, 0.0))
  }

  // ---- Income tax proper as a function of x and q --------------------------

  /** Ordinary tax at x, plus the gains tax on q stacked above it. */
  function StackedTax(fs: FilingStatus, x: real, q: real): real {
    TaxBelow(FederalBrackets(fs), x) + TaxBelow(GainsBrackets(fs), x + q) - TaxBelow(GainsBrackets(fs), x)
  }

  lemma BelowZero(t: seq<Bracket>, x: real)
    requires WellFormed(t)
    ensures TaxBelow(t, x) == TaxBelow(t, Pos(x))
  {
    if x < 0.0 {
      NothingBelow(t, x);
      NothingBelow(t, 0.0);
    }
  }

  /**
   * The unused-deduction bookkeeping is the same thing as reading both tables at
   * the signed income x = ordinary - deduction.
   */
  lemma FederalTaxIsStacked(ordinary: real, q: real, deduction: real, fs: FilingStatus, taxYear: TaxYear)
    requires 0.0 <= q
    ensures FederalTaxOn(ordinary, q, deduction, fs, taxYear)
         == StackedTax(fs, ordinary - deduction, q) + NetInvestmentIncomeTax(ordinary, q, fs, taxYear)
  {
    hide TaxBelow;
    hide FrozenThreshold;
    FederalTable(fs);
    GainsTable(fs);
    var x := ordinary - deduction;
    BelowZero(FederalBrackets(fs), x);
    BelowZero(GainsBrackets(fs), x);
    BelowZero(GainsBrackets(fs), x + q);
    assert Pos(x) + Pos(q - Pos(-x)) == Pos(x + q) || x >= 0.0;
  }

  /** More income never lowers the stacked tax, though P - G alone can fall. */
  lemma StackedTaxRises(fs: FilingStatus, x: real, q: real, x2: real, q2: real)
    requires x <= x2 && 0.0 <= q <= q2
    ensures StackedTax(fs, x, q) <= StackedTax(fs, x2, q2)
  {
    hide TaxBelow;
    FederalTable(fs);
    GainsTable(fs);
    var d := x2 - x;
    NeverFalls(FederalBrackets(fs), x, x2);
    Convex(GainsBrackets(fs), x, x + q, d);
    assert x + d == x2;
    NeverFalls(GainsBrackets(fs), x + q + d, x2 + q2);
  }

  /** ... and costs at most 22 cents plus the gains rate on the dollar. */
  lemma StackedTaxSlope(fs: FilingStatus, x: real, q: real, x2: real, q2: real, gainsRate: real)
    requires x <= x2 && 0.0 <= q <= q2
    requires gainsRate == 0.20 || (gainsRate == 0.15 && x2 + q2 <= 350000.0 && fs != MarriedFilingSeparately)
    ensures StackedTax(fs, x2, q2) - StackedTax(fs, x, q)
         <= 0.22 * (x2 - x) + gainsRate * (x2 + q2 - x - q)
  {
    hide TaxBelow;
    var p, g := FederalBrackets(fs), GainsBrackets(fs);
    FederalTable(fs);
    GainsTable(fs);
    OrdinaryOverGains(fs);
    BelowZero(p, x);
    BelowZero(p, x2);
    BelowZero(g, x);
    BelowZero(g, x2);
    OutgrowsByAtMost(p, g, 0.22, Pos(x), Pos(x2));
    forall i | 0 <= i < |g|
      ensures g[i].min < x2 + q2 ==> 0.0 <= g[i].rate <= gainsRate
    {
    }
    SlopeAtMost(g, x + q, x2 + q2, gainsRate);
    assert Pos(x2 + q2 - g[0].min) - Pos(x + q - g[0].min) <= x2 + q2 - x - q;
  }

  // ---- The deduction -------------------------------------------------------

  /** Where the enhanced senior deduction has gone entirely. */
  function PhaseoutEnd(household: Household): real {
    PhaseoutStart(household.filingStatus) + household.Seniors() as real * 100000.0
  }

  predicate PhaseoutApplies(household: Household, taxYear: TaxYear) {
    household.Seniors() > 0 && !household.filingStatus.MarriedFilingSeparately? && taxYear.year <= OBBBA_LAST_YEAR
  }

  /** The deduction only falls, six cents on the dollar, and only under its end. */
  lemma DeductionSlope(household: Household, taxYear: TaxYear, m: real, m2: real)
    requires m <= m2
    ensures 0.0 <= DeductionFor(household, taxYear, m) - DeductionFor(household, taxYear, m2) <= 0.06 * (m2 - m)
    ensures !PhaseoutApplies(household, taxYear) || PhaseoutEnd(household) <= m
            ==> DeductionFor(household, taxYear, m) == DeductionFor(household, taxYear, m2)
    ensures 0.0 <= DeductionFor(household, taxYear, m)
  {
  }

  // ---- Federal tax as a function of ordinary and qualified income ----------

  /** The stacked part of `FederalTaxOnIncome`. */
  function StackedOnIncome(household: Household, taxYear: TaxYear, ordinary: real, q: real): real {
    StackedTax(household.filingStatus, ordinary - DeductionFor(household, taxYear, ordinary + q), q)
  }

  lemma StackedRises(household: Household, taxYear: TaxYear, o: real, q: real, o2: real, q2: real)
    requires o <= o2 && 0.0 <= q <= q2
    ensures StackedOnIncome(household, taxYear, o, q) <= StackedOnIncome(household, taxYear, o2, q2)
  {
    hide DeductionFor;
    hide StackedTax;
    DeductionSlope(household, taxYear, o + q, o2 + q2);
    StackedTaxRises(household.filingStatus, o - DeductionFor(household, taxYear, o + q), q,
                    o2 - DeductionFor(household, taxYear, o2 + q2), q2);
  }

  /** Under the phaseout's end the top gains bracket is out of reach. */
  lemma StackedSlopeUnderPhaseout(household: Household, taxYear: TaxYear, o: real, q: real, o2: real, q2: real)
    requires household.Valid() && PhaseoutApplies(household, taxYear)
    requires o <= o2 && 0.0 <= q <= q2 && o2 + q2 <= PhaseoutEnd(household)
    ensures StackedOnIncome(household, taxYear, o2, q2) - StackedOnIncome(household, taxYear, o, q)
         <= 0.42 * (o2 - o) + 0.20 * (q2 - q)
  {
    hide DeductionFor;
    hide StackedTax;
    DeductionSlope(household, taxYear, o + q, o2 + q2);
    DeductionSlope(household, taxYear, o2 + q2, o2 + q2);
    StackedTaxSlope(household.filingStatus, o - DeductionFor(household, taxYear, o + q), q,
                    o2 - DeductionFor(household, taxYear, o2 + q2), q2, 0.15);
  }

  /** Past it, or where no phaseout applies, the deduction no longer moves. */
  lemma StackedSlopeOffPhaseout(household: Household, taxYear: TaxYear, o: real, q: real, o2: real, q2: real)
    requires !PhaseoutApplies(household, taxYear) || PhaseoutEnd(household) <= o + q
    requires o <= o2 && 0.0 <= q <= q2
    ensures StackedOnIncome(household, taxYear, o2, q2) - StackedOnIncome(household, taxYear, o, q)
         <= 0.42 * (o2 - o) + 0.20 * (q2 - q)
  {
    hide DeductionFor;
    hide StackedTax;
    DeductionSlope(household, taxYear, o + q, o2 + q2);
    StackedTaxSlope(household.filingStatus, o - DeductionFor(household, taxYear, o + q), q,
                    o2 - DeductionFor(household, taxYear, o2 + q2), q2, 0.20);
  }

  /** A raise that crosses the phaseout's end is cut there and bounded on each side. */
  lemma StackedSlope(household: Household, taxYear: TaxYear, o: real, q: real, o2: real, q2: real)
    requires household.Valid()
    requires o <= o2 && 0.0 <= q <= q2
    ensures StackedOnIncome(household, taxYear, o2, q2) - StackedOnIncome(household, taxYear, o, q)
         <= 0.42 * (o2 - o) + 0.20 * (q2 - q)
  {
    hide StackedOnIncome;
    hide PhaseoutApplies;
    hide PhaseoutEnd;
    var end := PhaseoutEnd(household);
    if !PhaseoutApplies(household, taxYear) || end <= o + q {
      StackedSlopeOffPhaseout(household, taxYear, o, q, o2, q2);
    } else if o2 + q2 <= end {
      StackedSlopeUnderPhaseout(household, taxYear, o, q, o2, q2);
    } else {
      var qm := Min(q2, end - o);
      var om := end - qm;
      StackedSlopeUnderPhaseout(household, taxYear, o, q, om, qm);
      StackedSlopeOffPhaseout(household, taxYear, om, qm, o2, q2);
    }
  }

  lemma NetInvestmentIncomeSlope(fs: FilingStatus, taxYear: TaxYear, o: real, q: real, o2: real, q2: real)
    requires o <= o2 && 0.0 <= q <= q2
    ensures 0.0 <= NetInvestmentIncomeTax(o2, q2, fs, taxYear) - NetInvestmentIncomeTax(o, q, fs, taxYear)
         <= 0.038 * (o2 - o) + 0.038 * (q2 - q)
  {
    hide FrozenThreshold;
  }

  /**
   * Federal tax is monotone and continuous in both kinds of income, whatever the
   * filing status, year, and number of seniors: at most 45.8 cents on an ordinary
   * dollar and 23.8 cents on a qualified one.
   */
  lemma FederalSlope(household: Household, taxYear: TaxYear, o: real, q: real, o2: real, q2: real)
    requires household.Valid()
    requires o <= o2 && 0.0 <= q <= q2
    ensures 0.0 <= FederalTaxOnIncome(household, taxYear, o2, q2) - FederalTaxOnIncome(household, taxYear, o, q)
         <= 0.458 * (o2 - o) + 0.238 * (q2 - q)
  {
    hide FederalTaxOn;
    hide StackedTax;
    hide DeductionFor;
    hide NetInvestmentIncomeTax;
    FederalTaxIsStacked(o, q, DeductionFor(household, taxYear, o + q), household.filingStatus, taxYear);
    FederalTaxIsStacked(o2, q2, DeductionFor(household, taxYear, o2 + q2), household.filingStatus, taxYear);
    StackedRises(household, taxYear, o, q, o2, q2);
    StackedSlope(household, taxYear, o, q, o2, q2);
    NetInvestmentIncomeSlope(household.filingStatus, taxYear, o, q, o2, q2);
  }

  // ---- Social Security and the state ---------------------------------------

  lemma TiersOrdered(fs: FilingStatus, taxYear: TaxYear)
    requires taxYear.Valid()
    ensures 0.0 <= FrozenThreshold(SocialSecurityTiers(fs).0, taxYear)
         <= FrozenThreshold(SocialSecurityTiers(fs).1, taxYear)
  {
    TimesZero(taxYear.frozenScale);
    TimesMono(taxYear.frozenScale, 0.0, SocialSecurityTiers(fs).0);
    TimesMono(taxYear.frozenScale, SocialSecurityTiers(fs).0, SocialSecurityTiers(fs).1);
  }

  /** Another dollar of income drags in at most 85 cents of the benefit, and never releases any. */
  lemma SocialSecuritySlope(fs: FilingStatus, taxYear: TaxYear, b: real, t: real, q: real, t2: real, q2: real)
    requires taxYear.Valid() && 0.0 <= b
    requires t <= t2 && q <= q2
    ensures 0.0 <= TaxableSocialSecurity(t2, b, q2, fs, taxYear) - TaxableSocialSecurity(t, b, q, fs, taxYear)
         <= 0.85 * (t2 - t) + 0.85 * (q2 - q)
    ensures 0.0 <= TaxableSocialSecurity(t, b, q, fs, taxYear) <= 0.85 * b
    ensures TaxableSocialSecurity(t2, b, q2, fs, taxYear) <= 0.85 * b
  {
    hide FrozenThreshold;
    hide SocialSecurityTiers;
    TiersOrdered(fs, taxYear);
  }

  lemma StateSlope(state: State, fs: FilingStatus, a: StateTaxInput, b: StateTaxInput)
    requires a.pretaxHsa == b.pretaxHsa && a.pretaxTraditional == b.pretaxTraditional
    requires a.wages == b.wages && a.otherOrdinary <= b.otherOrdinary && a.qualified <= b.qualified
    ensures 0.0 <= StateTaxOf(state, fs, b) - StateTaxOf(state, fs, a)
         <= 0.133 * (b.otherOrdinary - a.otherOrdinary) + 0.133 * (b.qualified - a.qualified)
  {
    OnlyCalifornia(state, fs, a);
    OnlyCalifornia(state, fs, b);
    hide StateTaxOf;
    hide TaxBelow;
    CaliforniaSlope(fs, CaliforniaIncome(fs, a), CaliforniaIncome(fs, b));
  }

  /** What the California table is read at; it allows no HSA deduction. */
  function CaliforniaIncome(fs: FilingStatus, input: StateTaxInput): real {
    Pos(input.wages + input.otherOrdinary + input.qualified - input.pretaxTraditional - StateStandardDeduction(CA, fs).value)
  }

  lemma OnlyCalifornia(state: State, fs: FilingStatus, input: StateTaxInput)
    ensures StateTaxOf(state, fs, input)
         == if state.CA? then TaxBelow(CaliforniaBrackets(fs), CaliforniaIncome(fs, input)) else 0.0
  {
    hide TaxBelow;
    hide CaliforniaBrackets;
  }

  lemma CaliforniaSlope(fs: FilingStatus, x: real, y: real)
    requires 0.0 <= x <= y
    ensures 0.0 <= TaxBelow(CaliforniaBrackets(fs), y) - TaxBelow(CaliforniaBrackets(fs), x) <= 0.133 * (y - x)
  {
    hide TaxBelow;
    CaliforniaTable(fs);
    hide CaliforniaBrackets;
    var t := CaliforniaBrackets(fs);
    NeverFalls(t, x, y);
    SlopeAtMost(t, x, y, 0.133);
  }

  // ---- A retirement year's whole tax ---------------------------------------

  /**
   * The marginal rate of the whole stack stays under one: at most 98.03 cents on
   * a withdrawn dollar and 76.03 cents on a realized gain, and 59.1 and 37.1
   * cents when there is no more benefit to drag in. Tax never falls as income rises.
   */
  lemma RetirementTaxSlope(household: Household, state: State, taxYear: TaxYear, b: real,
                           t: real, q: real, t2: real, q2: real)
    requires household.Valid() && taxYear.Valid() && 0.0 <= b
    requires t <= t2 && 0.0 <= q <= q2
    ensures 0.0 <= RetirementTax(t2, b, q2, household, state, taxYear) - RetirementTax(t, b, q, household, state, taxYear)
         <= 0.9803 * (t2 - t) + 0.7603 * (q2 - q)
    ensures TaxableSocialSecurity(t, b, q, household.filingStatus, taxYear) == 0.85 * b ==>
              RetirementTax(t2, b, q2, household, state, taxYear) - RetirementTax(t, b, q, household, state, taxYear)
              <= 0.591 * (t2 - t) + 0.371 * (q2 - q)
  {
    hide TaxableSocialSecurity;
    hide FederalTaxOnIncome;
    hide StateTaxOf;
    var fs := household.filingStatus;
    var s := TaxableSocialSecurity(t, b, q, fs, taxYear);
    var s2 := TaxableSocialSecurity(t2, b, q2, fs, taxYear);
    SocialSecuritySlope(fs, taxYear, b, t, q, t2, q2);
    FederalSlope(household, taxYear, t + s, q, t2 + s2, q2);
    StateSlope(state, fs, StateTaxInput(0.0, t, q, 0.0, 0.0), StateTaxInput(0.0, t2, q2, 0.0, 0.0));
  }

  /** Taxable income, the other ceiling a conversion is measured against, rises too. */
  lemma TaxableIncomeRises(household: Household, taxYear: TaxYear, b: real, t: real, q: real, t2: real, q2: real)
    requires taxYear.Valid() && 0.0 <= b
    requires t <= t2 && q <= q2
    ensures RetirementTaxableIncome(t, b, q, household, taxYear) <= RetirementTaxableIncome(t2, b, q2, household, taxYear)
  {
    hide TaxableSocialSecurity;
    hide DeductionFor;
    var fs := household.filingStatus;
    SocialSecuritySlope(fs, taxYear, b, t, q, t2, q2);
    DeductionSlope(household, taxYear,
                   t + TaxableSocialSecurity(t, b, q, fs, taxYear) + q,
                   t2 + TaxableSocialSecurity(t2, b, q2, fs, taxYear) + q2);
  }

  // ---- What the formulas mean ------------------------------------------------

  /** Income and half the benefit, which the benefit's own taxation is read from. */
  function CombinedIncome(t: real, b: real, q: real): real {
    t + q + 0.5 * b
  }

  /** The combined income from which 85% of a benefit is taxable. */
  function PhasedInAt(fs: FilingStatus, b: real, taxYear: TaxYear): real {
    var tier1 := FrozenThreshold(SocialSecurityTiers(fs).0, taxYear);
    var tier2 := FrozenThreshold(SocialSecurityTiers(fs).1, taxYear);
    tier2 + b - Min(b, tier2 - tier1) * 10.0 / 17.0
  }

  /** A benefit starts to be taxable exactly above the first tier, and is fully so exactly from the end of the phase-in. */
  lemma BenefitTaxableExactly(fs: FilingStatus, taxYear: TaxYear, b: real, t: real, q: real)
    requires taxYear.Valid() && 0.0 < b
    ensures TaxableSocialSecurity(t, b, q, fs, taxYear) == 0.0
       <==> CombinedIncome(t, b, q) <= FrozenThreshold(SocialSecurityTiers(fs).0, taxYear)
    ensures TaxableSocialSecurity(t, b, q, fs, taxYear) == 0.85 * b
       <==> PhasedInAt(fs, b, taxYear) <= CombinedIncome(t, b, q)
  {
    hide FrozenThreshold;
    hide SocialSecurityTiers;
    TiersOrdered(fs, taxYear);
  }

  /** Between the tiers another dollar brings in fifty cents, and past them eighty-five, until the caps. */
  lemma BenefitPhasesIn(fs: FilingStatus, taxYear: TaxYear, b: real, t: real, q: real, t2: real, q2: real)
    requires taxYear.Valid() && 0.0 < b && CombinedIncome(t, b, q) <= CombinedIncome(t2, b, q2)
    ensures var tier1 := FrozenThreshold(SocialSecurityTiers(fs).0, taxYear);
            var tier2 := FrozenThreshold(SocialSecurityTiers(fs).1, taxYear);
            var from, to := CombinedIncome(t, b, q), CombinedIncome(t2, b, q2);
            var rise := TaxableSocialSecurity(t2, b, q2, fs, taxYear) - TaxableSocialSecurity(t, b, q, fs, taxYear);
            && (tier1 <= from && to <= Min(tier2, tier1 + b) ==> rise == 0.5 * (to - from))
            && (tier2 < from && to <= PhasedInAt(fs, b, taxYear) ==> rise == 0.85 * (to - from))
  {
    hide FrozenThreshold;
    hide SocialSecurityTiers;
    TiersOrdered(fs, taxYear);
  }

  /** Full up to the phaseout's start, six cents less on each dollar to its end, and gone from there on. */
  lemma DeductionShape(household: Household, taxYear: TaxYear, m: real)
    requires household.Valid()
    ensures var seniors := household.Seniors() as real;
            var fs := household.filingStatus;
            var bare := BaseDeduction(fs) + seniors * PerSenior(fs);
            var deduction := DeductionFor(household, taxYear, m);
            && (!PhaseoutApplies(household, taxYear) ==> deduction == bare)
            && (PhaseoutApplies(household, taxYear) && m <= PhaseoutStart(fs) ==> deduction == bare + seniors * 6000.0)
            && (PhaseoutApplies(household, taxYear) && PhaseoutStart(fs) <= m <= PhaseoutEnd(household)
                ==> deduction == bare + 0.06 * (PhaseoutEnd(household) - m))
            && (PhaseoutApplies(household, taxYear) && PhaseoutEnd(household) <= m ==> deduction == bare)
  {
  }

  /** Gains count toward the phaseout: past its end, however income is split, no enhanced deduction is left. */
  lemma PhaseoutCountsGains(household: Household, taxYear: TaxYear, o: real, q: real)
    requires household.Valid() && PhaseoutApplies(household, taxYear)
    ensures var fs := household.filingStatus;
            var seniors := household.Seniors() as real;
            var bare := BaseDeduction(fs) + seniors * PerSenior(fs);
            && (PhaseoutEnd(household) <= o + q ==>
                  FederalTaxOnIncome(household, taxYear, o, q) == FederalTaxOn(o, q, bare, fs, taxYear))
            && (o + q <= PhaseoutStart(fs) ==>
                  FederalTaxOnIncome(household, taxYear, o, q) == FederalTaxOn(o, q, bare + seniors * 6000.0, fs, taxYear))
  {
    DeductionShape(household, taxYear, o + q);
    hide FederalTaxOn;
    hide DeductionFor;
  }

  /** Gains are stacked on ordinary income, and 3.8% is owed on exactly the part of them above the threshold. */
  lemma InvestmentTaxIsAboveThreshold(o: real, q: real, fs: FilingStatus, taxYear: TaxYear)
    requires 0.0 <= q
    ensures var threshold := FrozenThreshold(NetInvestmentIncomeThreshold(fs), taxYear);
            NetInvestmentIncomeTax(o, q, fs, taxYear) == 0.038 * (Pos(o + q - threshold) - Pos(o - threshold))
  {
    hide FrozenThreshold;
  }

  /** What a state counts as income: gains like wages, Traditional contributions out, and HSA ones only where it conforms. */
  function StateIncome(state: State, input: StateTaxInput): real {
    input.wages + input.otherOrdinary + input.qualified - input.pretaxTraditional
    - (if state.CA? then 0.0 else input.pretaxHsa)
  }

  /** The same income owes a state the same however it came in, and owes California exactly above its deduction. */
  lemma StateSeesOneIncome(state: State, fs: FilingStatus, a: StateTaxInput, b: StateTaxInput)
    ensures StateIncome(state, a) == StateIncome(state, b) ==> StateTaxOf(state, fs, a) == StateTaxOf(state, fs, b)
    ensures StateTaxOf(state, fs, a) > 0.0 <==> state.CA? && StateIncome(state, a) > StateStandardDeduction(CA, fs).value
    ensures StateTaxOf(state, fs, a) >= 0.0
  {
    OnlyCalifornia(state, fs, a);
    OnlyCalifornia(state, fs, b);
    hide StateTaxOf;
    hide TaxBelow;
    CaliforniaTable(fs);
    CaliforniaRates(fs);
    hide CaliforniaBrackets;
    TaxedExactlyAboveBottom(CaliforniaBrackets(fs), CaliforniaIncome(fs, a));
    NothingBelow(CaliforniaBrackets(fs), 0.0);
    NeverFalls(CaliforniaBrackets(fs), 0.0, CaliforniaIncome(fs, a));
    hide StateStandardDeduction;
  }

  /** Without a benefit or gains, nothing is owed exactly while income fits under both deductions. */
  lemma UntaxedExactly(household: Household, state: State, taxYear: TaxYear, t: real)
    requires household.Valid() && 0.0 <= t
    ensures RetirementTax(t, 0.0, 0.0, household, state, taxYear) == 0.0
       <==> t <= DeductionFor(household, taxYear, t)
            && (state.CA? ==> t <= StateStandardDeduction(CA, household.filingStatus).value)
  {
    hide TaxBelow;
    hide DeductionFor;
    hide FederalTaxOn;
    hide StateTaxOf;
    hide StateStandardDeduction;
    var fs := household.filingStatus;
    assert TaxableSocialSecurity(t, 0.0, 0.0, fs, taxYear) == 0.0;
    hide TaxableSocialSecurity;
    FederalTaxIsStacked(t, 0.0, DeductionFor(household, taxYear, t), fs, taxYear);
    InvestmentTaxIsAboveThreshold(t, 0.0, fs, taxYear);
    hide NetInvestmentIncomeTax;
    FederalTable(fs);
    FederalRates(fs);
    hide FederalBrackets;
    TaxedExactlyAboveBottom(FederalBrackets(fs), t - DeductionFor(household, taxYear, t));
    BelowZero(FederalBrackets(fs), t - DeductionFor(household, taxYear, t));
    NothingBelow(FederalBrackets(fs), 0.0);
    NeverFalls(FederalBrackets(fs), 0.0, Pos(t - DeductionFor(household, taxYear, t)));
    var input := StateTaxInput(0.0, t, 0.0, 0.0, 0.0);
    StateSeesOneIncome(state, fs, input, input);
  }

  /**
   * The taxable income a conversion is measured by is the one the tables are read
   * at: ordinary tax up to it, gains stacked on it.
   */
  lemma TaxableIncomeIsTaxed(household: Household, state: State, taxYear: TaxYear, t: real, b: real, q: real)
    requires 0.0 <= q && 0.0 < RetirementTaxableIncome(t, b, q, household, taxYear)
    ensures var fs := household.filingStatus;
            var x := RetirementTaxableIncome(t, b, q, household, taxYear);
            var ordinary := t + TaxableSocialSecurity(t, b, q, fs, taxYear);
            RetirementTax(t, b, q, household, state, taxYear)
            == StackedTax(fs, x, q) + NetInvestmentIncomeTax(ordinary, q, fs, taxYear)
               + StateTaxOf(state, fs, StateTaxInput(0.0, t, q, 0.0, 0.0))
  {
    hide TaxableSocialSecurity;
    hide DeductionFor;
    hide FederalTaxOn;
    hide StackedTax;
    hide NetInvestmentIncomeTax;
    hide StateTaxOf;
    var fs := household.filingStatus;
    var ordinary := t + TaxableSocialSecurity(t, b, q, fs, taxYear);
    FederalTaxIsStacked(ordinary, q, DeductionFor(household, taxYear, ordinary + q), fs, taxYear);
  }

  /**
   * High enough that every phase-in and phaseout is over, the marginal rates of
   * the whole stack are exact for every household, year and benefit: 37 cents on
   * a withdrawn dollar and 23.8 on a realized gain, and California's 13.3 on both.
   */
  lemma TopRatesExactly(household: Household, state: State, taxYear: TaxYear, b: real, t: real, q: real, t2: real, q2: real)
    requires household.Valid() && taxYear.Valid() && 0.0 <= b
    requires 2000000.0 + b <= t <= t2 && 0.0 <= q <= q2
    ensures var r := if state.CA? then 0.133 else 0.0;
            RetirementTax(t2, b, q2, household, state, taxYear) - RetirementTax(t, b, q, household, state, taxYear)
            == (0.37 + r) * (t2 - t) + (0.238 + r) * (q2 - q)
  {
    hide TaxableSocialSecurity;
    hide FederalTaxOnIncome;
    hide StateTaxOf;
    var fs := household.filingStatus;
    FullyPhasedIn(fs, taxYear, b, t, q);
    FullyPhasedIn(fs, taxYear, b, t2, q2);
    TopFederalRates(household, taxYear, t + 0.85 * b, q, t2 + 0.85 * b, q2);
    TopStateRates(state, fs, t, q, t2, q2);
  }

  lemma FullyPhasedIn(fs: FilingStatus, taxYear: TaxYear, b: real, t: real, q: real)
    requires taxYear.Valid() && 0.0 <= b && 2000000.0 + b <= t && 0.0 <= q
    ensures TaxableSocialSecurity(t, b, q, fs, taxYear) == 0.85 * b
  {
    var tier2 := SocialSecurityTiers(fs).1;
    TiersOrdered(fs, taxYear);
    TimesShare(tier2, taxYear.frozenScale);
    hide FrozenThreshold;
    if b > 0.0 {
      BenefitTaxableExactly(fs, taxYear, b, t, q);
      PhaseInEnds(fs, taxYear, b);
      hide TaxableSocialSecurity;
      hide PhasedInAt;
    }
  }

  lemma PhaseInEnds(fs: FilingStatus, taxYear: TaxYear, b: real)
    requires taxYear.Valid() && 0.0 <= b
    ensures PhasedInAt(fs, b, taxYear) <= 44000.0 + b
  {
    TiersOrdered(fs, taxYear);
    TimesShare(SocialSecurityTiers(fs).1, taxYear.frozenScale);
  }

  lemma TopFederalRates(household: Household, taxYear: TaxYear, o: real, q: real, o2: real, q2: real)
    requires household.Valid() && taxYear.Valid() && 2000000.0 <= o <= o2 && 0.0 <= q <= q2
    ensures FederalTaxOnIncome(household, taxYear, o2, q2) - FederalTaxOnIncome(household, taxYear, o, q)
         == 0.37 * (o2 - o) + 0.238 * (q2 - q)
  {
    hide TaxBelow;
    hide FederalTaxOn;
    var fs := household.filingStatus;
    var d := DeductionFor(household, taxYear, o + q);
    PhaseoutIsOver(household, taxYear, o + q, o2 + q2);
    hide DeductionFor;
    FederalTaxIsStacked(o, q, d, fs, taxYear);
    FederalTaxIsStacked(o2, q2, d, fs, taxYear);
    TopBrackets(fs, o - d, q, o2 - d, q2);
    hide StackedTax;
    TopInvestmentTax(fs, taxYear, o, q);
    TopInvestmentTax(fs, taxYear, o2, q2);
    hide NetInvestmentIncomeTax;
  }

  lemma TopInvestmentTax(fs: FilingStatus, taxYear: TaxYear, o: real, q: real)
    requires taxYear.Valid() && 2000000.0 <= o && 0.0 <= q
    ensures NetInvestmentIncomeTax(o, q, fs, taxYear) == 0.038 * q
  {
    TimesShare(NetInvestmentIncomeThreshold(fs), taxYear.frozenScale);
    hide Times;
  }

  lemma PhaseoutIsOver(household: Household, taxYear: TaxYear, m: real, m2: real)
    requires household.Valid() && 350000.0 <= m <= m2
    ensures DeductionFor(household, taxYear, m) == DeductionFor(household, taxYear, m2) <= 50000.0
  {
  }

  lemma TopBrackets(fs: FilingStatus, x: real, q: real, x2: real, q2: real)
    requires 1900000.0 <= x <= x2 && 0.0 <= q <= q2
    ensures StackedTax(fs, x2, q2) - StackedTax(fs, x, q) == 0.37 * (x2 - x) + 0.20 * (q2 - q)
  {
    hide TaxBelow;
    var p, g := FederalBrackets(fs), GainsBrackets(fs);
    FederalTable(fs);
    GainsTable(fs);
    assert p[6].min <= 751600.0 && p[6].max.None? && p[6].rate == 0.37;
    assert g[2].min <= 600050.0 && g[2].max.None? && g[2].rate == 0.20;
    hide FederalBrackets;
    hide GainsBrackets;
    WithinBracket(p, 6, x, x2);
    WithinBracket(g, 2, x, x + q);
    WithinBracket(g, 2, x2, x2 + q2);
  }

  lemma TopStateRates(state: State, fs: FilingStatus, t: real, q: real, t2: real, q2: real)
    requires 2000000.0 <= t <= t2 && 0.0 <= q <= q2
    ensures var r := if state.CA? then 0.133 else 0.0;
            StateTaxOf(state, fs, StateTaxInput(0.0, t2, q2, 0.0, 0.0)) - StateTaxOf(state, fs, StateTaxInput(0.0, t, q, 0.0, 0.0))
            == r * (t2 - t) + r * (q2 - q)
  {
    hide TaxBelow;
    var a, b := StateTaxInput(0.0, t, q, 0.0, 0.0), StateTaxInput(0.0, t2, q2, 0.0, 0.0);
    OnlyCalifornia(state, fs, a);
    OnlyCalifornia(state, fs, b);
    hide StateTaxOf;
    var c := CaliforniaBrackets(fs);
    CaliforniaTable(fs);
    assert c[9].min <= 1485906.0 && c[9].max.None? && c[9].rate == 0.133;
    hide CaliforniaBrackets;
    assert StateStandardDeduction(CA, fs).value <= 11412.0;
    WithinBracket(c, 9, CaliforniaIncome(fs, a), CaliforniaIncome(fs, b));
  }
}
