// Roth conversions in the gap years: the outcome of a candidate, including the
// sale that pays its own tax, and the search for the largest one under a ceiling.
module RothConversion {
  import opened BracketTables
  import opened Domain
  import opened HealthcarePremiums
  import opened IncomeTax
  import opened Options
  import opened Reals
  import opened TaxTables

  const SETTLING_PASSES: nat := 4
  const SOLVE_STEPS: nat := 24
  const SOLVE_TOLERANCE := 1.0

  datatype Ceiling = Bracket12 | Bracket22 | Bracket24 | Bracket32 | IrmaaTier

  datatype ConversionInput = ConversionInput(
    enabled: bool,
    ceiling: Ceiling,
    traditionalWithdrawals: real,
    socialSecurityBenefit: real,
    qualifiedIncome: real,
    taxableWithdrawals: real,
    taxableGainRatio: real,
    household: Household,
    state: State,
    taxYear: TaxYear,
    traditionalBalance: real,
    taxableBalance: real)
  {
    predicate Valid() {
      && household.Valid() && taxYear.Valid()
      && 0.0 <= traditionalWithdrawals && 0.0 <= socialSecurityBenefit
      && 0.0 <= qualifiedIncome && 0.0 <= taxableWithdrawals
      && 0.0 <= taxableGainRatio <= 1.0
    }
  }

  datatype Outcome = Outcome(tax: real, fromTaxable: real, withheld: real, fundingGain: real)

  datatype Conversion = Conversion(converted: real, tax: real, fromTaxable: real, withheld: real)

  const NO_CONVERSION := Conversion(0.0, 0.0, 0.0, 0.0)

  // ---- Specification -------------------------------------------------------

  function TaxOf(conversion: real, qualifiedIncome: real, input: ConversionInput): real {
    RetirementTax(input.traditionalWithdrawals + conversion, input.socialSecurityBenefit, qualifiedIncome,
                  input.household, input.state, input.taxYear)
  }

  function BaseTax(input: ConversionInput): real {
    TaxOf(0.0, input.qualifiedIncome, input)
  }

  /** The conversion's bill when paying it sells `sold` taxable dollars. */
  function Bill(sold: real, conversion: real, input: ConversionInput): real {
    Pos(TaxOf(conversion, input.qualifiedIncome + Times(sold, input.taxableGainRatio), input) - BaseTax(input))
  }

  /** Taxable dollars sold after `passes` rounds of paying the bill the last round implied. */
  function SoldAfter(passes: nat, conversion: real, input: ConversionInput): real {
    if passes == 0 then 0.0
    else Min(Bill(SoldAfter(passes - 1, conversion, input), conversion, input), Pos(input.taxableBalance))
  }

  function OutcomeOf(conversion: real, input: ConversionInput): Outcome {
    var tax := Bill(SoldAfter(SETTLING_PASSES - 1, conversion, input), conversion, input);
    var fromTaxable := SoldAfter(SETTLING_PASSES, conversion, input);
    Outcome(tax, fromTaxable, Min(conversion, tax - fromTaxable), Times(fromTaxable, input.taxableGainRatio))
  }

  /** The top of the first bracket at a rate; the comparison is exact over the reals. */
  function BracketTop(t: seq<Bracket>, rate: real): Option<real> {
    if |t| == 0 then None
    else if t[0].rate == rate then t[0].max
    else BracketTop(t[1..], rate)
  }

  function CeilingRate(ceiling: Ceiling): real
    requires ceiling != IrmaaTier
  {
    match ceiling
    case Bracket12 => 0.12
    case Bracket22 => 0.22
    case Bracket24 => 0.24
    case Bracket32 => 0.32
  }

  function CeilingLimit(input: ConversionInput): Option<real> {
    if input.ceiling == IrmaaTier then Some(IrmaaFreeMagiCeiling(input.household.filingStatus))
    else BracketTop(FederalBrackets(input.household.filingStatus), CeilingRate(input.ceiling))
  }

  function Measure(conversion: real, fundingGain: real, input: ConversionInput): real {
    if input.ceiling == IrmaaTier then
      input.socialSecurityBenefit + input.traditionalWithdrawals + conversion
      + Times(input.taxableWithdrawals, input.taxableGainRatio) + fundingGain
    else
      RetirementTaxableIncome(input.traditionalWithdrawals + conversion, input.socialSecurityBenefit,
                              input.qualifiedIncome + fundingGain, input.household, input.taxYear)
  }

  /** Positive when a conversion breaches the ceiling once the sale that pays for it is counted. */
  function GapAt(conversion: real, input: ConversionInput): real
    requires CeilingLimit(input).Some?
  {
    Measure(conversion, OutcomeOf(conversion, input).fundingGain, input) - CeilingLimit(input).value
  }

  function Settle(converted: real, input: ConversionInput): Conversion {
    if converted <= 0.0 then NO_CONVERSION
    else
      var o := OutcomeOf(converted, input);
      Conversion(converted, o.tax, o.fromTaxable, o.withheld)
  }

  // ---- The settling loop -----------------------------------------------------

  lemma GainRises(s: real, s2: real, input: ConversionInput)
    requires input.Valid() && 0.0 <= s <= s2
    ensures 0.0 <= Times(s, input.taxableGainRatio) <= Times(s2, input.taxableGainRatio) <= s2
  {
    hide Times;
    TimesShare(s, input.taxableGainRatio);
    TimesShare(s2, input.taxableGainRatio);
    TimesMono(input.taxableGainRatio, s, s2);
    TimesSwap(input.taxableGainRatio, s);
    TimesSwap(input.taxableGainRatio, s2);
  }

  /** A larger conversion, paid with a larger sale, owes at least as much. */
  lemma BillRises(sold: real, sold2: real, c: real, c2: real, input: ConversionInput)
    requires input.Valid() && 0.0 <= c <= c2 && 0.0 <= sold <= sold2
    ensures 0.0 <= Bill(sold, c, input) <= Bill(sold2, c2, input)
  {
    hide RetirementTax;
    hide Times;
    GainRises(sold, sold2, input);
    RetirementTaxSlope(input.household, input.state, input.taxYear, input.socialSecurityBenefit,
                       input.traditionalWithdrawals + c, input.qualifiedIncome + Times(sold, input.taxableGainRatio),
                       input.traditionalWithdrawals + c2, input.qualifiedIncome + Times(sold2, input.taxableGainRatio));
  }

  /** The bill is no more than the conversion and the sale together. */
  lemma BillWithinMeans(sold: real, c: real, input: ConversionInput)
    requires input.Valid() && 0.0 <= c && 0.0 <= sold
    ensures Bill(sold, c, input) <= c + sold
  {
    hide RetirementTax;
    hide Times;
    GainRises(sold, sold, input);
    RetirementTaxSlope(input.household, input.state, input.taxYear, input.socialSecurityBenefit,
                       input.traditionalWithdrawals, input.qualifiedIncome,
                       input.traditionalWithdrawals + c, input.qualifiedIncome + Times(sold, input.taxableGainRatio));
  }

  /** Settled just as many times, a larger conversion sells at least as much. */
  lemma {:induction false} SettlingRises(passes: nat, c: real, c2: real, input: ConversionInput)
    requires input.Valid() && 0.0 <= c <= c2
    ensures 0.0 <= SoldAfter(passes, c, input) <= SoldAfter(passes, c2, input) <= Pos(input.taxableBalance)
  {
    hide Bill;
    if passes > 0 {
      SettlingRises(passes - 1, c, c2, input);
      BillRises(SoldAfter(passes - 1, c, input), SoldAfter(passes - 1, c2, input), c, c2, input);
    }
  }

  /** Every settling pass only raises the taxable dollars that fund the bill. */
  lemma {:induction false} PassesOnlyRaise(passes: nat, c: real, input: ConversionInput)
    requires input.Valid() && 0.0 <= c
    ensures SoldAfter(passes, c, input) <= SoldAfter(passes + 1, c, input)
  {
    hide Bill;
    SettlingRises(passes + 1, c, c, input);
    if passes > 0 {
      PassesOnlyRaise(passes - 1, c, input);
      SettlingRises(passes - 1, c, c, input);
      BillRises(SoldAfter(passes - 1, c, input), SoldAfter(passes, c, input), c, c, input);
    }
  }

  /**
   * The bill is fully paid: what taxable money does not cover is withheld, and
   * the withholding fits inside the conversion.
   */
  lemma BillIsPaid(c: real, input: ConversionInput)
    requires input.Valid() && 0.0 <= c
    ensures var o := OutcomeOf(c, input);
            && o.tax == o.fromTaxable + o.withheld
            && 0.0 <= o.withheld <= c
            && 0.0 <= o.fromTaxable <= Pos(input.taxableBalance)
            && 0.0 <= o.fundingGain <= o.fromTaxable
  {
    hide Bill;
    hide Times;
    var last := SETTLING_PASSES - 1;
    var sold, before := SoldAfter(SETTLING_PASSES, c, input), SoldAfter(last, c, input);
    PassesOnlyRaise(last, c, input);
    SettlingRises(SETTLING_PASSES, c, c, input);
    SettlingRises(last, c, c, input);
    GainRises(sold, sold, input);
    BillWithinMeans(before, c, input);
  }

  /** A geometric tail: `ratio` to the `k` times `x`. */
  function Powered(ratio: real, k: nat, x: real): real {
    if k == 0 then x else Times(ratio, Powered(ratio, k - 1, x))
  }

  /** The most another sold dollar can add to the bill. */
  function FeedbackRate(input: ConversionInput): real {
    0.7603 * input.taxableGainRatio
  }

  lemma BillSlope(sold: real, sold2: real, c: real, input: ConversionInput)
    requires input.Valid() && 0.0 <= c && 0.0 <= sold <= sold2
    ensures Bill(sold2, c, input) - Bill(sold, c, input) <= Times(FeedbackRate(input), sold2 - sold)
  {
    hide RetirementTax;
    hide Times;
    var g := input.taxableGainRatio;
    BillRises(sold, sold2, c, c, input);
    GainRises(sold, sold2, input);
    TimesDiff(g, sold2, sold);
    Scaled(g, sold2 - sold);
    RetirementTaxSlope(input.household, input.state, input.taxYear, input.socialSecurityBenefit,
                       input.traditionalWithdrawals + c, input.qualifiedIncome + Times(sold, g),
                       input.traditionalWithdrawals + c, input.qualifiedIncome + Times(sold2, g));
    BillWithinMeans(sold, c, input);
  }

  lemma Scaled(g: real, x: real)
    ensures Times(0.7603 * g, x) == 0.7603 * Times(x, g) == 0.7603 * Times(g, x)
  {
  }

  /**
   * How settled the passes are: each moves the bill by at most the feedback rate
   * times what the one before moved it, so after `k` more passes it is within
   * that rate to the `k` of the first bill.
   */
  lemma {:induction false} PassesSettle(k: nat, c: real, input: ConversionInput)
    requires input.Valid() && 0.0 <= c
    ensures var before := if k == 0 then 0.0 else Bill(SoldAfter(k - 1, c, input), c, input);
            var after := Bill(SoldAfter(k, c, input), c, input);
            0.0 <= after - before <= Powered(FeedbackRate(input), k, Bill(0.0, c, input))
  {
    hide Bill;
    hide Times;
    hide FeedbackRate;
    BillRises(0.0, 0.0, c, c, input);
    if k > 0 {
      PassesSettle(k - 1, c, input);
      PassesOnlyRaise(k - 1, c, input);
      SettlingRises(k - 1, c, c, input);
      SettlingRises(k, c, c, input);
      var sold, sold2 := SoldAfter(k - 1, c, input), SoldAfter(k, c, input);
      BillRises(sold, sold2, c, c, input);
      BillSlope(sold, sold2, c, input);
      SoldMovesLess(k, c, input);
      RateIsNonNegative(input);
      TimesMono(FeedbackRate(input), sold2 - sold, Powered(FeedbackRate(input), k - 1, Bill(0.0, c, input)));
    }
  }

  lemma RateIsNonNegative(input: ConversionInput)
    requires input.Valid()
    ensures 0.0 <= FeedbackRate(input)
  {
  }

  /** A pass sells no more than the bill moved. */
  lemma SoldMovesLess(k: nat, c: real, input: ConversionInput)
    requires input.Valid() && 0.0 <= c && k > 0
    ensures SoldAfter(k, c, input) - SoldAfter(k - 1, c, input)
         <= Bill(SoldAfter(k - 1, c, input), c, input) - (if k == 1 then 0.0 else Bill(SoldAfter(k - 2, c, input), c, input))
  {
    hide Bill;
    SettlingRises(k - 1, c, c, input);
    BillRises(SoldAfter(k - 1, c, input), SoldAfter(k - 1, c, input), c, c, input);
    if k > 1 {
      SettlingRises(k - 2, c, c, input);
      PassesOnlyRaise(k - 2, c, input);
      BillRises(SoldAfter(k - 2, c, input), SoldAfter(k - 1, c, input), c, c, input);
    }
  }

  // ---- The measure is monotone and outruns every ceiling ----------------------

  lemma GapRises(c: real, c2: real, input: ConversionInput)
    requires input.Valid() && 0.0 <= c <= c2 && CeilingLimit(input).Some?
    ensures GapAt(c, input) <= GapAt(c2, input)
  {
    hide SoldAfter;
    hide Bill;
    hide CeilingLimit;
    hide RetirementTaxableIncome;
    hide Times;
    SettlingRises(SETTLING_PASSES, c, c2, input);
    GainRises(SoldAfter(SETTLING_PASSES, c, input), SoldAfter(SETTLING_PASSES, c2, input), input);
    var g, g2 := OutcomeOf(c, input).fundingGain, OutcomeOf(c2, input).fundingGain;
    TaxableIncomeRises(input.household, input.taxYear, input.socialSecurityBenefit,
                       input.traditionalWithdrawals + c, input.qualifiedIncome + g,
                       input.traditionalWithdrawals + c2, input.qualifiedIncome + g2);
  }

  /** Every ceiling exists, and is taller than any deduction a household can stack under it. */
  lemma CeilingAboveDeduction(input: ConversionInput, magi: real)
    requires input.Valid()
    ensures CeilingLimit(input).Some?
    ensures 0.0 < CeilingLimit(input).value
    ensures input.ceiling != IrmaaTier ==> DeductionFor(input.household, input.taxYear, magi) < CeilingLimit(input).value
  {
    DeductionAtMost(input.household, input.taxYear, magi);
    hide DeductionFor;
    if input.ceiling != IrmaaTier {
      TopsAboveDeduction(input.household.filingStatus, CeilingRate(input.ceiling));
    }
  }

  function LargestDeduction(fs: FilingStatus): real {
    match fs
    case Single => 31750.0
    case MarriedFilingJointly => 46700.0
    case MarriedFilingSeparately => 18950.0
    case HeadOfHousehold => 39625.0
  }

  lemma DeductionAtMost(household: Household, taxYear: TaxYear, magi: real)
    requires household.Valid()
    ensures DeductionFor(household, taxYear, magi) <= LargestDeduction(household.filingStatus)
  {
  }

  lemma TopsAboveDeduction(fs: FilingStatus, rate: real)
    requires rate == 0.12 || rate == 0.22 || rate == 0.24 || rate == 0.32
    ensures BracketTop(FederalBrackets(fs), rate).Some?
    ensures LargestDeduction(fs) < BracketTop(FederalBrackets(fs), rate).value
  {
    var t := FederalBrackets(fs);
    if rate == 0.12 {
      FoundAt(t, 1, rate);
    } else if rate == 0.22 {
      FoundAt(t, 2, rate);
    } else if rate == 0.24 {
      FoundAt(t, 3, rate);
    } else {
      FoundAt(t, 4, rate);
    }
  }

  lemma {:induction false} FoundAt(t: seq<Bracket>, i: nat, rate: real)
    requires i < |t| && t[i].rate == rate
    requires forall j | 0 <= j < i :: t[j].rate != rate
    ensures BracketTop(t, rate) == t[i].max
  {
    if i > 0 {
      assert t[0].rate != rate;
      assert forall j | 0 <= j < i - 1 :: t[1..][j] == t[j + 1];
      FoundAt(t[1..], i - 1, rate);
    }
  }

  /** Twice the limit and the benefit together always breach, so the search starts bracketed. */
  lemma TwiceTheLimitBreaches(input: ConversionInput)
    requires input.Valid() && CeilingLimit(input).Some?
    ensures 0.0 < CeilingLimit(input).value
    ensures 0.0 < GapAt(2.0 * CeilingLimit(input).value + input.socialSecurityBenefit, input)
  {
    hide SoldAfter;
    hide Bill;
    hide CeilingLimit;
    hide DeductionFor;
    hide TaxableSocialSecurity;
    hide Times;
    CeilingAboveDeduction(input, 0.0);
    var limit := CeilingLimit(input).value;
    var c := 2.0 * limit + input.socialSecurityBenefit;
    SettlingRises(SETTLING_PASSES, c, c, input);
    GainRises(SoldAfter(SETTLING_PASSES, c, input), SoldAfter(SETTLING_PASSES, c, input), input);
    TimesShare(input.taxableWithdrawals, input.taxableGainRatio);
    if input.ceiling != IrmaaTier {
      var q := input.qualifiedIncome + OutcomeOf(c, input).fundingGain;
      var t := input.traditionalWithdrawals + c;
      var s := TaxableSocialSecurity(t, input.socialSecurityBenefit, q, input.household.filingStatus, input.taxYear);
      SocialSecuritySlope(input.household.filingStatus, input.taxYear, input.socialSecurityBenefit, t, q, t, q);
      CeilingAboveDeduction(input, t + s + q);
    }
  }

  // ---- Where four passes are not settled ---------------------------------------

  /** A couple in Texas filling the 32% bracket with half a million, paid by sales at the given gain ratio. */
  function LargeConversion(ratio: real): ConversionInput {
    ConversionInput(true, Bracket32, 0.0, 0.0, 0.0, 0.0, ratio, Household(MarriedFilingJointly, [60]), TX,
                    TaxYear(2025, 1.0), 500000.0, 200000.0)
  }

  const LARGE_BILL := 104046.0
  const LARGE_RATE := 0.188

  /** Its bill is 104,046 dollars plus 18.8 cents on each dollar of gain the sale that pays it realizes. */
  lemma LargeBill(input: ConversionInput, c: real, sold: real)
    requires input.Valid() && input == LargeConversion(input.taxableGainRatio) && c == 500000.0 && 0.0 <= sold <= 131550.0
    ensures Bill(sold, c, input) == LARGE_BILL + Times(LARGE_RATE * input.taxableGainRatio, sold)
  {
    hide TaxOf;
    var q := Times(sold, input.taxableGainRatio);
    TimesShare(sold, input.taxableGainRatio);
    LargeTaxOf(input, c, q);
    assert input.qualifiedIncome == 0.0;
    hide LargeConversion;
    ScaledByRate(input.taxableGainRatio, sold);
    hide Times;
  }

  lemma ScaledByRate(g: real, x: real)
    ensures Times(LARGE_RATE * g, x) == LARGE_RATE * Times(x, g)
  {
  }

  lemma LargeTaxOf(input: ConversionInput, conversion: real, q: real)
    requires input == LargeConversion(input.taxableGainRatio) && conversion == 500000.0 && 0.0 <= q <= 131550.0
    ensures TaxOf(conversion, q, input) == LARGE_BILL + LARGE_RATE * q && TaxOf(0.0, 0.0, input) == 0.0
  {
    hide FederalTaxOnIncome;
    hide TaxableSocialSecurity;
    hide StateTaxOf;
    LargeTax(input.household, input.taxYear, conversion, q);
    NothingOwed(input.household, input.taxYear);
    UntaxedBenefit(input.household, input.taxYear, conversion, q);
    UntaxedBenefit(input.household, input.taxYear, 0.0, 0.0);
  }

  lemma UntaxedBenefit(household: Household, taxYear: TaxYear, t: real, q: real)
    ensures TaxableSocialSecurity(t, 0.0, q, household.filingStatus, taxYear) == 0.0
    ensures StateTaxOf(TX, household.filingStatus, StateTaxInput(0.0, t, q, 0.0, 0.0)) == 0.0
  {
  }

  lemma NothingOwed(household: Household, taxYear: TaxYear)
    requires household.Valid() && taxYear.Valid()
    ensures FederalTaxOnIncome(household, taxYear, 0.0, 0.0) == 0.0
  {
    hide TaxBelow;
    hide DeductionFor;
    hide FrozenThreshold;
    var fs := household.filingStatus;
    FederalTable(fs);
    GainsTable(fs);
    DeductionSlope(household, taxYear, 0.0, 0.0);
    NothingBelow(FederalBrackets(fs), 0.0);
  }

  lemma LargeTax(household: Household, taxYear: TaxYear, ordinary: real, sold: real)
    requires household == Household(MarriedFilingJointly, [60]) && taxYear == TaxYear(2025, 1.0)
    requires ordinary == 500000.0 && 0.0 <= sold <= 131550.0
    ensures FederalTaxOnIncome(household, taxYear, ordinary, sold) == LARGE_BILL + LARGE_RATE * sold
  {
    hide TaxBelow;
    assert household.ages[1..] == [] && household.Seniors() == 0;
    assert DeductionFor(household, taxYear, ordinary + sold) == 31500.0;
    FederalTaxIsStacked(ordinary, sold, 31500.0, MarriedFilingJointly, taxYear);
    LargeOrdinaryTax(FederalBrackets(MarriedFilingJointly));
    LargeGainsTax(GainsBrackets(MarriedFilingJointly), sold);
    assert FrozenThreshold(NetInvestmentIncomeThreshold(MarriedFilingJointly), taxYear) == 250000.0;
  }

  lemma LargeOrdinaryTax(t: seq<Bracket>)
    requires t == FederalBrackets(MarriedFilingJointly)
    ensures TaxBelow(t, 468500.0) == LARGE_BILL
  {
    hide TaxBelow;
    FederalTable(MarriedFilingJointly);
    assert t[0] == Bracket(0.0, Some(23850.0), 0.10) && t[1] == Bracket(23850.0, Some(96950.0), 0.12);
    assert t[2] == Bracket(96950.0, Some(206700.0), 0.22) && t[3] == Bracket(206700.0, Some(394600.0), 0.24);
    assert t[4] == Bracket(394600.0, Some(501050.0), 0.32);
    hide FederalBrackets;
    NothingBelow(t, 0.0);
    WithinBracket(t, 0, 0.0, 23850.0);
    WithinBracket(t, 1, 23850.0, 96950.0);
    WithinBracket(t, 2, 96950.0, 206700.0);
    WithinBracket(t, 3, 206700.0, 394600.0);
    WithinBracket(t, 4, 394600.0, 468500.0);
  }

  lemma LargeGainsTax(t: seq<Bracket>, sold: real)
    requires t == GainsBrackets(MarriedFilingJointly) && 0.0 <= sold <= 131550.0
    ensures TaxBelow(t, 468500.0 + sold) - TaxBelow(t, 468500.0) == 0.15 * sold
  {
    hide TaxBelow;
    GainsTable(MarriedFilingJointly);
    assert t[1] == Bracket(96900.0, Some(600050.0), 0.15);
    hide GainsBrackets;
    WithinBracket(t, 1, 468500.0, 468500.0 + sold);
  }

  lemma LargeIsGiven(input: ConversionInput)
    requires input.Valid() && input == LargeConversion(input.taxableGainRatio)
    ensures ConversionFor(input).converted == 500000.0
    ensures ConversionFor(input).tax == Bill(SoldAfter(SETTLING_PASSES - 1, 500000.0, input), 500000.0, input)
  {
    hide Bill;
    hide SoldAfter;
    LargeFits(input);
    hide GapAt;
    hide CeilingLimit;
  }

  lemma LargeFits(input: ConversionInput)
    requires input == LargeConversion(input.taxableGainRatio)
    ensures CeilingLimit(input).Some? && GapAt(0.0, input) < 0.0 && GapAt(500000.0, input) <= 0.0
  {
    hide SoldAfter;
    hide Bill;
    hide Times;
    TopsAboveDeduction(MarriedFilingJointly, 0.32);
    FoundAt(FederalBrackets(MarriedFilingJointly), 4, 0.32);
    hide FederalBrackets;
    assert input.household.ages[1..] == [] && input.household.Seniors() == 0;
    assert forall magi :: DeductionFor(input.household, input.taxYear, magi) == 31500.0;
    hide DeductionFor;
  }

  /** One more pass, still inside the same brackets and the taxable account. */
  lemma NextSold(input: ConversionInput, c: real, sold: real) returns (next: real)
    requires input.Valid() && input == LargeConversion(input.taxableGainRatio) && c == 500000.0 && 0.0 <= sold <= 131550.0
    ensures next == Bill(sold, c, input) == LARGE_BILL + Times(LARGE_RATE * input.taxableGainRatio, sold)
    ensures 0.0 <= next <= 131550.0
  {
    hide Bill;
    hide LargeConversion;
    LargeBill(input, c, sold);
    next := Bill(sold, c, input);
    ScaledByRate(input.taxableGainRatio, sold);
    TimesShare(sold, input.taxableGainRatio);
    hide Times;
  }

  /** What a pass past the last would add to the bill. */
  function NextPassAdds(c: real, input: ConversionInput): real {
    Bill(SoldAfter(SETTLING_PASSES, c, input), c, input) - Bill(SoldAfter(SETTLING_PASSES - 1, c, input), c, input)
  }

  /** The couple's passes are an exact geometric series. */
  lemma LargePasses(input: ConversionInput, c: real)
    requires input.Valid() && input == LargeConversion(input.taxableGainRatio) && c == 500000.0
    ensures NextPassAdds(c, input) == Powered(LARGE_RATE * input.taxableGainRatio, SETTLING_PASSES, LARGE_BILL)
  {
    hide Bill;
    hide Times;
    var f := LARGE_RATE * input.taxableGainRatio;
    assert Pos(input.taxableBalance) == 200000.0;
    TimesZero(f);
    var s1 := NextSold(input, c, 0.0);
    var s2 := NextSold(input, c, s1);
    var s3 := NextSold(input, c, s2);
    var s4 := NextSold(input, c, s3);
    LargeBill(input, c, s4);
    hide LargeConversion;
    assert SoldAfter(1, c, input) == s1;
    assert SoldAfter(2, c, input) == s2;
    assert SoldAfter(3, c, input) == s3;
    assert SoldAfter(4, c, input) == s4;
    hide SoldAfter;
    TimesDiff(f, s4, s3);
    TimesDiff(f, s3, s2);
    TimesDiff(f, s2, s1);
    FourTimes(f, LARGE_BILL);
  }

  lemma FourTimes(f: real, x: real)
    ensures Powered(f, 4, x) == Times(f, Times(f, Times(f, Times(f, x))))
  {
    hide Times;
    assert Powered(f, 1, x) == Times(f, x);
    assert Powered(f, 2, x) == Times(f, Powered(f, 1, x));
    assert Powered(f, 3, x) == Times(f, Powered(f, 2, x));
  }

  lemma {:induction false} PoweredIsPositive(ratio: real, k: nat, x: real)
    requires 0.0 < ratio && 0.0 < x
    ensures 0.0 < Powered(ratio, k, x)
  {
    if k > 0 {
      PoweredIsPositive(ratio, k - 1, x);
    }
  }

  lemma {:induction false} PoweredRises(ratio: real, k: nat, x: real, y: real)
    requires 0.0 <= ratio && x <= y
    ensures Powered(ratio, k, x) <= Powered(ratio, k, y)
  {
    if k > 0 {
      PoweredRises(ratio, k - 1, x, y);
      TimesMono(ratio, Powered(ratio, k - 1, x), Powered(ratio, k - 1, y));
      hide Times;
    }
  }

  /**
   * The source expects four passes to settle any bill to a few dollars. The
   * conversion this couple is given converts all it asked for, under its ceiling,
   * and a fifth pass would still add between one and two hundred dollars to its bill.
   */
  lemma FourPassesMiss(input: ConversionInput)
    requires input == LargeConversion(1.0)
    ensures ConversionFor(input).converted == 500000.0
    ensures 100.0 < Bill(SoldAfter(SETTLING_PASSES, 500000.0, input), 500000.0, input) - ConversionFor(input).tax < 200.0
  {
    LargeIsGiven(input);
    LargePasses(input, 500000.0);
    FourTimes(LARGE_RATE, LARGE_BILL);
    hide ConversionFor;
    hide Bill;
    hide SoldAfter;
    hide Powered;
  }

  /** At this gain ratio every conversion the search gives is billed all it owes: another pass adds nothing. */
  ghost predicate AlwaysSettles(ratio: real) {
    forall input: ConversionInput | input.Valid() && input.taxableGainRatio == ratio ::
      NextPassAdds(ConversionFor(input).converted, input) <= 0.0
  }

  /** Four passes settle the bill of every conversion given exactly when sales realize no gain at all. */
  lemma SettlesExactlyWithoutGains(ratio: real)
    requires 0.0 <= ratio <= 1.0
    ensures AlwaysSettles(ratio) <==> ratio == 0.0
  {
    hide NextPassAdds;
    hide ConversionFor;
    if ratio == 0.0 {
      forall input: ConversionInput | input.Valid() && input.taxableGainRatio == ratio
        ensures NextPassAdds(ConversionFor(input).converted, input) <= 0.0
      {
        ConversionIsPaid(input);
        NoFeedback(ConversionFor(input).converted, input);
      }
    } else {
      var input := LargeConversion(ratio);
      assert input.Valid() && input.taxableGainRatio == ratio;
      hide LargeConversion;
      LargeIsGiven(input);
      LargePasses(input, ConversionFor(input).converted);
      PoweredIsPositive(LARGE_RATE * ratio, SETTLING_PASSES, LARGE_BILL);
      hide Powered;
    }
  }

  lemma NoFeedback(c: real, input: ConversionInput)
    requires input.Valid() && input.taxableGainRatio == 0.0 && 0.0 <= c
    ensures NextPassAdds(c, input) <= 0.0
  {
    hide Bill;
    hide SoldAfter;
    PassesSettle(SETTLING_PASSES, c, input);
  }

  lemma {:induction false} SearchFits(input: ConversionInput, low: real, top: real, step: nat)
    requires CeilingLimit(input).Some? && step <= SOLVE_STEPS && GapAt(low, input) <= 0.0
    ensures GapAt(Search(input, low, top, step), input) <= 0.0
    decreases SOLVE_STEPS - step
  {
    hide GapAt;
    hide CeilingLimit;
    hide Candidate;
    if step < SOLVE_STEPS && top - low > SOLVE_TOLERANCE {
      var mid := Candidate(low, top, GapAt(low, input), GapAt(top, input), step);
      if GapAt(mid, input) <= 0.0 {
        SearchFits(input, mid, top, step + 1);
      } else {
        SearchFits(input, low, mid, step + 1);
      }
    }
  }

  /** What is converted never breaches the ceiling it was measured against. */
  lemma ConversionFits(input: ConversionInput)
    requires input.Valid() && CeilingLimit(input).Some?
    ensures ConversionFor(input).converted > 0.0 ==> GapAt(ConversionFor(input).converted, input) <= 0.0
  {
    hide GapAt;
    hide CeilingLimit;
    hide Settle;
    hide Search;
    SettledIsPaid(0.0, input);
    if input.enabled && input.traditionalBalance > 0.0 && GapAt(0.0, input) < 0.0 {
      SettledIsPaid(input.traditionalBalance, input);
      TwiceTheLimitBreaches(input);
      var high := Min(input.traditionalBalance, 2.0 * CeilingLimit(input).value + input.socialSecurityBenefit);
      SearchFits(input, 0.0, high, 0);
      SearchStaysInside(input, 0.0, high, 0);
      var low := Search(input, 0.0, high, 0);
      FloorBelow(low);
      SettledIsPaid(FloorOf(low), input);
      GapRises(FloorOf(low), low, input);
      hide FloorOf;
    }
  }

  // ---- The ceiling in the year's own figures ------------------------------------

  /** The top of the federal bracket a ceiling fills: the second, third, fourth or fifth from the bottom. */
  function FilledTop(ceiling: Ceiling, fs: FilingStatus): Option<real>
    requires ceiling != IrmaaTier
  {
    match ceiling
    case Bracket12 => FederalBrackets(fs)[1].max
    case Bracket22 => FederalBrackets(fs)[2].max
    case Bracket24 => FederalBrackets(fs)[3].max
    case Bracket32 => FederalBrackets(fs)[4].max
  }

  /**
   * How far under its ceiling a year ends that converted and sold this much, by
   * what it reports: the whole benefit, every traditional dollar paid out or
   * converted and the gain on everything sold, under the IRMAA line; or its
   * federal taxable income under the top of the bracket.
   */
  function RoomLeft(converted: real, sold: real, input: ConversionInput): real
    requires input.ceiling != IrmaaTier ==> FilledTop(input.ceiling, input.household.filingStatus).Some?
  {
    var fs := input.household.filingStatus;
    if input.ceiling == IrmaaTier then
      IrmaaFreeMagiCeiling(fs)
      - (input.socialSecurityBenefit + input.traditionalWithdrawals + converted
         + Times(input.taxableGainRatio, input.taxableWithdrawals + sold))
    else
      FilledTop(input.ceiling, fs).value
      - RetirementTaxableIncome(input.traditionalWithdrawals + converted, input.socialSecurityBenefit,
                                input.qualifiedIncome + Times(sold, input.taxableGainRatio), input.household, input.taxYear)
  }

  /** Which bracket of the table each ceiling names. */
  lemma CeilingIsBracketTop(input: ConversionInput)
    requires input.ceiling != IrmaaTier
    ensures CeilingLimit(input) == FilledTop(input.ceiling, input.household.filingStatus)
    ensures CeilingLimit(input).Some?
  {
    var t := FederalBrackets(input.household.filingStatus);
    match input.ceiling
    case Bracket12 => FoundAt(t, 1, 0.12);
    case Bracket22 => FoundAt(t, 2, 0.22);
    case Bracket24 => FoundAt(t, 3, 0.24);
    case Bracket32 => FoundAt(t, 4, 0.32);
    TopsAboveDeduction(input.household.filingStatus, CeilingRate(input.ceiling));
  }

  /** What the search measures is what the year will report: the gap is the room left, negated. */
  lemma GapIsRoom(c: real, input: ConversionInput)
    ensures CeilingLimit(input).Some?
    ensures input.ceiling != IrmaaTier ==> FilledTop(input.ceiling, input.household.filingStatus).Some?
    ensures GapAt(c, input) == -RoomLeft(c, SoldAfter(SETTLING_PASSES, c, input), input)
  {
    hide SoldAfter;
    hide Bill;
    hide RetirementTaxableIncome;
    hide Times;
    var sold, g := SoldAfter(SETTLING_PASSES, c, input), input.taxableGainRatio;
    TimesSum(g, input.taxableWithdrawals, sold);
    TimesSwap(g, input.taxableWithdrawals);
    TimesSwap(g, sold);
    if input.ceiling != IrmaaTier {
      CeilingIsBracketTop(input);
    }
    hide FederalBrackets;
  }

  /** A conversion under its ceiling is no larger than the ceiling and the deduction under it. */
  lemma CeilingBoundsConversion(c: real, input: ConversionInput)
    requires input.Valid() && CeilingLimit(input).Some? && 0.0 <= c && GapAt(c, input) <= 0.0
    ensures c <= CeilingLimit(input).value + LargestDeduction(input.household.filingStatus)
  {
    hide SoldAfter;
    hide Bill;
    hide CeilingLimit;
    hide DeductionFor;
    hide TaxableSocialSecurity;
    hide Times;
    SettlingRises(SETTLING_PASSES, c, c, input);
    GainRises(SoldAfter(SETTLING_PASSES, c, input), SoldAfter(SETTLING_PASSES, c, input), input);
    TimesShare(input.taxableWithdrawals, input.taxableGainRatio);
    if input.ceiling != IrmaaTier {
      var q := input.qualifiedIncome + OutcomeOf(c, input).fundingGain;
      var t := input.traditionalWithdrawals + c;
      var s := TaxableSocialSecurity(t, input.socialSecurityBenefit, q, input.household.filingStatus, input.taxYear);
      SocialSecuritySlope(input.household.filingStatus, input.taxYear, input.socialSecurityBenefit, t, q, t, q);
      DeductionAtMost(input.household, input.taxYear, t + s + q);
    }
  }

  /**
   * How far from settled the bill of a conversion given can be: the feedback rate
   * to the fourth of the ceiling and the deduction that fits under it, both known
   * before any candidate is tried.
   */
  lemma GivenConversionsSettleWithin(input: ConversionInput)
    requires input.Valid()
    ensures CeilingLimit(input).Some?
    ensures 0.0 <= NextPassAdds(ConversionFor(input).converted, input)
         <= Powered(FeedbackRate(input), SETTLING_PASSES,
                    CeilingLimit(input).value + LargestDeduction(input.household.filingStatus))
  {
    hide Bill;
    hide SoldAfter;
    hide ConversionFor;
    hide GapAt;
    hide LargestDeduction;
    CeilingAboveDeduction(input, 0.0);
    hide CeilingLimit;
    ConversionIsPaid(input);
    ConversionFits(input);
    var c := ConversionFor(input).converted;
    DeductionIsPositive(input.household.filingStatus);
    if c > 0.0 {
      CeilingBoundsConversion(c, input);
    }
    PassesSettle(SETTLING_PASSES, c, input);
    BillWithinMeans(0.0, c, input);
    RateIsNonNegative(input);
    PoweredRises(FeedbackRate(input), SETTLING_PASSES, Bill(0.0, c, input),
                 CeilingLimit(input).value + LargestDeduction(input.household.filingStatus));
    hide Powered;
    hide FeedbackRate;
  }

  lemma DeductionIsPositive(fs: FilingStatus)
    ensures 0.0 < LargestDeduction(fs)
  {
  }

  /**
   * No conversion given breaches the IRMAA ceiling: the income the year reports,
   * the gain on the sale that pays the conversion's own tax included, stays
   * within the surcharge-free line.
   */
  lemma StaysUnderTheIrmaaLine(input: ConversionInput)
    requires input.Valid() && input.ceiling == IrmaaTier
    ensures var c := ConversionFor(input);
            c.converted > 0.0 ==>
              input.socialSecurityBenefit + input.traditionalWithdrawals + c.converted
              + Times(input.taxableGainRatio, input.taxableWithdrawals + c.fromTaxable)
              <= IrmaaFreeMagiCeiling(input.household.filingStatus)
  {
    hide GapAt;
    hide Times;
    hide CeilingLimit;
    hide ConversionFor;
    hide SoldAfter;
    hide IrmaaFreeMagiCeiling;
    CeilingAboveDeduction(input, 0.0);
    ConversionFits(input);
    FromItsOwnSale(input);
    GapIsRoom(ConversionFor(input).converted, input);
  }

  /** ... nor a bracket ceiling: its taxable income stays within the bracket it names. */
  lemma StaysInTheBracket(input: ConversionInput)
    requires input.Valid() && input.ceiling != IrmaaTier
    ensures var c := ConversionFor(input);
            var top := FilledTop(input.ceiling, input.household.filingStatus);
            c.converted > 0.0 ==>
              && top.Some?
              && RetirementTaxableIncome(input.traditionalWithdrawals + c.converted, input.socialSecurityBenefit,
                                         input.qualifiedIncome + Times(c.fromTaxable, input.taxableGainRatio),
                                         input.household, input.taxYear) <= top.value
  {
    hide GapAt;
    hide Times;
    hide RetirementTaxableIncome;
    hide SoldAfter;
    hide ConversionFor;
    hide CeilingLimit;
    CeilingIsBracketTop(input);
    ConversionFits(input);
    FromItsOwnSale(input);
    GapIsRoom(ConversionFor(input).converted, input);
    hide FilledTop;
  }

  /** What is sold for a conversion is what settling its bill sells. */
  lemma FromItsOwnSale(input: ConversionInput)
    requires input.Valid()
    ensures var c := ConversionFor(input);
            c.converted > 0.0 ==> c.fromTaxable == SoldAfter(SETTLING_PASSES, c.converted, input)
  {
    hide GapAt;
    hide SoldAfter;
    hide Bill;
    hide Search;
    hide FloorOf;
    hide CeilingLimit;
  }

  /** What a conversion, with the gain on the sale that pays for it, adds to the year's tax. */
  function TaxAdded(converted: real, sold: real, input: ConversionInput): real {
    RetirementTax(input.traditionalWithdrawals + converted, input.socialSecurityBenefit,
                  input.qualifiedIncome + Times(sold, input.taxableGainRatio), input.household, input.state, input.taxYear)
    - RetirementTax(input.traditionalWithdrawals, input.socialSecurityBenefit, input.qualifiedIncome,
                    input.household, input.state, input.taxYear)
  }

  /** The bill one more pass would send is the whole of what the conversion and its sale add. */
  lemma SettledBill(c: real, input: ConversionInput)
    requires input.Valid() && 0.0 < c
    ensures var r := Settle(c, input);
            && TaxAdded(c, r.fromTaxable, input) == NextPassAdds(c, input) + r.tax
            && r.fromTaxable == Min(r.tax, Pos(input.taxableBalance))
  {
    hide RetirementTax;
    hide Times;
    TimesZero(input.taxableGainRatio);
    var last := SETTLING_PASSES - 1;
    var before, sold := SoldAfter(last, c, input), SoldAfter(SETTLING_PASSES, c, input);
    SettlingRises(SETTLING_PASSES, c, c, input);
    GainRises(sold, sold, input);
    assert sold == Min(Bill(before, c, input), Pos(input.taxableBalance));
    hide SoldAfter;
    BillIsPaid(c, input);
    RetirementTaxSlope(input.household, input.state, input.taxYear, input.socialSecurityBenefit,
                       input.traditionalWithdrawals, input.qualifiedIncome,
                       input.traditionalWithdrawals + c, input.qualifiedIncome + Times(sold, input.taxableGainRatio));
  }

  /**
   * A conversion is billed what it adds to the year's tax, less at most what the
   * settling left: nothing at all when sales realize no gain. Taxable money pays
   * first, and withholding covers only what it cannot.
   */
  lemma BilledWhatItAdds(input: ConversionInput)
    requires input.Valid()
    ensures CeilingLimit(input).Some?
    ensures var c := ConversionFor(input);
            && 0.0 <= TaxAdded(c.converted, c.fromTaxable, input) - c.tax
               <= Powered(FeedbackRate(input), SETTLING_PASSES,
                          CeilingLimit(input).value + LargestDeduction(input.household.filingStatus))
            && (input.taxableGainRatio == 0.0 ==> c.tax == TaxAdded(c.converted, c.fromTaxable, input))
            && c.fromTaxable == Min(c.tax, Pos(input.taxableBalance))
            && c.withheld == c.tax - c.fromTaxable
  {
    hide SoldAfter;
    hide RetirementTax;
    hide Search;
    hide GapAt;
    hide FloorOf;
    hide LargestDeduction;
    hide Powered;
    GivenConversionsSettleWithin(input);
    hide CeilingLimit;
    ConversionIsPaid(input);
    var c := ConversionFor(input);
    TimesZero(input.taxableGainRatio);
    if c.converted > 0.0 {
      SettledBill(c.converted, input);
    }
    hide ConversionFor;
    if input.taxableGainRatio == 0.0 {
      NoFeedback(c.converted, input);
    }
  }

  // ---- The methods -----------------------------------------------------------

  /** Pay, count the gain on what was sold to pay, and pay again: four passes. */
  method ComputeOutcome(conversion: real, input: ConversionInput, baseTax: real) returns (o: Outcome)
    requires baseTax == BaseTax(input)
    ensures o == OutcomeOf(conversion, input)
  {
    hide RetirementTax;
    hide Times;
    var taxableBalance := Pos(input.taxableBalance);
    var qualifiedIncome := input.qualifiedIncome;
    var tax, fromTaxable := 0.0, 0.0;
    TimesZero(input.taxableGainRatio);
    for pass := 0 to SETTLING_PASSES
      invariant fromTaxable == SoldAfter(pass, conversion, input)
      invariant pass > 0 ==> tax == Bill(SoldAfter(pass - 1, conversion, input), conversion, input)
      invariant qualifiedIncome == input.qualifiedIncome + Times(fromTaxable, input.taxableGainRatio)
    {
      tax := Pos(TaxOf(conversion, qualifiedIncome, input) - baseTax);
      fromTaxable := Min(tax, taxableBalance);
      qualifiedIncome := input.qualifiedIncome + Times(fromTaxable, input.taxableGainRatio);
    }
    o := Outcome(tax, fromTaxable, Min(conversion, tax - fromTaxable), Times(fromTaxable, input.taxableGainRatio));
  }

  /** Bracket widths shrink to at most this share over each pair of steps. */
  function WidthBound(width: real, pairs: nat): real {
    if pairs == 0 then width else WidthBound(width, pairs - 1) * (63.0 / 128.0)
  }

  function FloorOf(x: real): real {
    x.Floor as real
  }

  lemma FloorBelow(x: real)
    requires 0.0 <= x
    ensures 0.0 <= FloorOf(x) <= x < FloorOf(x) + 1.0
  {
  }

  /** One search step: wherever the guess falls, the bracket keeps at most 63/64 of its width. */
  function Inside(guess: real, low: real, high: real): real {
    Min(Max(guess, low + (high - low) / 64.0), high - (high - low) / 64.0)
  }

  lemma InsideShrinks(guess: real, low: real, high: real)
    requires low < high
    ensures var mid := Inside(guess, low, high);
            low < mid < high && mid - low <= (high - low) * 63.0 / 64.0 && high - mid <= (high - low) * 63.0 / 64.0
    ensures guess == (low + high) / 2.0 ==> Inside(guess, low, high) == guess
  {
  }

  /** Interpolate on even steps while the ends differ, bisect on odd ones, and stay inside the bracket. */
  function Candidate(low: real, top: real, lowGap: real, highGap: real, step: nat): real {
    var guess := if step % 2 == 0 && highGap > lowGap then OnTheLine(low, top, lowGap, highGap) else (low + top) / 2.0;
    Inside(guess, low, top)
  }

  /** Where the line through the gaps at both ends crosses zero. */
  function OnTheLine(low: real, top: real, lowGap: real, highGap: real): real
    requires lowGap < highGap
  {
    low + (top - low) * -lowGap / (highGap - lowGap)
  }

  /** The lower end the search stops at. */
  function Search(input: ConversionInput, low: real, top: real, step: nat): real
    requires CeilingLimit(input).Some? && step <= SOLVE_STEPS
    decreases SOLVE_STEPS - step
  {
    if step == SOLVE_STEPS || top - low <= SOLVE_TOLERANCE then low
    else
      var mid := Candidate(low, top, GapAt(low, input), GapAt(top, input), step);
      if GapAt(mid, input) <= 0.0 then Search(input, mid, top, step + 1) else Search(input, low, mid, step + 1)
  }

  lemma {:induction false} SearchStaysInside(input: ConversionInput, low: real, top: real, step: nat)
    requires CeilingLimit(input).Some? && step <= SOLVE_STEPS && low < top
    ensures low <= Search(input, low, top, step) < top
    decreases SOLVE_STEPS - step
  {
    hide GapAt;
    if step < SOLVE_STEPS && top - low > SOLVE_TOLERANCE {
      var mid := Candidate(low, top, GapAt(low, input), GapAt(top, input), step);
      CandidateShrinks(low, top, GapAt(low, input), GapAt(top, input), step);
      SearchStaysInside(input, mid, top, step + 1);
      SearchStaysInside(input, low, mid, step + 1);
    }
  }

  lemma CandidateShrinks(low: real, top: real, lowGap: real, highGap: real, step: nat)
    requires low < top
    ensures var mid := Candidate(low, top, lowGap, highGap, step);
            && low < mid < top && mid - low <= (top - low) * 63.0 / 64.0 && top - mid <= (top - low) * 63.0 / 64.0
            && (step % 2 == 1 ==> mid == (low + top) / 2.0)
  {
    if step % 2 == 1 {
      InsideShrinks((low + top) / 2.0, low, top);
    } else {
      InsideShrinks(if highGap > lowGap then OnTheLine(low, top, lowGap, highGap) else (low + top) / 2.0, low, top);
    }
  }

  /** The conversion a year makes: nothing, the whole balance, or the whole dollars the search settles on. */
  function ConversionFor(input: ConversionInput): Conversion {
    var limit := CeilingLimit(input);
    if !input.enabled || input.traditionalBalance <= 0.0 || limit.None? || GapAt(0.0, input) >= 0.0 then NO_CONVERSION
    else if GapAt(input.traditionalBalance, input) <= 0.0 then Settle(input.traditionalBalance, input)
    else
      var high := Min(input.traditionalBalance, 2.0 * limit.value + input.socialSecurityBenefit);
      Settle(FloorOf(Search(input, 0.0, high, 0)), input)
  }

  lemma SettledIsPaid(c: real, input: ConversionInput)
    requires input.Valid()
    ensures var r := Settle(c, input);
            && r.converted == Pos(c) && r.tax == r.fromTaxable + r.withheld && 0.0 <= r.withheld <= r.converted
            && 0.0 <= r.fromTaxable <= Pos(input.taxableBalance)
            && (r.converted <= 0.0 ==> r == NO_CONVERSION)
    ensures Settle(0.0, input) == NO_CONVERSION
  {
    hide OutcomeOf;
    if c > 0.0 {
      BillIsPaid(c, input);
    }
  }

  /** On an even step the candidate is where the line through both gaps crosses zero, kept a 64th inside the bracket. */
  lemma CandidateInterpolates(low: real, top: real, lowGap: real, highGap: real, step: nat)
    requires low < top && lowGap <= 0.0 < highGap && step % 2 == 0
    ensures var mid := Candidate(low, top, lowGap, highGap, step);
            var width := top - low;
            || Times(mid - low, highGap - lowGap) == Times(width, -lowGap)
            || (mid == low + width / 64.0 && Times(width / 64.0, highGap - lowGap) >= Times(width, -lowGap))
            || (mid == top - width / 64.0 && Times(width - width / 64.0, highGap - lowGap) <= Times(width, -lowGap))
  {
    var width, rise := top - low, highGap - lowGap;
    var guess := OnTheLine(low, top, lowGap, highGap);
    CrossesZero(low, top, lowGap, highGap);
    hide OnTheLine;
    hide Times;
    ScaledUp(guess - low, width / 64.0, rise);
    ScaledUp(guess - low, width - width / 64.0, rise);
  }

  lemma CrossesZero(low: real, top: real, lowGap: real, highGap: real)
    requires lowGap < highGap
    ensures Times(OnTheLine(low, top, lowGap, highGap) - low, highGap - lowGap) == Times(top - low, -lowGap)
  {
    ShareOfRise((top - low) * -lowGap, highGap - lowGap);
  }

  lemma ShareOfRise(product: real, rise: real)
    requires 0.0 < rise
    ensures product / rise * rise == product
  {
  }

  lemma ScaledUp(a: real, b: real, rise: real)
    requires 0.0 < rise
    ensures a <= b ==> Times(a, rise) <= Times(b, rise)
    ensures b <= a ==> Times(b, rise) <= Times(a, rise)
  {
    TimesSwap(a, rise);
    TimesSwap(b, rise);
    if a <= b {
      TimesMono(rise, a, b);
    } else {
      TimesMono(rise, b, a);
    }
    hide Times;
  }

  /** A conversion is the whole balance or a whole number of dollars. */
  lemma WholeDollars(input: ConversionInput)
    requires input.Valid()
    ensures var c := ConversionFor(input).converted;
            c == input.traditionalBalance || c == c.Floor as real
  {
    hide GapAt;
    hide OutcomeOf;
    hide Search;
    SettledIsPaid(0.0, input);
    CeilingAboveDeduction(input, 0.0);
    hide CeilingLimit;
    if input.enabled && input.traditionalBalance > 0.0 && GapAt(0.0, input) < 0.0 {
      var high := Min(input.traditionalBalance, 2.0 * CeilingLimit(input).value + input.socialSecurityBenefit);
      SearchStaysInside(input, 0.0, high, 0);
      FloorBelow(Search(input, 0.0, high, 0));
    }
  }

  /** Twelve pairs of steps leave less than a 4,900th of the width the search started from. */
  lemma ResolutionInDollars(input: ConversionInput)
    requires CeilingLimit(input).Some? && 0.0 <= SearchWidth(input)
    ensures 2.0 <= Resolution(input) <= 2.0 + SearchWidth(input) / 4900.0
  {
    hide SearchWidth;
    hide CeilingLimit;
    var w := SearchWidth(input);
    ThreePairs(w, 0);
    ThreePairs(w, 3);
    ThreePairs(w, 6);
    ThreePairs(w, 9);
    hide WidthBound;
  }

  lemma ThreePairs(width: real, pairs: nat)
    requires 0.0 <= WidthBound(width, pairs)
    ensures 0.0 <= WidthBound(width, pairs + 3) <= 0.11924 * WidthBound(width, pairs)
    ensures pairs == 0 ==> WidthBound(width, pairs) == width
  {
    assert WidthBound(width, pairs + 2) == WidthBound(width, pairs + 1) * (63.0 / 128.0);
  }

  /** Whatever is converted fits in the balance and pays its own bill. */
  lemma ConversionIsPaid(input: ConversionInput)
    requires input.Valid()
    ensures var c := ConversionFor(input);
            && 0.0 <= c.converted <= Pos(input.traditionalBalance)
            && c.tax == c.fromTaxable + c.withheld && 0.0 <= c.withheld <= c.converted
            && 0.0 <= c.fromTaxable <= Pos(input.taxableBalance)
            && (c.converted <= 0.0 ==> c == NO_CONVERSION)
  {
    hide GapAt;
    hide Settle;
    hide CeilingLimit;
    hide Search;
    hide FloorOf;
    CeilingAboveDeduction(input, 0.0);
    if input.enabled && input.traditionalBalance > 0.0 && GapAt(0.0, input) < 0.0 {
      SettledIsPaid(input.traditionalBalance, input);
      var high := Min(input.traditionalBalance, 2.0 * CeilingLimit(input).value + input.socialSecurityBenefit);
      assert 0.0 < high <= input.traditionalBalance;
      SearchStaysInside(input, 0.0, high, 0);
      FloorBelow(Search(input, 0.0, high, 0));
      SettledIsPaid(FloorOf(Search(input, 0.0, high, 0)), input);
    }
  }

  /** False position, with every other step a bisection, narrows a bracketed root. */
  method NarrowBracket(input: ConversionInput, highStart: real) returns (low: real, ghost high: real)
    requires input.Valid() && CeilingLimit(input).Some? && 0.0 < highStart
    requires GapAt(0.0, input) < 0.0 < GapAt(highStart, input)
    ensures low == Search(input, 0.0, highStart, 0)
    ensures 0.0 <= low < high <= highStart
    ensures GapAt(low, input) <= 0.0 < GapAt(high, input)
    ensures high - low <= Max(SOLVE_TOLERANCE, WidthBound(highStart, SOLVE_STEPS / 2))
  {
    hide GapAt;
    hide CeilingLimit;
    hide Candidate;
    var baseTax := BaseTax(input);
    low := 0.0;
    var top := highStart;
    var lowGap := GapOf(low, input, baseTax);
    var highGap := GapOf(top, input, baseTax);
    var step := 0;
    while step < SOLVE_STEPS && top - low > SOLVE_TOLERANCE
      invariant 0 <= step <= SOLVE_STEPS
      invariant 0.0 <= low < top <= highStart
      invariant Search(input, low, top, step) == Search(input, 0.0, highStart, 0)
      invariant lowGap == GapAt(low, input) && highGap == GapAt(top, input)
      invariant lowGap <= 0.0 < highGap
      invariant step % 2 == 0 ==> top - low <= WidthBound(highStart, step / 2)
      invariant step % 2 == 1 ==> top - low <= WidthBound(highStart, step / 2) * (63.0 / 64.0)
    {
      var mid := Candidate(low, top, lowGap, highGap, step);
      CandidateShrinks(low, top, lowGap, highGap, step);
      var gap := GapOf(mid, input, baseTax);
      if gap <= 0.0 {
        low, lowGap := mid, gap;
      } else {
        top, highGap := mid, gap;
      }
      step := step + 1;
    }
    high := top;
  }

  /** The gap of one candidate, settled before it is measured. */
  method GapOf(conversion: real, input: ConversionInput, baseTax: real) returns (gap: real)
    requires CeilingLimit(input).Some? && baseTax == BaseTax(input)
    ensures gap == GapAt(conversion, input)
  {
    hide BaseTax;
    var o := ComputeOutcome(conversion, input, baseTax);
    gap := Measure(conversion, o.fundingGain, input) - CeilingLimit(input).value;
  }

  /**
   * The conversion chosen never breaches its ceiling, even counting the gain on
   * the sale that pays its own tax; its bill is fully paid; and it is close to
   * the largest that fits: anything above it by more than a dollar plus the final
   * bracket breaches. When even nothing fits, nothing is converted.
   */
  method RothConversionFor(input: ConversionInput) returns (r: Conversion)
    requires input.Valid()
    ensures r == ConversionFor(input) && LargestThatFits(r, input)
    ensures !input.enabled || input.traditionalBalance <= 0.0 ==> r == NO_CONVERSION
    ensures r == Settle(r.converted, input)
    ensures 0.0 <= r.converted <= Pos(input.traditionalBalance)
    ensures CeilingLimit(input).Some?
    ensures r.converted > 0.0 ==> GapAt(r.converted, input) <= 0.0
    ensures r.tax == r.fromTaxable + r.withheld && 0.0 <= r.withheld <= r.converted
    ensures 0.0 <= r.fromTaxable <= Pos(input.taxableBalance)
    ensures input.enabled && GapAt(0.0, input) >= 0.0 ==> r == NO_CONVERSION
    ensures input.enabled && GapAt(0.0, input) < 0.0 ==>
              forall more | r.converted + Resolution(input) < more <= input.traditionalBalance :: GapAt(more, input) > 0.0
  {
    hide GapAt;
    hide Measure;
    hide Settle;
    hide Search;
    hide LargestThatFits;
    hide WidthBound;
    CeilingAboveDeduction(input, 0.0);
    hide CeilingLimit;
    SettledIsPaid(0.0, input);
    r := NO_CONVERSION;
    if !input.enabled || input.traditionalBalance <= 0.0 {
      FitsInFigures(r, input);
      return;
    }
    var limit := CeilingLimit(input).value;
    var baseTax := BaseTax(input);
    var nothing := GapOf(0.0, input, baseTax);
    if nothing >= 0.0 {
      FitsInFigures(r, input);
      return;
    }
    var everything := GapOf(input.traditionalBalance, input, baseTax);
    if everything <= 0.0 {
      r := Settle(input.traditionalBalance, input);
      SettledIsPaid(input.traditionalBalance, input);
      FitsInFigures(r, input);
      return;
    }
    TwiceTheLimitBreaches(input);
    var high := Min(input.traditionalBalance, 2.0 * limit + input.socialSecurityBenefit);
    var low, over := NarrowBracket(input, high);
    FloorBelow(low);
    r := Settle(FloorOf(low), input);
    SettledIsPaid(FloorOf(low), input);
    GapRises(FloorOf(low), low, input);
    forall more | FloorOf(low) + Resolution(input) < more
      ensures GapAt(more, input) > 0.0
    {
      GapRises(over, more, input);
    }
    FitsInFigures(r, input);
  }

  /** The search's answer, in the year's own figures. */
  lemma FitsInFigures(c: Conversion, input: ConversionInput)
    requires input.Valid() && c == ConversionFor(input) && CeilingLimit(input).Some?
    requires input.enabled && GapAt(0.0, input) < 0.0 ==>
               forall more | c.converted + Resolution(input) < more <= input.traditionalBalance :: GapAt(more, input) > 0.0
    ensures LargestThatFits(c, input)
  {
    hide GapAt;
    hide RoomLeft;
    hide SoldAfter;
    hide Bill;
    hide Search;
    hide FloorOf;
    hide Resolution;
    ConversionFits(input);
    NothingSoldForNothing(input);
    forall x ensures GapAt(x, input) == -RoomLeft(x, OutcomeOf(x, input).fromTaxable, input) {
      GapIsRoom(x, input);
    }
    if input.ceiling != IrmaaTier {
      CeilingIsBracketTop(input);
    }
    hide CeilingLimit;
    hide FederalBrackets;
    if c.converted > 0.0 {
      assert c.fromTaxable == OutcomeOf(c.converted, input).fromTaxable;
    }
  }

  /** Converting nothing owes nothing, so it sells nothing. */
  lemma {:induction false} NothingSoldForNothing(input: ConversionInput)
    ensures OutcomeOf(0.0, input).fromTaxable == 0.0
  {
    hide TaxOf;
    TimesZero(input.taxableGainRatio);
    assert Bill(0.0, 0.0, input) == 0.0;
    assert SoldAfter(1, 0.0, input) == 0.0;
    assert SoldAfter(2, 0.0, input) == 0.0;
    assert SoldAfter(3, 0.0, input) == 0.0;
  }

  /**
   * A conversion leaves the year under its ceiling, the gain on the sale that
   * pays its own tax included; one larger by more than the resolution would not,
   * whenever the year has any room before it; and all of the balance goes when
   * all of it fits.
   */
  ghost predicate LargestThatFits(c: Conversion, input: ConversionInput) {
    && CeilingLimit(input).Some?
    && (input.ceiling != IrmaaTier ==> CeilingLimit(input) == FilledTop(input.ceiling, input.household.filingStatus))
    && (c.converted > 0.0 ==> input.enabled && RoomLeft(0.0, 0.0, input) > 0.0 && RoomLeft(c.converted, c.fromTaxable, input) >= 0.0)
    && (input.enabled && RoomLeft(0.0, 0.0, input) > 0.0 ==>
          && (forall more | c.converted + Resolution(input) < more <= input.traditionalBalance ::
                RoomLeft(more, OutcomeOf(more, input).fromTaxable, input) < 0.0)
          && (0.0 < input.traditionalBalance
              && RoomLeft(input.traditionalBalance, OutcomeOf(input.traditionalBalance, input).fromTaxable, input) >= 0.0 ==>
                c.converted == input.traditionalBalance))
  }

  /** The bracket the search starts from. */
  function SearchWidth(input: ConversionInput): real
    requires CeilingLimit(input).Some?
  {
    Min(input.traditionalBalance, 2.0 * CeilingLimit(input).value + input.socialSecurityBenefit)
  }

  /** How close to the largest fitting conversion the search lands: rounding plus the last bracket. */
  function Resolution(input: ConversionInput): real
    requires CeilingLimit(input).Some?
  {
    1.0 + Max(SOLVE_TOLERANCE, WidthBound(SearchWidth(input), SOLVE_STEPS / 2))
  }
}
