// A working year: tax and contributions settled together, and the portfolio
// draw that covers what wages do not.
module WorkingYear {
  import opened BracketTables
  import opened Domain
  import opened HealthcarePremiums
  import opened IncomeTax
  import opened Options
  import opened Reals
  import opened WithdrawalOrder
  import opened Buckets
  import opened RetirementSolve

  const CONTRIBUTION_PASSES: nat := 4
  const SHORTFALL_PASSES: nat := 50
  const SHORTFALL_TOLERANCE := 1.0

  /** What a working year knows before any of its cash flow is settled. */
  datatype WorkingContext = WorkingContext(
    grossIncome: real,
    annualSpending: real,
    periodFraction: real,
    household: Household,
    state: State,
    taxYear: TaxYear,
    hsaEligible: bool,
    useBackdoorRoth: bool,
    age: nat,
    taxableGainRatio: real,
    magiTarget: Option<MagiTarget>)
  {
    predicate Valid() {
      && household.Valid() && taxYear.Valid()
      && 0.0 <= grossIncome && 0.0 < periodFraction <= 1.0
      && 0.0 <= taxableGainRatio <= 1.0
    }
  }

  datatype TaxResult = TaxResult(totalTax: real, hsaContribution: real, k401Contribution: real)

  datatype CashFlow = CashFlow(tax: TaxResult, roth: real, taxable: real, netCashFlow: real)

  // ---- Specification -------------------------------------------------------

  function K401Limit(age: nat): real {
    if 60 <= age <= 63 then 23500.0 + 11250.0 else if age >= 50 then 23500.0 + 7500.0 else 23500.0
  }

  function HsaLimit(age: nat): real {
    4300.0 + (if age >= 55 then 1000.0 else 0.0)
  }

  function IraLimit(age: nat): real {
    if age >= 50 then 7000.0 + 1000.0 else 7000.0
  }

  function AdditionalMedicareThreshold(fs: FilingStatus): real {
    match fs
    case MarriedFilingJointly => 250000.0
    case MarriedFilingSeparately => 125000.0
    case _ => 200000.0
  }

  function Fica(gross: real, fs: FilingStatus, taxYear: TaxYear): real {
    var threshold := FrozenThreshold(AdditionalMedicareThreshold(fs), taxYear);
    Min(gross, 176100.0) * 0.062 + gross * 0.0145
    + (if gross > threshold then (gross - threshold) * 0.009 else 0.0)
  }

  /** All the tax on a working year once its pretax contributions are known. */
  function WorkingTax(ctx: WorkingContext, other: real, qualified: real, hsa: real, k401: real): real {
    FederalTaxOnIncome(ctx.household, ctx.taxYear, ctx.grossIncome - hsa - k401 + other, qualified)
    + StateTaxOf(ctx.state, ctx.household.filingStatus, StateTaxInput(ctx.grossIncome, other, qualified, hsa, k401))
    + Fica(ctx.grossIncome, ctx.household.filingStatus, ctx.taxYear)
  }

  function CalculateTax(ctx: WorkingContext, other: real, qualified: real, hsa: real, traditional: real): TaxResult {
    var age := ctx.household.PrimaryAge();
    var hsaContribution := Min(Clamp(hsa, 0.0, HsaLimit(age)), ctx.grossIncome);
    var k401Contribution := Min(Clamp(traditional, 0.0, K401Limit(age)), Pos(ctx.grossIncome - hsaContribution));
    TaxResult(WorkingTax(ctx, other, qualified, hsaContribution, k401Contribution), hsaContribution, k401Contribution)
  }

  function HsaMax(ctx: WorkingContext): real {
    if ctx.hsaEligible then HsaLimit(ctx.household.PrimaryAge()) else 0.0
  }

  /** One pass: fill HSA, then Traditional, from what the last pass's tax left. */
  function NextPass(ctx: WorkingContext, spending: real, other: real, qualified: real, tax: TaxResult): TaxResult {
    var available := Pos(ctx.grossIncome + other - tax.totalTax - spending);
    var hsa := Min(HsaMax(ctx), available);
    var traditional := Min(K401Limit(ctx.household.PrimaryAge()), Pos(available - hsa));
    CalculateTax(ctx, other, qualified, hsa, traditional)
  }

  function PassAt(ctx: WorkingContext, spending: real, other: real, qualified: real, passes: nat): TaxResult {
    if passes == 0 then CalculateTax(ctx, other, qualified, 0.0, 0.0)
    else NextPass(ctx, spending, other, qualified, PassAt(ctx, spending, other, qualified, passes - 1))
  }

  function SettledCashFlow(ctx: WorkingContext, spending: real, other: real, qualified: real): CashFlow {
    var tax := PassAt(ctx, spending, other, qualified, CONTRIBUTION_PASSES);
    var net := ctx.grossIncome + other - tax.totalTax - spending - tax.hsaContribution - tax.k401Contribution;
    var budget := Pos(net);
    var roth := if ctx.useBackdoorRoth then Min(IraLimit(ctx.household.PrimaryAge()), budget) else 0.0;
    CashFlow(tax, roth, budget - roth, net)
  }

  /** What is left before any contribution, with the tax owed when nothing is contributed. */
  function Uncommitted(ctx: WorkingContext, spending: real, other: real, qualified: real): real {
    ctx.grossIncome + other - WorkingTax(ctx, other, qualified, 0.0, 0.0) - spending
  }

  // ---- The contribution passes -----------------------------------------------

  lemma PretaxLowersState(state: State, fs: FilingStatus, a: StateTaxInput, hsa: real, k401: real)
    requires a.pretaxHsa <= hsa && a.pretaxTraditional <= k401
    ensures StateTaxOf(state, fs, a.(pretaxHsa := hsa, pretaxTraditional := k401)) <= StateTaxOf(state, fs, a)
  {
    OnlyCalifornia(state, fs, a);
    OnlyCalifornia(state, fs, a.(pretaxHsa := hsa, pretaxTraditional := k401));
    hide StateTaxOf;
    hide TaxBelow;
    CaliforniaSlope(fs, CaliforniaIncome(fs, a.(pretaxHsa := hsa, pretaxTraditional := k401)), CaliforniaIncome(fs, a));
  }

  /** Contributing more never raises the tax. */
  lemma ContributingLowersTax(ctx: WorkingContext, other: real, qualified: real, h: real, k: real, h2: real, k2: real)
    requires ctx.Valid() && 0.0 <= qualified && h <= h2 && k <= k2
    ensures WorkingTax(ctx, other, qualified, h2, k2) <= WorkingTax(ctx, other, qualified, h, k)
  {
    hide FederalTaxOnIncome;
    hide StateTaxOf;
    hide Fica;
    FederalSlope(ctx.household, ctx.taxYear, ctx.grossIncome - h2 - k2 + other, qualified,
                 ctx.grossIncome - h - k + other, qualified);
    PretaxLowersState(ctx.state, ctx.household.filingStatus,
                      StateTaxInput(ctx.grossIncome, other, qualified, h, k), h2, k2);
  }

  /** A lower tax leaves room for at least as much of each contribution. */
  lemma NextPassRises(ctx: WorkingContext, spending: real, other: real, qualified: real, a: TaxResult, b: TaxResult)
    requires ctx.Valid() && 0.0 <= qualified && b.totalTax <= a.totalTax
    ensures var x := NextPass(ctx, spending, other, qualified, a);
            var y := NextPass(ctx, spending, other, qualified, b);
            && 0.0 <= x.hsaContribution <= y.hsaContribution && 0.0 <= x.k401Contribution <= y.k401Contribution
            && y.totalTax <= x.totalTax
  {
    hide WorkingTax;
    var x := NextPass(ctx, spending, other, qualified, a);
    var y := NextPass(ctx, spending, other, qualified, b);
    ContributingLowersTax(ctx, other, qualified, x.hsaContribution, x.k401Contribution, y.hsaContribution, y.k401Contribution);
  }

  /** Over the passes contributions only rise and tax only falls. */
  lemma {:induction false} PassesRise(ctx: WorkingContext, spending: real, other: real, qualified: real, n: nat)
    requires ctx.Valid() && 0.0 <= qualified
    ensures var a := PassAt(ctx, spending, other, qualified, n);
            var b := PassAt(ctx, spending, other, qualified, n + 1);
            && 0.0 <= a.hsaContribution <= b.hsaContribution && 0.0 <= a.k401Contribution <= b.k401Contribution
            && b.totalTax <= a.totalTax
  {
    if n == 0 {
      hide WorkingTax;
      var b := PassAt(ctx, spending, other, qualified, 1);
      ContributingLowersTax(ctx, other, qualified, 0.0, 0.0, b.hsaContribution, b.k401Contribution);
    } else {
      hide NextPass;
      hide WorkingTax;
      PassesRise(ctx, spending, other, qualified, n - 1);
      NextPassRises(ctx, spending, other, qualified, PassAt(ctx, spending, other, qualified, n - 1),
                    PassAt(ctx, spending, other, qualified, n));
    }
  }

  /** With nothing uncommitted every pass stays where the first one was. */
  lemma {:induction false} ShortPasses(ctx: WorkingContext, spending: real, other: real, qualified: real, n: nat)
    requires ctx.Valid() && Uncommitted(ctx, spending, other, qualified) <= 0.0
    ensures PassAt(ctx, spending, other, qualified, n)
         == TaxResult(WorkingTax(ctx, other, qualified, 0.0, 0.0), 0.0, 0.0)
  {
    hide WorkingTax;
    if n > 0 {
      ShortPasses(ctx, spending, other, qualified, n - 1);
    }
  }

  /** A pass never asks for more than the tax it was given leaves. */
  lemma PassFitsBudget(ctx: WorkingContext, spending: real, other: real, qualified: real, tax: TaxResult)
    requires ctx.Valid()
    ensures var next := NextPass(ctx, spending, other, qualified, tax);
            next.hsaContribution + next.k401Contribution <= Pos(ctx.grossIncome + other - tax.totalTax - spending)
  {
    hide WorkingTax;
  }

  lemma {:induction false} LaterTaxIsLower(ctx: WorkingContext, spending: real, other: real, qualified: real, n: nat)
    requires ctx.Valid() && 0.0 <= qualified
    ensures PassAt(ctx, spending, other, qualified, n).totalTax <= WorkingTax(ctx, other, qualified, 0.0, 0.0)
  {
    hide WorkingTax;
    hide NextPass;
    if n > 0 {
      hide CalculateTax;
      LaterTaxIsLower(ctx, spending, other, qualified, n - 1);
      PassesRise(ctx, spending, other, qualified, n - 1);
    }
  }

  /**
   * Contributing never creates a shortfall. Cash flow is nonnegative exactly
   * when income covers spending and the tax owed with no contributions; then
   * every dollar of income goes to tax, spending or a contribution. Otherwise
   * nothing is contributed anywhere and the shortfall is the plain one.
   */
  lemma ContributionsNeverCreateShortfall(ctx: WorkingContext, spending: real, other: real, qualified: real)
    requires ctx.Valid() && 0.0 <= qualified
    ensures var flow := SettledCashFlow(ctx, spending, other, qualified);
            && (flow.netCashFlow >= 0.0 <==> Uncommitted(ctx, spending, other, qualified) >= 0.0)
            && 0.0 <= flow.tax.hsaContribution && 0.0 <= flow.tax.k401Contribution && 0.0 <= flow.roth && 0.0 <= flow.taxable
            && (flow.netCashFlow >= 0.0 ==>
                  flow.tax.totalTax + spending + flow.tax.hsaContribution + flow.tax.k401Contribution + flow.roth + flow.taxable
                  == ctx.grossIncome + other)
            && (Uncommitted(ctx, spending, other, qualified) <= 0.0 ==>
                  && flow.tax == TaxResult(WorkingTax(ctx, other, qualified, 0.0, 0.0), 0.0, 0.0)
                  && flow.roth == 0.0 && flow.taxable == 0.0
                  && flow.netCashFlow == Uncommitted(ctx, spending, other, qualified))
  {
    hide WorkingTax;
    hide NextPass;
    var last := CONTRIBUTION_PASSES - 1;
    PassesRise(ctx, spending, other, qualified, last);
    PassesRise(ctx, spending, other, qualified, CONTRIBUTION_PASSES);
    LaterTaxIsLower(ctx, spending, other, qualified, last);
    var before := PassAt(ctx, spending, other, qualified, last);
    PassFitsBudget(ctx, spending, other, qualified, before);
    assert PassAt(ctx, spending, other, qualified, CONTRIBUTION_PASSES) == NextPass(ctx, spending, other, qualified, before);
    if Uncommitted(ctx, spending, other, qualified) <= 0.0 {
      ShortPasses(ctx, spending, other, qualified, CONTRIBUTION_PASSES);
    }
    hide PassAt;
  }

  /**
   * Contributions stay within the statutory limits and within wages, and fill in
   * order: HSA before Traditional, and the backdoor Roth before Taxable.
   */
  lemma ContributionsFillInOrder(ctx: WorkingContext, spending: real, other: real, qualified: real)
    requires ctx.Valid()
    ensures var flow := SettledCashFlow(ctx, spending, other, qualified);
            var age := ctx.household.PrimaryAge();
            && 0.0 <= flow.tax.hsaContribution <= HsaMax(ctx) && 0.0 <= flow.tax.k401Contribution <= K401Limit(age)
            && flow.tax.hsaContribution + flow.tax.k401Contribution <= ctx.grossIncome
            && (flow.tax.k401Contribution > 0.0 ==> flow.tax.hsaContribution == Min(HsaMax(ctx), ctx.grossIncome))
            && 0.0 <= flow.roth <= (if ctx.useBackdoorRoth then IraLimit(age) else 0.0)
            && (flow.taxable > 0.0 && ctx.useBackdoorRoth ==> flow.roth == IraLimit(age))
  {
    hide WorkingTax;
    var before := PassAt(ctx, spending, other, qualified, CONTRIBUTION_PASSES - 1);
    assert PassAt(ctx, spending, other, qualified, CONTRIBUTION_PASSES) == NextPass(ctx, spending, other, qualified, before);
    hide PassAt;
  }

  // ---- What the working-year formulas mean -------------------------------------

  /** Payroll tax starts at nothing and changes rate exactly at the wage base and at the surtax threshold. */
  lemma FicaRates(gross: real, more: real, fs: FilingStatus, taxYear: TaxYear)
    requires taxYear.Valid() && 0.0 <= gross <= more
    ensures var threshold := FrozenThreshold(AdditionalMedicareThreshold(fs), taxYear);
            var rise := Fica(more, fs, taxYear) - Fica(gross, fs, taxYear);
            && Fica(0.0, fs, taxYear) == 0.0
            && (more <= 176100.0 && more <= threshold ==> rise == 0.0765 * (more - gross))
            && (176100.0 <= gross && more <= threshold ==> rise == 0.0145 * (more - gross))
            && (threshold <= gross && more <= 176100.0 ==> rise == 0.0855 * (more - gross))
            && (176100.0 <= gross && threshold <= gross ==> rise == 0.0235 * (more - gross))
  {
    TimesMono(AdditionalMedicareThreshold(fs), 0.0, taxYear.frozenScale);
    TimesZero(AdditionalMedicareThreshold(fs));
  }

  /** A working year owes what a retired one would on the same income without a benefit, and payroll tax on its wages. */
  lemma WagesAreTaxedAsIncome(ctx: WorkingContext, other: real, qualified: real)
    ensures WorkingTax(ctx, other, qualified, 0.0, 0.0)
         == RetirementTax(ctx.grossIncome + other, 0.0, qualified, ctx.household, ctx.state, ctx.taxYear)
            + Fica(ctx.grossIncome, ctx.household.filingStatus, ctx.taxYear)
  {
    hide FederalTaxOnIncome;
    hide Fica;
    hide TaxBelow;
    var fs := ctx.household.filingStatus;
    var a := StateTaxInput(ctx.grossIncome, other, qualified, 0.0, 0.0);
    var b := StateTaxInput(0.0, ctx.grossIncome + other, qualified, 0.0, 0.0);
    OnlyCalifornia(ctx.state, fs, a);
    OnlyCalifornia(ctx.state, fs, b);
    hide StateTaxOf;
  }

  /** A contribution is income never received, except that California still taxes what goes to an HSA. */
  lemma ContributionsAreUntaxed(ctx: WorkingContext, other: real, qualified: real, hsa: real, k401: real)
    ensures var fs := ctx.household.filingStatus;
            var plain := WorkingTax(ctx, other - hsa - k401, qualified, 0.0, 0.0);
            var a := StateTaxInput(ctx.grossIncome, other - hsa - k401, qualified, 0.0, 0.0);
            WorkingTax(ctx, other, qualified, hsa, k401)
            == plain + if ctx.state.CA?
                       then StateTaxOf(CA, fs, a.(otherOrdinary := other - k401)) - StateTaxOf(CA, fs, a)
                       else 0.0
  {
    hide FederalTaxOnIncome;
    hide Fica;
    hide TaxBelow;
    var fs := ctx.household.filingStatus;
    var a := StateTaxInput(ctx.grossIncome, other - hsa - k401, qualified, 0.0, 0.0);
    OnlyCalifornia(ctx.state, fs, StateTaxInput(ctx.grossIncome, other, qualified, hsa, k401));
    OnlyCalifornia(ctx.state, fs, a);
    OnlyCalifornia(ctx.state, fs, a.(otherOrdinary := other - k401));
    hide StateTaxOf;
  }

  /** A dollar contributed saves at most 59.1 cents of tax. */
  lemma ContributionSaves(ctx: WorkingContext, other: real, qualified: real, h: real, k: real, h2: real, k2: real)
    requires ctx.Valid() && 0.0 <= qualified && h <= h2 && k <= k2
    ensures WorkingTax(ctx, other, qualified, h, k) - WorkingTax(ctx, other, qualified, h2, k2) <= 0.591 * (h2 + k2 - h - k)
  {
    hide FederalTaxOnIncome;
    hide TaxBelow;
    hide Fica;
    var fs := ctx.household.filingStatus;
    FederalSlope(ctx.household, ctx.taxYear, ctx.grossIncome - h2 - k2 + other, qualified,
                 ctx.grossIncome - h - k + other, qualified);
    var a := StateTaxInput(ctx.grossIncome, other, qualified, h, k);
    var b := StateTaxInput(ctx.grossIncome, other, qualified, h2, k2);
    OnlyCalifornia(ctx.state, fs, a);
    OnlyCalifornia(ctx.state, fs, b);
    CaliforniaSlope(fs, CaliforniaIncome(fs, b), CaliforniaIncome(fs, a));
    hide StateTaxOf;
  }

  /** What the pass after `n` would still add to the contributions. */
  function PassAdds(ctx: WorkingContext, spending: real, other: real, qualified: real, n: nat): real {
    var a := PassAt(ctx, spending, other, qualified, n);
    var b := PassAt(ctx, spending, other, qualified, n + 1);
    b.hsaContribution + b.k401Contribution - a.hsaContribution - a.k401Contribution
  }

  /** A pass asks for at most what the tax it was given left over the last. */
  lemma PassFollowsTax(ctx: WorkingContext, spending: real, other: real, qualified: real, a: TaxResult, b: TaxResult)
    requires ctx.Valid() && b.totalTax <= a.totalTax
    ensures var x := NextPass(ctx, spending, other, qualified, a);
            var y := NextPass(ctx, spending, other, qualified, b);
            y.hsaContribution + y.k401Contribution - x.hsaContribution - x.k401Contribution <= a.totalTax - b.totalTax
  {
    hide WorkingTax;
  }

  lemma TaxAtPass(ctx: WorkingContext, spending: real, other: real, qualified: real, n: nat)
    requires ctx.Valid()
    ensures var a := PassAt(ctx, spending, other, qualified, n);
            a.totalTax == WorkingTax(ctx, other, qualified, a.hsaContribution, a.k401Contribution)
  {
    hide WorkingTax;
  }

  lemma NextAddsLess(ctx: WorkingContext, spending: real, other: real, qualified: real, n: nat)
    requires ctx.Valid() && 0.0 <= qualified
    ensures 0.0 <= PassAdds(ctx, spending, other, qualified, n + 1) <= 0.591 * PassAdds(ctx, spending, other, qualified, n)
  {
    hide WorkingTax;
    hide NextPass;
    var a, b := PassAt(ctx, spending, other, qualified, n), PassAt(ctx, spending, other, qualified, n + 1);
    PassesRise(ctx, spending, other, qualified, n);
    PassesRise(ctx, spending, other, qualified, n + 1);
    TaxAtPass(ctx, spending, other, qualified, n);
    TaxAtPass(ctx, spending, other, qualified, n + 1);
    ContributionSaves(ctx, other, qualified, a.hsaContribution, a.k401Contribution, b.hsaContribution, b.k401Contribution);
    PassFollowsTax(ctx, spending, other, qualified, a, b);
  }

  /** Four passes settle the contributions: a fifth would add at most an eighth of what the first did. */
  lemma ContributionsSettle(ctx: WorkingContext, spending: real, other: real, qualified: real)
    requires ctx.Valid() && 0.0 <= qualified
    ensures 0.0 <= PassAdds(ctx, spending, other, qualified, CONTRIBUTION_PASSES)
         <= 0.122 * PassAdds(ctx, spending, other, qualified, 0)
    ensures 0.0 <= PassAdds(ctx, spending, other, qualified, 0)
  {
    hide WorkingTax;
    hide NextPass;
    hide PassAdds;
    NextAddsLess(ctx, spending, other, qualified, 0);
    NextAddsLess(ctx, spending, other, qualified, 1);
    NextAddsLess(ctx, spending, other, qualified, 2);
    NextAddsLess(ctx, spending, other, qualified, 3);
  }

  /** The limits in dollars, with the catch-ups from 50, from 55 and at 60 to 63. */
  lemma LimitsByAge(ctx: WorkingContext)
    ensures var age := ctx.household.PrimaryAge();
            && K401Limit(age) == (if age < 50 then 23500.0 else if 60 <= age < 64 then 34750.0 else 31000.0)
            && IraLimit(age) == (if age < 50 then 7000.0 else 8000.0)
            && HsaMax(ctx) == (if !ctx.hsaEligible then 0.0 else if age < 55 then 4300.0 else 5300.0)
  {
  }

  /** Contributions go as far as the limits, the wages and the money not already committed allow. */
  lemma ContributionsReachTheirLimits(ctx: WorkingContext, spending: real, other: real, qualified: real)
    requires ctx.Valid() && 0.0 <= qualified
    ensures var flow := SettledCashFlow(ctx, spending, other, qualified);
            var left := Pos(Uncommitted(ctx, spending, other, qualified));
            var most := HsaMax(ctx) + K401Limit(ctx.household.PrimaryAge());
            && flow.tax.hsaContribution >= Min(Min(HsaMax(ctx), ctx.grossIncome), left)
            && flow.tax.hsaContribution + flow.tax.k401Contribution >= Min(Min(most, ctx.grossIncome), left)
            && (ctx.useBackdoorRoth && flow.netCashFlow >= 0.0 ==>
                  flow.roth == Min(IraLimit(ctx.household.PrimaryAge()), flow.netCashFlow))
            && flow.tax.totalTax
               == WorkingTax(ctx, other, qualified, flow.tax.hsaContribution, flow.tax.k401Contribution)
  {
    hide WorkingTax;
    var last := CONTRIBUTION_PASSES - 1;
    LaterTaxIsLower(ctx, spending, other, qualified, last);
    assert PassAt(ctx, spending, other, qualified, CONTRIBUTION_PASSES)
        == NextPass(ctx, spending, other, qualified, PassAt(ctx, spending, other, qualified, last));
    hide PassAt;
  }

  /** The four-pass loop. */
  method CalculateWorkingCashFlow(ctx: WorkingContext, spending: real, other: real, qualified: real) returns (flow: CashFlow)
    ensures flow == SettledCashFlow(ctx, spending, other, qualified)
  {
    hide CalculateTax;
    var tax := CalculateTax(ctx, other, qualified, 0.0, 0.0);
    for pass := 0 to CONTRIBUTION_PASSES
      invariant tax == PassAt(ctx, spending, other, qualified, pass)
    {
      var availableBeforeContributions := Pos(ctx.grossIncome + other - tax.totalTax - spending);
      var hsa := Min(HsaMax(ctx), availableBeforeContributions);
      var traditional := Min(K401Limit(ctx.household.PrimaryAge()), Pos(availableBeforeContributions - hsa));
      tax := CalculateTax(ctx, other, qualified, hsa, traditional);
    }
    var net := ctx.grossIncome + other - tax.totalTax - spending - tax.hsaContribution - tax.k401Contribution;
    var afterTaxBudget := Pos(net);
    var roth := if ctx.useBackdoorRoth then Min(IraLimit(ctx.household.PrimaryAge()), afterTaxBudget) else 0.0;
    flow := CashFlow(tax, roth, afterTaxBudget - roth, net);
  }

  // ---- The shortfall ---------------------------------------------------------

  /** What the year has taken out of the portfolio so far. */
  datatype Draws = Draws(taxable: real, traditional: real, roth: real, hsa: real, penalties: real) {
    predicate Valid() {
      0.0 <= taxable && 0.0 <= traditional && 0.0 <= roth && 0.0 <= hsa && 0.0 <= penalties
    }

    function Sum(): real {
      taxable + traditional + roth + hsa
    }
  }

  /** Draws the cash-flow model sees as income, at an annual rate. */
  function OtherIncome(ctx: WorkingContext, d: Draws): real
    requires ctx.Valid()
  {
    (d.traditional + d.hsa) / ctx.periodFraction
  }

  function Gains(ctx: WorkingContext, d: Draws): real
    requires ctx.Valid()
  {
    Times(d.taxable, ctx.taxableGainRatio) / ctx.periodFraction
  }

  function SpendingWith(ctx: WorkingContext, d: Draws): real
    requires ctx.Valid()
  {
    ctx.annualSpending + d.penalties / ctx.periodFraction
  }

  function FlowAfter(ctx: WorkingContext, d: Draws): CashFlow
    requires ctx.Valid()
  {
    SettledCashFlow(ctx, SpendingWith(ctx, d), OtherIncome(ctx, d), Gains(ctx, d))
  }

  /** What the year still lacks: the source's expression, and zero once it is covered. */
  function Remaining(ctx: WorkingContext, d: Draws): real
    requires ctx.Valid()
  {
    Pos(Times(-FlowAfter(ctx, d).netCashFlow, ctx.periodFraction) - (d.taxable + d.roth))
  }

  /** The same gap with nothing contributed, before any floor. */
  function Gap(ctx: WorkingContext, d: Draws): real
    requires ctx.Valid()
  {
    Times(ctx.periodFraction,
          ctx.annualSpending - ctx.grossIncome + WorkingTax(ctx, OtherIncome(ctx, d), Gains(ctx, d), 0.0, 0.0))
    + d.penalties - d.Sum()
  }

  lemma Undivided(x: real, f: real)
    requires 0.0 < f
    ensures Times(f, x / f) == x
  {
  }

  lemma ShareDivided(x: real, f: real)
    requires 0.0 < f && 0.0 <= x
    ensures 0.0 <= x / f
  {
  }

  lemma GapIsUncommitted(ctx: WorkingContext, d: Draws)
    requires ctx.Valid()
    ensures Gap(ctx, d)
         == Times(ctx.periodFraction, -Uncommitted(ctx, SpendingWith(ctx, d), OtherIncome(ctx, d), Gains(ctx, d)))
            - (d.taxable + d.roth)
  {
    hide WorkingTax;
    hide Times;
    var f := ctx.periodFraction;
    var tax := WorkingTax(ctx, OtherIncome(ctx, d), Gains(ctx, d), 0.0, 0.0);
    Undivided(d.penalties, f);
    Undivided(d.traditional + d.hsa, f);
    TimesSum(f, ctx.annualSpending - ctx.grossIncome + tax, d.penalties / f);
    TimesDiff(f, ctx.annualSpending - ctx.grossIncome + tax + d.penalties / f, (d.traditional + d.hsa) / f);
    assert -Uncommitted(ctx, SpendingWith(ctx, d), OtherIncome(ctx, d), Gains(ctx, d))
        == ctx.annualSpending - ctx.grossIncome + tax + d.penalties / f - (d.traditional + d.hsa) / f;
  }

  lemma DrawsAreIncome(ctx: WorkingContext, d: Draws)
    requires ctx.Valid() && d.Valid()
    ensures 0.0 <= OtherIncome(ctx, d) && 0.0 <= Gains(ctx, d)
  {
    TimesShare(d.taxable, ctx.taxableGainRatio);
    ShareDivided(Times(d.taxable, ctx.taxableGainRatio), ctx.periodFraction);
    ShareDivided(d.traditional + d.hsa, ctx.periodFraction);
  }

  /** Draws enter the tax at an annual rate: over the modelled part of the year they are the dollars drawn. */
  lemma DrawsAreAnnualized(ctx: WorkingContext, d: Draws)
    requires ctx.Valid()
    ensures var f := ctx.periodFraction;
            && Times(f, OtherIncome(ctx, d)) == d.traditional + d.hsa
            && Times(f, Gains(ctx, d)) == Times(d.taxable, ctx.taxableGainRatio)
            && Times(f, SpendingWith(ctx, d) - ctx.annualSpending) == d.penalties
  {
    hide Times;
    var f := ctx.periodFraction;
    Undivided(d.traditional + d.hsa, f);
    Undivided(Times(d.taxable, ctx.taxableGainRatio), f);
    Undivided(d.penalties, f);
  }

  /** The floored expression the loop reads is the plain gap, floored. */
  lemma RemainingIsGap(ctx: WorkingContext, d: Draws)
    requires ctx.Valid() && d.Valid()
    ensures Remaining(ctx, d) == Pos(Gap(ctx, d))
    ensures 0.0 <= Gap(ctx, d) + d.taxable + d.roth ==>
              var flow := FlowAfter(ctx, d);
              && flow.tax == TaxResult(WorkingTax(ctx, OtherIncome(ctx, d), Gains(ctx, d), 0.0, 0.0), 0.0, 0.0)
              && flow.roth == 0.0 && flow.taxable == 0.0
  {
    hide WorkingTax;
    hide Times;
    hide SettledCashFlow;
    var f := ctx.periodFraction;
    var spending, other, gains := SpendingWith(ctx, d), OtherIncome(ctx, d), Gains(ctx, d);
    var left := Uncommitted(ctx, spending, other, gains);
    var net := FlowAfter(ctx, d).netCashFlow;
    GapIsUncommitted(ctx, d);
    DrawsAreIncome(ctx, d);
    ContributionsNeverCreateShortfall(ctx, spending, other, gains);
    TimesSwap(f, -net);
    TimesZero(f);
    hide Uncommitted;
    if left >= 0.0 {
      TimesMono(f, -net, 0.0);
      TimesMono(f, -left, 0.0);
      if left > 0.0 {
        StrictlyShort(f, -left);
      }
    }
  }

  lemma StrictlyShort(f: real, x: real)
    requires 0.0 < f && x < 0.0
    ensures Times(f, x) < 0.0
  {
  }

  // ---- Each draw closes most of the gap --------------------------------------

  /** A working year's marginal rate, with no benefit in the way. */
  lemma WorkingTaxSlope(ctx: WorkingContext, o: real, q: real, o2: real, q2: real)
    requires ctx.Valid() && o <= o2 && 0.0 <= q <= q2
    ensures 0.0 <= WorkingTax(ctx, o2, q2, 0.0, 0.0) - WorkingTax(ctx, o, q, 0.0, 0.0)
         <= 0.591 * (o2 - o) + 0.371 * (q2 - q)
  {
    hide FederalTaxOnIncome;
    hide StateTaxOf;
    hide Fica;
    FederalSlope(ctx.household, ctx.taxYear, ctx.grossIncome + o, q, ctx.grossIncome + o2, q2);
    StateSlope(ctx.state, ctx.household.filingStatus, StateTaxInput(ctx.grossIncome, o, q, 0.0, 0.0),
               StateTaxInput(ctx.grossIncome, o2, q2, 0.0, 0.0));
  }

  function AfterDraw(d: Draws, w: OrderedWithdrawal, age: nat): Draws {
    Draws(d.taxable + w.taxable, d.traditional + w.traditional, d.roth + w.roth, d.hsa + w.hsa,
          d.penalties + PenaltiesOn(w.traditional, w.hsa, 0.0, age))
  }

  predicate PositiveDraw(w: OrderedWithdrawal) {
    && 0.0 <= w.taxable && 0.0 <= w.traditional && 0.0 <= w.roth && 0.0 <= w.hsa
    && w.total == w.taxable + w.traditional + w.roth + w.hsa
  }

  lemma ScaledSlope(f: real, a: real, b: real)
    ensures Times(f, 0.591 * a + 0.371 * b) == 0.591 * Times(f, a) + 0.371 * Times(f, b)
  {
  }

  /** The tax a draw adds, in the period's own dollars. */
  lemma DrawAddsTax(ctx: WorkingContext, d: Draws, e: Draws)
    requires ctx.Valid() && d.Valid() && e.Valid()
    requires d.taxable <= e.taxable && d.traditional <= e.traditional && d.hsa <= e.hsa
    ensures var f := ctx.periodFraction;
            0.0 <= Times(f, WorkingTax(ctx, OtherIncome(ctx, e), Gains(ctx, e), 0.0, 0.0))
                   - Times(f, WorkingTax(ctx, OtherIncome(ctx, d), Gains(ctx, d), 0.0, 0.0))
            <= 0.591 * (e.traditional - d.traditional + e.hsa - d.hsa) + 0.371 * (e.taxable - d.taxable)
  {
    hide WorkingTax;
    hide Times;
    var f, g := ctx.periodFraction, ctx.taxableGainRatio;
    var o, o2 := OtherIncome(ctx, d), OtherIncome(ctx, e);
    var q, q2 := Gains(ctx, d), Gains(ctx, e);
    DrawsAreIncome(ctx, d);
    Undivided(d.traditional + d.hsa, f);
    Undivided(e.traditional + e.hsa, f);
    Undivided(Times(d.taxable, g), f);
    Undivided(Times(e.taxable, g), f);
    TimesShare(e.taxable - d.taxable, g);
    TimesDiff(g, e.taxable, d.taxable);
    Divided(d.traditional + d.hsa, e.traditional + e.hsa, f);
    Divided(Times(d.taxable, g), Times(e.taxable, g), f);
    WorkingTaxSlope(ctx, o, q, o2, q2);
    var t, t2 := WorkingTax(ctx, o, q, 0.0, 0.0), WorkingTax(ctx, o2, q2, 0.0, 0.0);
    TimesDiff(f, t2, t);
    TimesMono(f, 0.0, t2 - t);
    TimesZero(f);
    TimesMono(f, t2 - t, 0.591 * (o2 - o) + 0.371 * (q2 - q));
    ScaledSlope(f, o2 - o, q2 - q);
    TimesDiff(f, o2, o);
    TimesDiff(f, q2, q);
  }

  lemma Divided(x: real, y: real, f: real)
    requires 0.0 < f && x <= y
    ensures x / f <= y / f
  {
  }

  /**
   * While the year is short, a draw of `w` leaves between none and four fifths of
   * itself still owed: the tax and penalty it creates, and nothing else.
   */
  lemma DrawClosesGap(ctx: WorkingContext, d: Draws, w: OrderedWithdrawal)
    requires ctx.Valid() && d.Valid() && PositiveDraw(w)
    ensures var e := AfterDraw(d, w, ctx.age);
            e.Valid() && Gap(ctx, d) - w.total <= Gap(ctx, e) <= Gap(ctx, d) - 0.2 * w.total
  {
    hide WorkingTax;
    hide Times;
    var e := AfterDraw(d, w, ctx.age);
    var f := ctx.periodFraction;
    DrawAddsTax(ctx, d, e);
    TimesSum(f, ctx.annualSpending - ctx.grossIncome, WorkingTax(ctx, OtherIncome(ctx, d), Gains(ctx, d), 0.0, 0.0));
    TimesSum(f, ctx.annualSpending - ctx.grossIncome, WorkingTax(ctx, OtherIncome(ctx, e), Gains(ctx, e), 0.0, 0.0));
    hide OtherIncome;
    hide Gains;
  }

  /** A gap after `k` full draws, at worst. */
  function Decayed(gap: real, k: nat): real {
    if k == 0 then gap else Decayed(gap, k - 1) * 0.8
  }

  /** Fifty draws leave under two thousandths of a percent of a gap. */
  lemma FiftyDrawsDecay(gap: real)
    requires 0.0 <= gap
    ensures 0.0 <= Decayed(gap, SHORTFALL_PASSES) <= 0.0000144 * gap
  {
    TenDraws(gap, 0);
    TenDraws(gap, 10);
    TenDraws(gap, 20);
    TenDraws(gap, 30);
    TenDraws(gap, 40);
    assert Decayed(gap, 0) == gap;
    hide Decayed;
  }

  lemma TenDraws(gap: real, k: nat)
    requires 0.0 <= Decayed(gap, k)
    ensures 0.0 <= Decayed(gap, k + 10) <= 0.1074 * Decayed(gap, k)
  {
    FiveDraws(gap, k);
    FiveDraws(gap, k + 5);
    hide Decayed;
  }

  lemma FiveDraws(gap: real, k: nat)
    ensures Decayed(gap, k + 5) == 0.32768 * Decayed(gap, k)
  {
    assert Decayed(gap, k + 2) == 0.64 * Decayed(gap, k);
    assert Decayed(gap, k + 4) == 0.64 * Decayed(gap, k + 2);
  }

  lemma OrderTotal(accounts: seq<Account>, balances: seq<real>, amount: real, age: nat, gainRatio: real, target: Option<MagiTarget>)
    requires |accounts| == |balances|
    ensures var d := Order(accounts, balances, amount, age, gainRatio, target).drawn;
            d.total == d.taxable + d.traditional + d.roth + d.hsa
  {
    hide DrawLeg;
    hide GainDrawn;
    hide TraditionalHeadroom;
  }

  lemma {:induction false} WorthIsTotal(accounts: seq<Account>)
    ensures Worth(accounts) == Total(Balances(accounts))
  {
    if |accounts| > 0 {
      assert Balances(accounts)[1..] == Balances(accounts[1..]);
      WorthIsTotal(accounts[1..]);
    }
  }

  lemma WithBalancesWorth(accounts: seq<Account>, balances: seq<real>)
    requires |accounts| == |balances|
    ensures Worth(WithBalances(accounts, balances)) == Total(balances)
    ensures NonNegative(balances) ==> Solvent(WithBalances(accounts, balances))
    ensures OnePerType(accounts) ==> OnePerType(WithBalances(accounts, balances))
  {
    WorthIsTotal(WithBalances(accounts, balances));
    assert Balances(WithBalances(accounts, balances)) == balances;
  }

  // ---- The loop as a function --------------------------------------------------

  /** A year part-way through its draws: what it has recorded and what the accounts still hold. */
  datatype Funding = Funding(d: Draws, accounts: seq<Account>)

  /** The band a shortfall draw obeys: wages and everything drawn so far are committed. */
  function TargetNow(ctx: WorkingContext, d: Draws): Option<MagiTarget> {
    match ctx.magiTarget
    case None => None
    case Some(t) =>
      Some(t.(committedMagi := Times(ctx.grossIncome, ctx.periodFraction) + d.traditional + Times(d.taxable, ctx.taxableGainRatio)))
  }

  /** What a pass takes: all that is lacking, in the order and under the band of that moment. */
  function NextDraw(ctx: WorkingContext, s: Funding): (o: OrderOutcome)
    requires ctx.Valid()
    ensures |o.left| == |s.accounts|
  {
    Order(s.accounts, Balances(s.accounts), Remaining(ctx, s.d), ctx.age, ctx.taxableGainRatio, TargetNow(ctx, s.d))
  }

  function DrawOnce(ctx: WorkingContext, s: Funding): Funding
    requires ctx.Valid()
  {
    var o := NextDraw(ctx, s);
    Funding(AfterDraw(s.d, o.drawn, ctx.age), WithBalances(s.accounts, o.left))
  }

  /** Where a year stands after `k` draws, whether or not the loop would go that far. */
  function AfterDraws(ctx: WorkingContext, accounts: seq<Account>, forced: real, k: nat): Funding
    requires ctx.Valid()
  {
    if k == 0 then Funding(Draws(0.0, forced, 0.0, 0.0, 0.0), accounts)
    else DrawOnce(ctx, AfterDraws(ctx, accounts, forced, k - 1))
  }

  predicate Short(ctx: WorkingContext, s: Funding)
    requires ctx.Valid()
  {
    Remaining(ctx, s.d) > SHORTFALL_TOLERANCE
  }

  /** A pass runs to its end: the year is short, and the draw is worth recording. */
  predicate KeepsDrawing(ctx: WorkingContext, s: Funding)
    requires ctx.Valid()
  {
    Short(ctx, s) && NextDraw(ctx, s).drawn.total > SHORTFALL_TOLERANCE
  }

  /** How many passes run to their end, counting from pass `k`. */
  function PassesFrom(ctx: WorkingContext, accounts: seq<Account>, forced: real, k: nat): (n: nat)
    requires ctx.Valid() && k <= SHORTFALL_PASSES
    ensures k <= n <= SHORTFALL_PASSES
    decreases SHORTFALL_PASSES - k
  {
    if k < SHORTFALL_PASSES && KeepsDrawing(ctx, AfterDraws(ctx, accounts, forced, k))
    then PassesFrom(ctx, accounts, forced, k + 1) else k
  }

  /** What the year records and what its accounts end up holding, which a last, unrecorded draw can lower. */
  function FundedYear(ctx: WorkingContext, accounts: seq<Account>, forced: real): Funding
    requires ctx.Valid()
  {
    var n := PassesFrom(ctx, accounts, forced, 0);
    var s := AfterDraws(ctx, accounts, forced, n);
    if n < SHORTFALL_PASSES && Short(ctx, s) then Funding(s.d, DrawOnce(ctx, s).accounts) else s
  }

  /** What left the accounts without being recorded. */
  function Dust(ctx: WorkingContext, accounts: seq<Account>, forced: real): real
    requires ctx.Valid()
  {
    Worth(AfterDraws(ctx, accounts, forced, PassesFrom(ctx, accounts, forced, 0)).accounts)
    - Worth(FundedYear(ctx, accounts, forced).accounts)
  }

  /** After some number of draws the year lacks more than a dollar and the portfolio holds a dollar or less. */
  predicate RunsOutByCents(ctx: WorkingContext, accounts: seq<Account>, forced: real)
    requires ctx.Valid()
  {
    exists k | 0 <= k < SHORTFALL_PASSES :: CentsLeft(ctx, AfterDraws(ctx, accounts, forced, k))
  }

  predicate CentsLeft(ctx: WorkingContext, s: Funding)
    requires ctx.Valid()
  {
    Gap(ctx, s.d) > SHORTFALL_TOLERANCE && 0.0 < Worth(s.accounts) <= SHORTFALL_TOLERANCE
  }

  /** What every point of a year's drawing keeps. */
  predicate Sound(s: Funding) {
    s.d.Valid() && Solvent(s.accounts) && OnePerType(s.accounts)
  }

  /** One draw takes what is lacking or all there is, and leaves at most four fifths of it still owed. */
  lemma DrawOnceEffect(ctx: WorkingContext, s: Funding)
    requires ctx.Valid() && Sound(s)
    ensures var drawn := NextDraw(ctx, s).drawn;
            var after := DrawOnce(ctx, s);
            && Sound(after) && PositiveDraw(drawn)
            && drawn.total == Min(Pos(Gap(ctx, s.d)), Worth(s.accounts))
            && Worth(after.accounts) == Worth(s.accounts) - drawn.total
            && after.d.Sum() == s.d.Sum() + drawn.total && s.d.traditional <= after.d.traditional
            && Gap(ctx, s.d) - drawn.total <= Gap(ctx, after.d) <= Gap(ctx, s.d) - 0.2 * drawn.total
  {
    hide Order;
    hide Gap;
    hide Remaining;
    hide Worth;
    hide Solvent;
    hide OnePerType;
    hide WithBalances;
    hide PenaltiesOn;
    hide TargetNow;
    OrderFromAccounts(s.accounts, Remaining(ctx, s.d), ctx.age, ctx.taxableGainRatio, TargetNow(ctx, s.d));
    RemainingIsGap(ctx, s.d);
    DrawClosesGap(ctx, s.d, NextDraw(ctx, s).drawn);
  }

  /** The accounts lose exactly what the order raised. */
  lemma OrderFromAccounts(accounts: seq<Account>, amount: real, age: nat, gainRatio: real, target: Option<MagiTarget>)
    requires Solvent(accounts) && OnePerType(accounts) && 0.0 <= gainRatio <= 1.0
    ensures var o := Order(accounts, Balances(accounts), amount, age, gainRatio, target);
            var after := WithBalances(accounts, o.left);
            && PositiveDraw(o.drawn) && o.drawn.total == Min(Pos(amount), Worth(accounts))
            && Worth(after) == Worth(accounts) - o.drawn.total && Solvent(after) && OnePerType(after)
  {
    hide Order;
    WorthIsTotal(accounts);
    OrderRaisesWhatItCan(accounts, Balances(accounts), amount, age, gainRatio, target);
    OrderConserves(accounts, Balances(accounts), amount, age, gainRatio, target);
    EveryLegRises(accounts, Balances(accounts), amount, amount, age, gainRatio, target);
    OrderTotal(accounts, Balances(accounts), amount, age, gainRatio, target);
    WithBalancesWorth(accounts, Order(accounts, Balances(accounts), amount, age, gainRatio, target).left);
  }

  /** However many draws: nothing is created or lost, the gap only shrinks, and never past zero. */
  lemma {:induction false} DrawsKeep(ctx: WorkingContext, accounts: seq<Account>, forced: real, k: nat)
    requires ctx.Valid() && Solvent(accounts) && OnePerType(accounts) && 0.0 <= forced
    ensures var start := AfterDraws(ctx, accounts, forced, 0);
            var s := AfterDraws(ctx, accounts, forced, k);
            && Sound(s) && forced <= s.d.traditional
            && Worth(s.accounts) == Worth(accounts) - (s.d.Sum() - forced)
            && (0.0 <= Gap(ctx, start.d) ==> 0.0 <= Gap(ctx, s.d))
            && (Worth(s.accounts) == 0.0 || Gap(ctx, s.d) <= Decayed(Gap(ctx, start.d), k))
  {
    hide DrawOnce;
    hide NextDraw;
    hide Gap;
    hide Worth;
    hide Solvent;
    hide OnePerType;
    if k > 0 {
      DrawsKeep(ctx, accounts, forced, k - 1);
      var s := AfterDraws(ctx, accounts, forced, k - 1);
      DrawOnceEffect(ctx, s);
      DrawnIsPositive(ctx, s);
      WorthNonNegative(s.accounts);
      assert AfterDraws(ctx, accounts, forced, k) == DrawOnce(ctx, s);
      hide AfterDraws;
    }
  }

  /** More draws never reopen the gap or refill the portfolio. */
  lemma {:induction false} DrawsOnlyShrink(ctx: WorkingContext, accounts: seq<Account>, forced: real, j: nat, k: nat)
    requires ctx.Valid() && Solvent(accounts) && OnePerType(accounts) && 0.0 <= forced && j <= k
    ensures var s, t := AfterDraws(ctx, accounts, forced, j), AfterDraws(ctx, accounts, forced, k);
            Gap(ctx, t.d) <= Gap(ctx, s.d) && 0.0 <= Worth(t.accounts) <= Worth(s.accounts)
            && s.d.Sum() <= t.d.Sum()
    decreases k - j
  {
    hide DrawOnce;
    hide NextDraw;
    hide Gap;
    hide Worth;
    hide Decayed;
    hide Solvent;
    hide OnePerType;
    DrawsKeep(ctx, accounts, forced, k);
    WorthNonNegative(AfterDraws(ctx, accounts, forced, k).accounts);
    if j < k {
      DrawsOnlyShrink(ctx, accounts, forced, j, k - 1);
      DrawsKeep(ctx, accounts, forced, k - 1);
      var s := AfterDraws(ctx, accounts, forced, k - 1);
      DrawOnceEffect(ctx, s);
      DrawnIsPositive(ctx, s);
      assert AfterDraws(ctx, accounts, forced, k) == DrawOnce(ctx, s);
      hide AfterDraws;
      hide Sound;
    }
  }

  lemma DrawnIsPositive(ctx: WorkingContext, s: Funding)
    requires ctx.Valid() && PositiveDraw(NextDraw(ctx, s).drawn)
    ensures 0.0 <= NextDraw(ctx, s).drawn.total
  {
    hide NextDraw;
  }

  lemma {:induction false} WorthNonNegative(accounts: seq<Account>)
    requires Solvent(accounts)
    ensures 0.0 <= Worth(accounts)
  {
    if |accounts| > 0 {
      TailNonNegative(accounts);
      WorthNonNegative(accounts[1..]);
    }
  }

  /** The passes that ran all kept drawing, and the one after them would not. */
  lemma {:induction false} PassesStop(ctx: WorkingContext, accounts: seq<Account>, forced: real, k: nat)
    requires ctx.Valid() && k <= SHORTFALL_PASSES
    ensures var n := PassesFrom(ctx, accounts, forced, k);
            && (forall j | k <= j < n :: KeepsDrawing(ctx, AfterDraws(ctx, accounts, forced, j)))
            && (n < SHORTFALL_PASSES ==> !KeepsDrawing(ctx, AfterDraws(ctx, accounts, forced, n)))
    decreases SHORTFALL_PASSES - k
  {
    hide AfterDraws;
    hide KeepsDrawing;
    if k < SHORTFALL_PASSES && KeepsDrawing(ctx, AfterDraws(ctx, accounts, forced, k)) {
      PassesStop(ctx, accounts, forced, k + 1);
    }
  }

  /**
   * How a working year ends: funded, drained, or after fifty passes with at most
   * (4/5)^50 of the first gap; never overdrawn; and with nothing contributed if
   * anything was drawn for a shortfall.
   */
  lemma YearEnds(ctx: WorkingContext, accounts: seq<Account>, forced: real)
    requires ctx.Valid() && Solvent(accounts) && OnePerType(accounts) && 0.0 <= forced
    ensures var n := PassesFrom(ctx, accounts, forced, 0);
            var start := Gap(ctx, AfterDraws(ctx, accounts, forced, 0).d);
            var end := FundedYear(ctx, accounts, forced);
            && Sound(end) && forced <= end.d.traditional
            && Worth(end.accounts) == Worth(accounts) - (end.d.Sum() - forced) - Dust(ctx, accounts, forced)
            && (n > 0 ==> start > SHORTFALL_TOLERANCE && 0.0 <= Gap(ctx, end.d))
            && (n > 0 ==> end.d.Sum() - forced > SHORTFALL_TOLERANCE)
            && (|| Gap(ctx, end.d) <= SHORTFALL_TOLERANCE
                || Worth(end.accounts) == 0.0
                || (n == SHORTFALL_PASSES && Gap(ctx, end.d) <= Decayed(start, SHORTFALL_PASSES)))
            && 0.0 <= Dust(ctx, accounts, forced) <= SHORTFALL_TOLERANCE
            && Dust(ctx, accounts, forced) == (if Gap(ctx, end.d) > SHORTFALL_TOLERANCE && n < SHORTFALL_PASSES
                                               then Worth(accounts) - (end.d.Sum() - forced) else 0.0)
  {
    var n := PassesFrom(ctx, accounts, forced, 0);
    var s := AfterDraws(ctx, accounts, forced, n);
    PassesStop(ctx, accounts, forced, 0);
    DrawsKeep(ctx, accounts, forced, n);
    WorthNonNegative(s.accounts);
    DrawOnceEffect(ctx, s);
    RemainingIsGap(ctx, s.d);
    FirstDraw(ctx, accounts, forced, n);
    EndsHere(ctx, accounts, forced, s, n);
    hide FundedYear;
    hide Dust;
    hide KeepsDrawing;
    hide PassesFrom;
    hide AfterDraws;
    hide DrawOnce;
    hide NextDraw;
    hide Gap;
    hide Remaining;
    hide Worth;
    hide Solvent;
    hide OnePerType;
    hide Decayed;
  }

  /** What a year ends with, from where its last recorded draw left it. */
  lemma EndsHere(ctx: WorkingContext, accounts: seq<Account>, forced: real, s: Funding, n: nat)
    requires ctx.Valid() && n == PassesFrom(ctx, accounts, forced, 0) && s == AfterDraws(ctx, accounts, forced, n)
    requires Sound(s) && Sound(DrawOnce(ctx, s)) && 0.0 <= Worth(s.accounts)
    requires NextDraw(ctx, s).drawn.total == Min(Pos(Gap(ctx, s.d)), Worth(s.accounts))
    requires Worth(DrawOnce(ctx, s).accounts) == Worth(s.accounts) - NextDraw(ctx, s).drawn.total
    requires Remaining(ctx, s.d) == Pos(Gap(ctx, s.d)) && (n < SHORTFALL_PASSES ==> !KeepsDrawing(ctx, s))
    ensures var end := FundedYear(ctx, accounts, forced);
            var stops := n < SHORTFALL_PASSES && Gap(ctx, s.d) > SHORTFALL_TOLERANCE;
            && Sound(end) && end.d == s.d
            && Dust(ctx, accounts, forced) == (if stops then Worth(s.accounts) else 0.0)
            && Worth(end.accounts) == (if stops then 0.0 else Worth(s.accounts))
            && (stops ==> Worth(s.accounts) <= SHORTFALL_TOLERANCE)
  {
    hide PassesFrom;
    hide AfterDraws;
    hide DrawOnce;
    hide NextDraw;
    hide Gap;
    hide Remaining;
    hide Worth;
    hide Solvent;
    hide OnePerType;
  }

  /** A year that drew at all started short, and what it drew first was worth recording. */
  lemma FirstDraw(ctx: WorkingContext, accounts: seq<Account>, forced: real, n: nat)
    requires ctx.Valid() && Solvent(accounts) && OnePerType(accounts) && 0.0 <= forced
    requires n == PassesFrom(ctx, accounts, forced, 0)
    ensures n > 0 ==>
              && Gap(ctx, AfterDraws(ctx, accounts, forced, 0).d) > SHORTFALL_TOLERANCE
              && AfterDraws(ctx, accounts, forced, n).d.Sum() - forced > SHORTFALL_TOLERANCE
  {
    if n > 0 {
      var start := AfterDraws(ctx, accounts, forced, 0);
      PassesStop(ctx, accounts, forced, 0);
      assert KeepsDrawing(ctx, start);
      DrawOnceEffect(ctx, start);
      RemainingIsGap(ctx, start.d);
      DrawsOnlyShrink(ctx, accounts, forced, 1, n);
      hide PassesFrom;
      hide DrawOnce;
      hide NextDraw;
      hide Gap;
      hide Remaining;
      hide Worth;
    }
  }

  /**
   * Exactly when a working year loses money no row reports: when, after some
   * number of draws, it lacks more than a dollar and the accounts hold a dollar
   * or less but not nothing. The pass that takes the last of it stops before
   * recording what it took.
   */
  lemma DustExactlyWhenRunningOut(ctx: WorkingContext, accounts: seq<Account>, forced: real)
    requires ctx.Valid() && Solvent(accounts) && OnePerType(accounts) && 0.0 <= forced
    ensures Dust(ctx, accounts, forced) > 0.0 <==> RunsOutByCents(ctx, accounts, forced)
  {
    var n := PassesFrom(ctx, accounts, forced, 0);
    var s := AfterDraws(ctx, accounts, forced, n);
    YearEnds(ctx, accounts, forced);
    PassesStop(ctx, accounts, forced, 0);
    DrawsKeep(ctx, accounts, forced, n);
    DrawOnceEffect(ctx, s);
    RemainingIsGap(ctx, s.d);
    if RunsOutByCents(ctx, accounts, forced) {
      var k :| 0 <= k < SHORTFALL_PASSES && CentsLeft(ctx, AfterDraws(ctx, accounts, forced, k));
      CentsLeftAtTheStop(ctx, accounts, forced, k);
      assert CentsLeft(ctx, s);
    }
    hide PassesFrom;
    hide AfterDraws;
    hide DrawOnce;
    hide NextDraw;
    hide Gap;
    hide Remaining;
    hide Worth;
    hide Solvent;
    hide OnePerType;
    hide Decayed;
    if Dust(ctx, accounts, forced) > 0.0 {
      assert CentsLeft(ctx, s);
    }
  }

  /** Where cents are left a pass does not run to its end; where one does not, the next draw leaves no gap or nothing. */
  lemma StoppingPoint(ctx: WorkingContext, s: Funding)
    requires ctx.Valid() && Sound(s)
    ensures CentsLeft(ctx, s) ==> !KeepsDrawing(ctx, s)
    ensures !KeepsDrawing(ctx, s) ==> Gap(ctx, s.d) <= SHORTFALL_TOLERANCE || Worth(DrawOnce(ctx, s).accounts) == 0.0
  {
    DrawOnceEffect(ctx, s);
    RemainingIsGap(ctx, s.d);
    hide DrawOnce;
    hide NextDraw;
    hide Gap;
    hide Remaining;
    hide Worth;
    hide Sound;
  }

  /** If cents are left after any number of draws, that is where the loop stops. */
  lemma CentsLeftAtTheStop(ctx: WorkingContext, accounts: seq<Account>, forced: real, k: nat)
    requires ctx.Valid() && Solvent(accounts) && OnePerType(accounts) && 0.0 <= forced
    requires k < SHORTFALL_PASSES && CentsLeft(ctx, AfterDraws(ctx, accounts, forced, k))
    ensures k == PassesFrom(ctx, accounts, forced, 0)
  {
    hide PassesFrom;
    hide DrawOnce;
    hide Gap;
    hide Worth;
    hide Sound;
    hide KeepsDrawing;
    var n := PassesFrom(ctx, accounts, forced, 0);
    PassesStop(ctx, accounts, forced, 0);
    DrawsKeep(ctx, accounts, forced, k);
    DrawsKeep(ctx, accounts, forced, n);
    StoppingPoint(ctx, AfterDraws(ctx, accounts, forced, k));
    StoppingPoint(ctx, AfterDraws(ctx, accounts, forced, n));
    if n < k {
      DrawsOnlyShrink(ctx, accounts, forced, n, k);
      DrawsOnlyShrink(ctx, accounts, forced, n + 1, k);
    }
  }

  // ---- Bucket by bucket --------------------------------------------------------

  /** What a year has recorded as drawn from one bucket. */
  function Recorded(d: Draws, ty: AccountType): real {
    match ty
    case Taxable => d.taxable
    case Traditional => d.traditional
    case Roth => d.roth
    case Hsa => d.hsa
  }

  /** A bucket's balance is what a draw can find in it. */
  lemma {:induction false} BalanceIsAvailable(accounts: seq<Account>, balances: seq<real>, ty: AccountType)
    requires |accounts| == |balances| && NonNegative(balances)
    ensures BalanceOf(WithBalances(accounts, balances), ty) == Available(accounts, balances, ty)
  {
    hide Times;
    if |accounts| > 0 {
      BalanceIsAvailable(accounts[1..], balances[1..], ty);
      assert WithBalances(accounts, balances)[1..] == WithBalances(accounts[1..], balances[1..]);
    }
  }

  /** Bucket by bucket, the accounts lose what the order reports. */
  lemma OrderLeaves(accounts: seq<Account>, amount: real, age: nat, gainRatio: real, target: Option<MagiTarget>, ty: AccountType)
    requires Solvent(accounts)
    ensures var o := Order(accounts, Balances(accounts), amount, age, gainRatio, target);
            BalanceOf(WithBalances(accounts, o.left), ty) == BalanceOf(accounts, ty) - DrawnFromType(o.drawn, ty)
  {
    hide Order;
    var balances := Balances(accounts);
    OrderConserves(accounts, balances, amount, age, gainRatio, target);
    OrderTakesWhatItReports(accounts, balances, amount, age, gainRatio, target, ty);
    BalanceIsAvailable(accounts, balances, ty);
    assert WithBalances(accounts, balances) == accounts;
    BalanceIsAvailable(accounts, Order(accounts, balances, amount, age, gainRatio, target).left, ty);
    hide Available;
    hide BalanceOf;
  }

  /**
   * However many draws: each bucket has lost exactly what is recorded against it,
   * and the penalties are those on every early dollar beyond the forced distribution.
   */
  lemma {:induction false} DrawsLeaveTheirBuckets(ctx: WorkingContext, accounts: seq<Account>, forced: real, k: nat, ty: AccountType)
    requires ctx.Valid() && Solvent(accounts) && OnePerType(accounts) && 0.0 <= forced
    ensures var s := AfterDraws(ctx, accounts, forced, k);
            && BalanceOf(s.accounts, ty) == BalanceOf(accounts, ty) - (Recorded(s.d, ty) - if ty == Traditional then forced else 0.0)
            && s.d.penalties == (if ctx.age < 60 then 0.1 * (s.d.traditional - forced) else 0.0)
                                + (if ctx.age < 65 then 0.2 * s.d.hsa else 0.0)
  {
    hide Order;
    hide WithBalances;
    hide Remaining;
    hide BalanceOf;
    hide TargetNow;
    if k > 0 {
      DrawsLeaveTheirBuckets(ctx, accounts, forced, k - 1, ty);
      DrawsKeep(ctx, accounts, forced, k - 1);
      var s := AfterDraws(ctx, accounts, forced, k - 1);
      OrderLeaves(s.accounts, Remaining(ctx, s.d), ctx.age, ctx.taxableGainRatio, TargetNow(ctx, s.d), ty);
      assert AfterDraws(ctx, accounts, forced, k) == DrawOnce(ctx, s);
      hide AfterDraws;
      hide Worth;
      hide Gap;
      hide Decayed;
      hide Solvent;
      hide OnePerType;
    }
  }

  /** A year that records everything leaves each bucket short by what it recorded, and every year its penalties. */
  lemma FundedYearLeaves(ctx: WorkingContext, accounts: seq<Account>, forced: real, ty: AccountType)
    requires ctx.Valid() && Solvent(accounts) && OnePerType(accounts) && 0.0 <= forced
    ensures var end := FundedYear(ctx, accounts, forced);
            && (Dust(ctx, accounts, forced) == 0.0 ==>
                  BalanceOf(end.accounts, ty)
                  == BalanceOf(accounts, ty) - (Recorded(end.d, ty) - if ty == Traditional then forced else 0.0))
            && end.d.penalties == (if ctx.age < 60 then 0.1 * (end.d.traditional - forced) else 0.0)
                                  + (if ctx.age < 65 then 0.2 * end.d.hsa else 0.0)
  {
    var n := PassesFrom(ctx, accounts, forced, 0);
    var s := AfterDraws(ctx, accounts, forced, n);
    DrawsLeaveTheirBuckets(ctx, accounts, forced, n, ty);
    DrawsKeep(ctx, accounts, forced, n);
    LastDrawLeaves(ctx, s, ty);
    hide AfterDraws;
    hide PassesFrom;
    hide DrawOnce;
    hide BalanceOf;
    hide Worth;
    hide Gap;
    hide Decayed;
    hide Solvent;
    hide OnePerType;
    hide Short;
  }

  /** A draw that takes nothing leaves every bucket as it was. */
  lemma LastDrawLeaves(ctx: WorkingContext, s: Funding, ty: AccountType)
    requires ctx.Valid() && Sound(s)
    ensures Worth(DrawOnce(ctx, s).accounts) == Worth(s.accounts) ==>
              BalanceOf(DrawOnce(ctx, s).accounts, ty) == BalanceOf(s.accounts, ty)
  {
    hide Order;
    hide WithBalances;
    hide Remaining;
    hide BalanceOf;
    hide TargetNow;
    hide Worth;
    hide Gap;
    OrderLeaves(s.accounts, Remaining(ctx, s.d), ctx.age, ctx.taxableGainRatio, TargetNow(ctx, s.d), ty);
    DrawOnceEffect(ctx, s);
    hide Solvent;
    hide OnePerType;
  }

  /**
   * A shortfall draw obeys the band too: it takes Roth while Traditional is left
   * only when a band exists at the year's wages, and everything drawn so far has
   * brought its income to the ceiling; past that it takes Traditional only once
   * Roth is dry. With no target Traditional goes first.
   */
  lemma ShortfallObeysTheBand(ctx: WorkingContext, s: Funding)
    requires ctx.Valid() && Sound(s)
    ensures var drawn := NextDraw(ctx, s).drawn;
            var after := DrawOnce(ctx, s).d;
            var traditionalLeft := drawn.traditional < BalanceOf(s.accounts, Traditional);
            if ctx.magiTarget.None? then drawn.roth > 0.0 ==> !traditionalLeft
            else
              var t := ctx.magiTarget.value;
              var wages := Times(ctx.grossIncome, ctx.periodFraction);
              var gains := Times(after.taxable, ctx.taxableGainRatio);
              var band := MagiBandFor(ctx.age, t.retirementAge, t.filingStatus, t.householdSize,
                                      wages + s.d.traditional + gains, t.healthcare);
              && (drawn.roth > 0.0 && traditionalLeft ==>
                    band.Some? && wages + after.traditional + gains >= band.value.ceiling)
              && (band.Some? && wages + after.traditional + gains > band.value.ceiling ==>
                    drawn.traditional == 0.0 || drawn.roth == BalanceOf(s.accounts, Roth))
  {
    hide Order;
    hide Available;
    hide MagiBandFor;
    hide Times;
    hide BalanceOf;
    hide Remaining;
    var balances := Balances(s.accounts);
    var drawn := NextDraw(ctx, s).drawn;
    BalanceIsAvailable(s.accounts, balances, Traditional);
    BalanceIsAvailable(s.accounts, balances, Roth);
    assert WithBalances(s.accounts, balances) == s.accounts;
    RothOnlyAtTheCeiling(s.accounts, balances, Remaining(ctx, s.d), ctx.age, ctx.taxableGainRatio, TargetNow(ctx, s.d));
    TimesSum(ctx.taxableGainRatio, s.d.taxable, drawn.taxable);
  }

  // ---- The loop ----------------------------------------------------------------

  /** Draw from the accounts themselves, in the withdrawal order. */
  method WithdrawInOrder(accounts: seq<Account>, amount: real, age: nat, gainRatio: real, target: Option<MagiTarget>)
    returns (drawn: OrderedWithdrawal, after: seq<Account>)
    requires Solvent(accounts) && OnePerType(accounts) && 0.0 <= gainRatio <= 1.0
    ensures drawn == Order(accounts, Balances(accounts), amount, age, gainRatio, target).drawn
    ensures after == WithBalances(accounts, Order(accounts, Balances(accounts), amount, age, gainRatio, target).left)
    ensures PositiveDraw(drawn) && drawn.total == Min(Pos(amount), Worth(accounts))
    ensures Worth(after) == Worth(accounts) - drawn.total && Solvent(after) && OnePerType(after)
  {
    hide Order;
    var balances := new real[|accounts|](i requires 0 <= i < |accounts| => accounts[i].balance);
    assert balances[..] == Balances(accounts);
    OrderFromAccounts(accounts, amount, age, gainRatio, target);
    drawn := ApplyWithdrawalOrder(accounts, balances, amount, age, gainRatio, target);
    after := WithBalances(accounts, balances[..]);
  }

  /**
   * Fund what wages do not cover. Every pass re-converges the tax its own draw
   * creates: the loop never overdraws, and ends with the year funded, the
   * portfolio drained, or fifty passes done and the gap at most (4/5)^50 of
   * where it started. A year that drew for a shortfall contributes nothing.
   */
  method FundShortfall(ctx: WorkingContext, accounts: seq<Account>, forced: real)
    returns (d: Draws, flow: CashFlow, after: seq<Account>, ghost passes: nat)
    requires ctx.Valid() && Solvent(accounts) && OnePerType(accounts) && 0.0 <= forced
    ensures passes == PassesFrom(ctx, accounts, forced, 0) && Funding(d, after) == FundedYear(ctx, accounts, forced)
    ensures d.Valid() && flow == FlowAfter(ctx, d) && Solvent(after) && OnePerType(after)
    ensures forced <= d.traditional
    ensures Worth(after) == Worth(accounts) - (d.Sum() - forced) - Dust(ctx, accounts, forced)
    ensures passes == 0 ==> d == Draws(0.0, forced, 0.0, 0.0, 0.0)
    ensures passes > 0 ==> Gap(ctx, Draws(0.0, forced, 0.0, 0.0, 0.0)) > SHORTFALL_TOLERANCE && 0.0 <= Gap(ctx, d)
    ensures passes > 0 ==> d.Sum() - forced > SHORTFALL_TOLERANCE
    ensures || Gap(ctx, d) <= SHORTFALL_TOLERANCE
            || Worth(after) == 0.0
            || (passes == SHORTFALL_PASSES
                && Gap(ctx, d) <= Decayed(Gap(ctx, Draws(0.0, forced, 0.0, 0.0, 0.0)), SHORTFALL_PASSES))
    ensures Gap(ctx, d) >= 0.0 ==> flow.tax.hsaContribution == 0.0 == flow.tax.k401Contribution && flow.roth == 0.0 == flow.taxable
  {
    hide Gap;
    hide Remaining;
    hide SettledCashFlow;
    hide OtherIncome;
    hide Gains;
    hide SpendingWith;
    hide Order;
    hide WithBalances;
    hide Worth;
    hide PenaltiesOn;
    hide TargetNow;
    hide Solvent;
    hide OnePerType;
    hide Times;
    hide Decayed;
    d := Draws(0.0, forced, 0.0, 0.0, 0.0);
    after := accounts;
    passes := 0;
    flow := CalculateWorkingCashFlow(ctx, SpendingWith(ctx, d), OtherIncome(ctx, d), Gains(ctx, d));
    for pass := 0 to SHORTFALL_PASSES
      invariant passes == pass && d.Valid() && Solvent(after) && OnePerType(after)
      invariant flow == FlowAfter(ctx, d)
      invariant Funding(d, after) == AfterDraws(ctx, accounts, forced, pass)
      invariant PassesFrom(ctx, accounts, forced, 0) == PassesFrom(ctx, accounts, forced, pass)
    {
      var remaining := RemainingNow(ctx, d, flow);
      if remaining <= SHORTFALL_TOLERANCE {
        break;
      }
      DrawOnceEffect(ctx, Funding(d, after));
      var drawn, left := WithdrawInOrder(after, remaining, ctx.age, ctx.taxableGainRatio, TargetNow(ctx, d));
      after := left;
      if drawn.total <= SHORTFALL_TOLERANCE {
        break;
      }
      d := AfterDraw(d, drawn, ctx.age);
      flow := CalculateWorkingCashFlow(ctx, SpendingWith(ctx, d), OtherIncome(ctx, d), Gains(ctx, d));
      passes := pass + 1;
    }
    YearEnds(ctx, accounts, forced);
    RemainingIsGap(ctx, d);
  }

  /** The expression at the top of each pass. */
  method RemainingNow(ctx: WorkingContext, d: Draws, flow: CashFlow) returns (remaining: real)
    requires ctx.Valid() && flow == FlowAfter(ctx, d)
    ensures remaining == Remaining(ctx, d)
  {
    remaining := Pos(Times(-flow.netCashFlow, ctx.periodFraction) - (d.taxable + d.roth));
  }
}
