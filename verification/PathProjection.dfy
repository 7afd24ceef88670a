// One path from the as-of date to life expectancy: working years, then retired
// ones, over one set of buckets, one basis ledger and one HSA allowance.
module PathProjection {
  import BracketTables
  import opened Buckets
  import opened Domain
  import opened IncomeTax
  import opened Options
  import opened Reals
  import opened RetirementSolve
  import RothConversion
  import opened RothLedger
  import TaxTables
  import opened WithdrawalOrder
  import opened WorkingYear

  const ANNUAL_PORTFOLIO_FEE := 0.001

  /** What does not change from year to year. */
  datatype Plan = Plan(
    filingStatus: FilingStatus,
    state: State,
    retirementAge: nat,
    rmdStartAge: nat,
    taxableGainRatio: real,
    hsaEligible: bool,
    useBackdoorRoth: bool,
    conversionEnabled: bool,
    conversionCeiling: RothConversion.Ceiling,
    magiTarget: Option<MagiTarget>)
  {
    predicate Valid() {
      0.0 <= taxableGainRatio <= 1.0
    }
  }

  /**
   * What one modeled year brings: its returns and frozen-threshold scale, the
   * share of it that is modeled, and the amounts other models supply.
   */
  datatype YearInput = YearInput(
    frozenScale: real,
    stockReturn: real,
    bondReturn: real,
    periodFraction: real,
    requiredDistribution: real,
    salary: real,
    workingSpending: real,
    socialSecurityBenefit: real,
    retirementSpending: real,
    qualifiedCare: real)
  {
    predicate Valid() {
      && 0.0 < frozenScale <= 1.0 && 0.0 < periodFraction <= 1.0
      && 0.0 <= requiredDistribution && 0.0 <= salary && 0.0 <= workingSpending
      && 0.0 <= socialSecurityBenefit && 0.0 <= retirementSpending && 0.0 <= qualifiedCare
    }
  }

  /** The cash-flow row a year reports. */
  datatype Row = Row(
    income: real,
    spending: real,
    taxes: real,
    savings: real,
    withdrawalTaxable: real,
    withdrawalTraditional: real,
    withdrawalRoth: real,
    withdrawalHsa: real,
    rothConversion: real,
    depositTaxable: real,
    depositTraditional: real,
    depositRoth: real,
    depositHsa: real,
    retired: bool,
    insufficientFunds: bool)
  {
    function Withdrawals(): real {
      withdrawalTaxable + withdrawalTraditional + withdrawalRoth + withdrawalHsa
    }

    function Deposits(): real {
      depositTaxable + depositTraditional + depositRoth + depositHsa
    }

    /** Money in less money out, as the row reports it. */
    function Imbalance(): real {
      income + Withdrawals() - taxes - spending - Deposits()
    }

    /**
     * Savings is deposits less withdrawals, a conversion moves only its tax, and
     * the row balances: exactly while working, within a dollar once retired and
     * exactly again in a retired year with a surplus to deposit,
     * and in an unfunded retired year exactly too, short only of what no spending
     * was left to absorb.
     */
    predicate Reconciles() {
      && savings == Deposits() - Withdrawals()
      && (!retired ==> Imbalance() == 0.0)
      && (retired && !insufficientFunds ==> -1.0 <= Imbalance() <= 1.0)
      && (retired && !insufficientFunds && Deposits() > 0.0 ==> Imbalance() == 0.0)
      && (retired && insufficientFunds ==> Imbalance() == Min(0.0, Imbalance() + spending))
    }
  }

  /** Everything a path carries from one year into the next. */
  datatype PathState = PathState(accounts: seq<Account>, ledger: Ledger, hsaQualifiedAllowance: real) {
    /** Every year starts and ends with one bucket per type, nothing below zero, and a consistent ledger. */
    predicate Valid(taxYear: int) {
      OnePerType(accounts) && Solvent(accounts) && 0.0 <= hsaQualifiedAllowance && Reachable(ledger, taxYear)
    }
  }

  /** A year's row, what the market added, and what left the accounts without being recorded. */
  datatype YearResult = YearResult(next: PathState, row: Row, gain: real, lost: real)

  // ---- The market --------------------------------------------------------------

  /** One account after a year's return and the portfolio fee, floored at zero. */
  function Grown(a: Account, y: YearInput): Account {
    var accountReturn := Times(a.assetWeights.stocks, y.stockReturn) + Times(a.assetWeights.bonds, y.bondReturn)
                         - ANNUAL_PORTFOLIO_FEE;
    a.(balance := Pos(Times(a.balance, 1.0 + Times(accountReturn, y.periodFraction))))
  }

  function GrownAll(accounts: seq<Account>, y: YearInput): seq<Account> {
    seq(|accounts|, i requires 0 <= i < |accounts| => Grown(accounts[i], y))
  }

  lemma GrownKeeps(accounts: seq<Account>, y: YearInput)
    requires OnePerType(accounts)
    ensures OnePerType(GrownAll(accounts, y)) && Solvent(GrownAll(accounts, y))
  {
    hide Times;
  }

  method ApplyMarket(accounts: seq<Account>, y: YearInput) returns (after: seq<Account>, gain: real)
    ensures after == GrownAll(accounts, y) && gain == Worth(after) - Worth(accounts)
  {
    hide Grown;
    hide Worth;
    after := accounts;
    for i := 0 to |accounts|
      invariant |after| == |accounts|
      invariant forall j | 0 <= j < i :: after[j] == Grown(accounts[j], y)
      invariant forall j | i <= j < |accounts| :: after[j] == accounts[j]
    {
      after := after[i := Grown(after[i], y)];
    }
    gain := Worth(after) - Worth(accounts);
  }

  // ---- A working year as a function ----------------------------------------------

  function WorkingContextOf(plan: Plan, age: nat, taxYear: int, y: YearInput): WorkingContext {
    WorkingContext(y.salary, y.workingSpending, y.periodFraction, Household(plan.filingStatus, [age]), plan.state,
                   TaxYear(taxYear, y.frozenScale), plan.hsaEligible, plan.useBackdoorRoth, age, plan.taxableGainRatio,
                   plan.magiTarget)
  }

  function ForcedAmount(y: YearInput): real {
    Times(y.requiredDistribution, y.periodFraction)
  }

  function ForcedLeg(accounts: seq<Account>, y: YearInput): (leg: Leg)
    ensures |leg.left| == |accounts|
  {
    DrawLeg(accounts, Balances(accounts), Traditional, ForcedAmount(y))
  }

  function AfterForced(accounts: seq<Account>, y: YearInput): seq<Account> {
    WithBalances(accounts, ForcedLeg(accounts, y).left)
  }

  /** What a year puts into each bucket. */
  datatype Placement = Placement(hsa: real, traditional: real, roth: real, taxable: real)

  function Placed(flow: CashFlow, f: real): Placement {
    Placement(Pos(Times(f, flow.tax.hsaContribution)), Pos(Times(f, flow.tax.k401Contribution)),
              Pos(Times(f, flow.roth)), Pos(Times(f, flow.taxable)))
  }

  function DepositAll(accounts: seq<Account>, p: Placement): seq<Account> {
    Deposit(Deposit(Deposit(Deposit(accounts, Hsa, p.hsa), Traditional, p.traditional), Roth, p.roth), Taxable, p.taxable)
  }

  function WorkRow(ctx: WorkingContext, d: Draws, totalTax: real, unfunded: real, p: Placement): Row {
    var f := ctx.periodFraction;
    Row(Times(f, ctx.grossIncome), Times(f, ctx.annualSpending) - unfunded, Times(f, totalTax) + d.penalties,
        p.taxable + p.traditional + p.roth + p.hsa - d.taxable - d.traditional - d.roth - d.hsa,
        d.taxable, d.traditional, d.roth, d.hsa, 0.0,
        p.taxable, p.traditional, p.roth, p.hsa, false, unfunded > SHORTFALL_TOLERANCE)
  }

  /** Market, forced distribution, tax and contributions, and whatever the portfolio has to cover. */
  function WorkingYearOf(plan: Plan, age: nat, taxYear: int, y: YearInput, s: PathState): YearResult
    requires plan.Valid() && y.Valid()
  {
    var ctx := WorkingContextOf(plan, age, taxYear, y);
    var grown := GrownAll(s.accounts, y);
    var forced := ForcedLeg(grown, y).drawn;
    var funded := FundedYear(ctx, AfterForced(grown, y), forced);
    var flow := FlowAfter(ctx, funded.d);
    var p := Placed(flow, y.periodFraction);
    YearResult(PathState(DepositAll(funded.accounts, p),
                         WorkingLedger(StartYear(s.ledger, age, taxYear), funded.d.roth, p.roth),
                         s.hsaQualifiedAllowance),
               WorkRow(ctx, funded.d, flow.tax.totalTax, Remaining(ctx, funded.d), p),
               Worth(grown) - Worth(s.accounts),
               Dust(ctx, AfterForced(grown, y), forced))
  }

  lemma WorkRowReconciles(ctx: WorkingContext, d: Draws, totalTax: real, unfunded: real, p: Placement)
    requires Times(ctx.periodFraction, ctx.grossIncome) + d.Sum()
             == Times(ctx.periodFraction, totalTax) + d.penalties + Times(ctx.periodFraction, ctx.annualSpending) - unfunded
                + (p.hsa + p.traditional + p.roth + p.taxable)
    ensures var row := WorkRow(ctx, d, totalTax, unfunded, p);
            && row.Reconciles() && !row.retired && row.savings == row.Deposits() - d.Sum()
            && row.Deposits() == p.hsa + p.traditional + p.roth + p.taxable
            && row.insufficientFunds == (unfunded > SHORTFALL_TOLERANCE)
  {
    hide Times;
  }

  lemma ForcedKeeps(accounts: seq<Account>, y: YearInput)
    requires Solvent(accounts) && OnePerType(accounts)
    ensures var leg := ForcedLeg(accounts, y);
            var after := AfterForced(accounts, y);
            0.0 <= leg.drawn && Solvent(after) && OnePerType(after) && Worth(after) == Worth(accounts) - leg.drawn
  {
    hide DrawDown;
    hide Drawn;
    LegConserves(accounts, Balances(accounts), Traditional, ForcedAmount(y));
    WorthIsTotal(accounts);
    WithBalancesWorth(accounts, ForcedLeg(accounts, y).left);
  }

  lemma DepositsConserve(accounts: seq<Account>, p: Placement)
    requires Solvent(accounts) && OnePerType(accounts)
    requires 0.0 <= p.hsa && 0.0 <= p.traditional && 0.0 <= p.roth && 0.0 <= p.taxable
    ensures var after := DepositAll(accounts, p);
            && Solvent(after) && OnePerType(after)
            && Worth(after) == Worth(accounts) + (p.hsa + p.traditional + p.roth + p.taxable)
  {
    hide Deposit;
    hide Worth;
    hide Solvent;
    hide OnePerType;
    DepositConserves(accounts, Hsa, p.hsa);
    var one := Deposit(accounts, Hsa, p.hsa);
    DepositConserves(one, Traditional, p.traditional);
    var two := Deposit(one, Traditional, p.traditional);
    DepositConserves(two, Roth, p.roth);
    DepositConserves(Deposit(two, Roth, p.roth), Taxable, p.taxable);
  }

  lemma WorkingLedgerKeeps(l: Ledger, age: nat, taxYear: int, withdrawal: real, deposit: real)
    requires Reachable(l, taxYear) && 0.0 <= withdrawal && 0.0 <= deposit
    ensures Reachable(WorkingLedger(StartYear(l, age, taxYear), withdrawal, deposit), taxYear + 1)
  {
    YearKeeps(l, LedgerYear(age, false, withdrawal, deposit, false, 0.0), taxYear);
  }

  /** The year loses cents when, after some draws, it is short and all but empty. */
  predicate LosesCents(plan: Plan, age: nat, taxYear: int, y: YearInput, s: PathState)
    requires plan.Valid() && y.Valid()
  {
    && age < plan.retirementAge
    && RunsOutByCents(WorkingContextOf(plan, age, taxYear, y), AfterForced(GrownAll(s.accounts, y), y),
                      ForcedLeg(GrownAll(s.accounts, y), y).drawn)
  }

  /**
   * A working row reconciles exactly, short or not, and the accounts move by the
   * market and the reported savings, less what the last, unrecorded draw took.
   */
  lemma WorkingYearKeeps(plan: Plan, age: nat, taxYear: int, y: YearInput, s: PathState)
    requires plan.Valid() && y.Valid() && s.Valid(taxYear) && age < plan.retirementAge
    ensures var r := WorkingYearOf(plan, age, taxYear, y, s);
            && r.next.Valid(taxYear + 1)
            && Worth(r.next.accounts) == Worth(s.accounts) + r.gain + r.row.savings - r.lost
            && r.row.Reconciles() && !r.row.retired
            && 0.0 <= r.lost <= 1.0
            && (r.lost > 0.0 ==> r.row.insufficientFunds && r.row.Deposits() == 0.0)
            && (r.lost > 0.0 <==> LosesCents(plan, age, taxYear, y, s))
  {
    hide Gap;
    hide FlowAfter;
    hide Remaining;
    hide Worth;
    hide Reachable;
    hide Solvent;
    hide OnePerType;
    hide Decayed;
    hide ForcedLeg;
    hide AfterForced;
    hide DepositAll;
    hide WorkRow;
    hide FundedYear;
    hide Dust;
    hide RunsOutByCents;
    hide PassesFrom;
    hide AfterDraws;
    hide Row.Reconciles;
    hide Row.Deposits;
    hide WorkingLedger;
    hide StartYear;
    var ctx := WorkingContextOf(plan, age, taxYear, y);
    var grown := GrownAll(s.accounts, y);
    var forced := ForcedLeg(grown, y).drawn;
    var left := AfterForced(grown, y);
    GrownKeeps(s.accounts, y);
    ForcedKeeps(grown, y);
    YearEnds(ctx, left, forced);
    DustExactlyWhenRunningOut(ctx, left, forced);
    WorkingRowKeeps(ctx, left, forced);
    var funded := FundedYear(ctx, left, forced);
    var p := Placed(FlowAfter(ctx, funded.d), y.periodFraction);
    hide Placed;
    DepositsConserve(funded.accounts, p);
    WorkingLedgerKeeps(s.ledger, age, taxYear, funded.d.roth, p.roth);
  }

  /** The row of a year that ends as `FundedYear` says. */
  lemma WorkingRowKeeps(ctx: WorkingContext, left: seq<Account>, forced: real)
    requires ctx.Valid() && Solvent(left) && OnePerType(left) && 0.0 <= forced
    ensures var d := FundedYear(ctx, left, forced).d;
            var flow := FlowAfter(ctx, d);
            var p := Placed(flow, ctx.periodFraction);
            var row := WorkRow(ctx, d, flow.tax.totalTax, Remaining(ctx, d), p);
            && row.Reconciles() && !row.retired && row.savings == row.Deposits() - d.Sum()
            && row.Deposits() == p.hsa + p.traditional + p.roth + p.taxable
            && 0.0 <= p.hsa && 0.0 <= p.traditional && 0.0 <= p.roth && 0.0 <= p.taxable
            && (Dust(ctx, left, forced) > 0.0 ==> row.insufficientFunds && row.Deposits() == 0.0)
  {
    hide Gap;
    hide FlowAfter;
    hide Remaining;
    hide Worth;
    hide Solvent;
    hide OnePerType;
    hide Decayed;
    hide Dust;
    hide WorkRow;
    hide Row.Reconciles;
    hide Row.Deposits;
    hide Times;
    YearEnds(ctx, left, forced);
    NothingDrawnYet(ctx, left, forced);
    hide FundedYear;
    hide AfterDraws;
    var d := FundedYear(ctx, left, forced).d;
    var flow := FlowAfter(ctx, d);
    WorkRowBalances(ctx, d, flow, forced, PassesFrom(ctx, left, forced, 0));
    WorkRowReconciles(ctx, d, flow.tax.totalTax, Remaining(ctx, d), Placed(flow, ctx.periodFraction));
    hide PassesFrom;
  }

  lemma NothingDrawnYet(ctx: WorkingContext, left: seq<Account>, forced: real)
    requires ctx.Valid()
    ensures PassesFrom(ctx, left, forced, 0) == 0 ==> FundedYear(ctx, left, forced).d == Draws(0.0, forced, 0.0, 0.0, 0.0)
  {
    hide DrawOnce;
    hide Short;
    hide KeepsDrawing;
  }

  /** A working row reconciles exactly: by its gap when it is short, by its residual when it is not. */
  lemma WorkRowBalances(ctx: WorkingContext, d: Draws, flow: CashFlow, forced: real, passes: nat)
    requires ctx.Valid() && d.Valid() && flow == FlowAfter(ctx, d)
    requires passes == 0 ==> d == Draws(0.0, forced, 0.0, 0.0, 0.0)
    requires passes > 0 ==> 0.0 <= Gap(ctx, d)
    ensures var f := ctx.periodFraction;
            var unfunded := Remaining(ctx, d);
            var deposits := Times(f, flow.tax.hsaContribution) + Times(f, flow.tax.k401Contribution)
                            + Times(f, flow.roth) + Times(f, flow.taxable);
            && Times(f, ctx.grossIncome) + d.Sum()
               == Times(f, flow.tax.totalTax) + d.penalties + Times(f, ctx.annualSpending) - unfunded + deposits
            && 0.0 <= Times(f, flow.tax.hsaContribution) && 0.0 <= Times(f, flow.tax.k401Contribution)
            && 0.0 <= Times(f, flow.roth) && 0.0 <= Times(f, flow.taxable)
            && (unfunded > 0.0 ==> deposits == 0.0)
            && unfunded == Pos(Gap(ctx, d))
  {
    hide Times;
    hide WorkingTax;
    hide SettledCashFlow;
    hide Remaining;
    var f := ctx.periodFraction;
    RemainingIsGap(ctx, d);
    DrawsAreIncome(ctx, d);
    TimesZero(f);
    if Gap(ctx, d) >= 0.0 {
      var tax := WorkingTax(ctx, OtherIncome(ctx, d), Gains(ctx, d), 0.0, 0.0);
      TimesSum(f, ctx.annualSpending - ctx.grossIncome, tax);
      TimesDiff(f, ctx.annualSpending, ctx.grossIncome);
    } else {
      ResidualBalances(ctx, d, flow);
    }
  }

  /** A year with cash to spare places all of it. */
  lemma ResidualBalances(ctx: WorkingContext, d: Draws, flow: CashFlow)
    requires ctx.Valid() && d.Valid() && flow == FlowAfter(ctx, d) && Gap(ctx, d) < 0.0
    requires d == Draws(0.0, d.traditional, 0.0, 0.0, 0.0)
    ensures var f := ctx.periodFraction;
            && Times(f, ctx.grossIncome) + d.traditional
               == Times(f, flow.tax.totalTax) + Times(f, ctx.annualSpending)
                  + Times(f, flow.tax.hsaContribution) + Times(f, flow.tax.k401Contribution)
                  + Times(f, flow.roth) + Times(f, flow.taxable)
            && 0.0 <= Times(f, flow.tax.hsaContribution) && 0.0 <= Times(f, flow.tax.k401Contribution)
            && 0.0 <= Times(f, flow.roth) && 0.0 <= Times(f, flow.taxable)
  {
    hide Times;
    hide WorkingTax;
    hide SettledCashFlow;
    var f := ctx.periodFraction;
    var o := OtherIncome(ctx, d);
    DrawsAreIncome(ctx, d);
    GapIsUncommitted(ctx, d);
    ContributionsNeverCreateShortfall(ctx, SpendingWith(ctx, d), o, Gains(ctx, d));
    var left := Uncommitted(ctx, SpendingWith(ctx, d), o, Gains(ctx, d));
    TimesZero(f);
    if left < 0.0 {
      TimesMono(f, 0.0, -left);
    }
    Undivided(0.0, f);
    Undivided(d.traditional, f);
    PenaltyFree(ctx, d);
    TimesMono(f, 0.0, flow.tax.hsaContribution);
    TimesMono(f, 0.0, flow.tax.k401Contribution);
    TimesMono(f, 0.0, flow.roth);
    TimesMono(f, 0.0, flow.taxable);
    SixWays(f, ctx.grossIncome, o, flow.tax.totalTax, ctx.annualSpending, flow.tax.hsaContribution,
            flow.tax.k401Contribution, flow.roth, flow.taxable);
  }

  lemma PenaltyFree(ctx: WorkingContext, d: Draws)
    requires ctx.Valid() && d.penalties == 0.0
    ensures SpendingWith(ctx, d) == ctx.annualSpending
  {
  }

  lemma SixWays(f: real, gross: real, other: real, tax: real, spending: real, hsa: real, k401: real, roth: real, taxable: real)
    requires gross + other == tax + spending + hsa + k401 + roth + taxable
    ensures Times(f, gross) + Times(f, other)
         == Times(f, tax) + Times(f, spending) + Times(f, hsa) + Times(f, k401) + Times(f, roth) + Times(f, taxable)
  {
    hide Times;
    TimesSum(f, gross, other);
    TimesSum(f, tax, spending);
    TimesSum(f, tax + spending, hsa);
    TimesSum(f, tax + spending + hsa, k401);
    TimesSum(f, tax + spending + hsa + k401, roth);
    TimesSum(f, tax + spending + hsa + k401 + roth, taxable);
  }

  // ---- A retired year as a function ----------------------------------------------

  /** Whatever an evaluation withdraws is exactly what its balances lost. */
  lemma EvaluationConserves(accounts: seq<Account>, ledger: Ledger, budget: real, ctx: WithdrawalContext)
    requires Solvent(accounts) && ctx.Valid()
    ensures var e := Evaluate(accounts, ledger, budget, ctx);
            && Total(e.balances) == Worth(accounts) - e.totalWithdrawn && NonNegative(e.balances)
            && e.cash == ctx.socialSecurityBenefit + e.totalWithdrawn - e.totalTaxes
            && e.totalWithdrawn == e.withdrawalTaxable + e.withdrawalTraditional + e.withdrawalRoth + e.withdrawalHsa
            && 0.0 <= e.withdrawalTaxable && 0.0 <= e.withdrawalTraditional
            && 0.0 <= e.withdrawalRoth && 0.0 <= e.withdrawalHsa
            && 0.0 <= e.hsaQualifiedUsed <= ctx.hsaQualifiedAllowance
  {
    hide Order;
    hide Forced;
    hide Total;
    hide NonNegative;
    hide RetirementTax;
    hide ConversionPenalty;
    ForcedLeaves(accounts, ctx);
    WorthIsTotal(accounts);
    var forced := Forced(accounts, ctx);
    var target := TargetAt(ctx, forced.drawn);
    OrderConserves(accounts, forced.left, budget, ctx.age, ctx.taxableGainRatio, target);
    VoluntaryDraws(accounts, budget, budget, ctx);
    TotalOfLegs(accounts, budget, ctx);
  }

  /** Moving a settled conversion between buckets costs the portfolio exactly its tax. */
  lemma ConversionCostsItsTax(accounts: seq<Account>, c: RothConversion.Conversion)
    requires OnePerType(accounts) && Solvent(accounts)
    requires 0.0 <= c.converted <= BalanceOf(accounts, Traditional)
    requires 0.0 <= c.fromTaxable <= BalanceOf(accounts, Taxable)
    requires 0.0 <= c.withheld <= c.converted && c.tax == c.fromTaxable + c.withheld
    ensures var after := Converted(accounts, c);
            Worth(after) == Worth(accounts) - c.tax && OnePerType(after) && Solvent(after)
  {
    hide Draw;
    hide Deposit;
    hide DrawnFrom;
    hide Worth;
    hide BalanceOf;
    hide Solvent;
    hide OnePerType;
    DrawConserves(accounts, Traditional, c.converted);
    var drawn := Draw(accounts, Traditional, c.converted);
    DrawConserves(drawn, Taxable, c.fromTaxable);
    DepositConserves(Draw(drawn, Taxable, c.fromTaxable), Roth, c.converted - c.withheld);
  }

  function Converted(accounts: seq<Account>, c: RothConversion.Conversion): seq<Account> {
    Deposit(Draw(Draw(accounts, Traditional, c.converted), Taxable, c.fromTaxable), Roth, c.converted - c.withheld)
  }

  lemma {:induction false} BalanceNonNegative(accounts: seq<Account>, ty: AccountType)
    requires Solvent(accounts)
    ensures 0.0 <= BalanceOf(accounts, ty)
  {
    PoolNonNegative(accounts, ty);
  }

  function RetiredContextOf(plan: Plan, age: nat, taxYear: int, y: YearInput, s: PathState): WithdrawalContext {
    WithdrawalContext(Household(plan.filingStatus, [age]), plan.state, TaxYear(taxYear, y.frozenScale), age,
                      y.socialSecurityBenefit, ForcedAmount(y), plan.taxableGainRatio,
                      s.hsaQualifiedAllowance + y.qualifiedCare, plan.magiTarget)
  }

  /** The solver's answer for the year, from the accounts as the market left them. */
  function EvaluationOf(plan: Plan, age: nat, taxYear: int, y: YearInput, s: PathState): (e: Evaluation)
    ensures |e.balances| == |s.accounts|
  {
    var grown := GrownAll(s.accounts, y);
    var ctx := RetiredContextOf(plan, age, taxYear, y, s);
    var ledger := StartYear(s.ledger, age, taxYear);
    Evaluate(grown, ledger, BudgetFor(grown, ledger, y.retirementSpending, ctx), ctx)
  }

  function ConversionInputOf(plan: Plan, age: nat, taxYear: int, y: YearInput, r: WithdrawalResult, held: seq<Account>):
      RothConversion.ConversionInput {
    RothConversion.ConversionInput(
      plan.conversionEnabled, plan.conversionCeiling, r.withdrawalTraditional, y.socialSecurityBenefit,
      Times(r.withdrawalTaxable, plan.taxableGainRatio), r.withdrawalTaxable, plan.taxableGainRatio,
      Household(plan.filingStatus, [age]), plan.state, TaxYear(taxYear, y.frozenScale),
      BalanceOf(held, Traditional), BalanceOf(held, Taxable))
  }

  /** Only a funded year before required distributions looks for a conversion. */
  function ConversionOf(plan: Plan, age: nat, taxYear: int, y: YearInput, r: WithdrawalResult, held: seq<Account>):
      RothConversion.Conversion {
    if age < plan.rmdStartAge && !r.insufficientFunds
    then RothConversion.ConversionFor(ConversionInputOf(plan, age, taxYear, y, r, held))
    else RothConversion.NO_CONVERSION
  }

  function AfterConversion(held: seq<Account>, c: RothConversion.Conversion): seq<Account> {
    if c.converted > 0.0 then Converted(held, c) else held
  }

  function LedgerAfter(drawn: Ledger, taxYear: int, c: RothConversion.Conversion): Ledger {
    if c.converted > 0.0 then Convert(drawn, taxYear, c.converted - c.withheld) else drawn
  }

  function RetiredRow(y: YearInput, r: WithdrawalResult, c: RothConversion.Conversion): Row {
    var taxes := r.totalTaxes + c.tax;
    var spending := if r.insufficientFunds then Pos(r.totalWithdrawn - taxes - r.depositTaxable + y.socialSecurityBenefit)
                    else y.retirementSpending;
    Row(y.socialSecurityBenefit, spending, taxes, r.depositTaxable - r.totalWithdrawn - c.fromTaxable - c.withheld,
        r.withdrawalTaxable + c.fromTaxable, r.withdrawalTraditional + c.withheld, r.withdrawalRoth,
        r.withdrawalHsa, c.converted - c.withheld, r.depositTaxable, 0.0, 0.0, 0.0, true, r.insufficientFunds)
  }

  /** Market, the solver, the surplus reinvested, and then a conversion of what the year did not need. */
  function RetiredYearOf(plan: Plan, age: nat, taxYear: int, y: YearInput, s: PathState): YearResult {
    var e := EvaluationOf(plan, age, taxYear, y, s);
    var r := Finish(e, y.retirementSpending);
    var grown := GrownAll(s.accounts, y);
    var held := Deposit(WithBalances(grown, e.balances), Taxable, r.depositTaxable);
    var c := ConversionOf(plan, age, taxYear, y, r, held);
    YearResult(PathState(AfterConversion(held, c),
                         LedgerAfter(Withdraw(StartYear(s.ledger, age, taxYear), r.withdrawalRoth), taxYear, c),
                         s.hsaQualifiedAllowance + y.qualifiedCare - r.hsaQualifiedUsed),
               RetiredRow(y, r, c), Worth(grown) - Worth(s.accounts), 0.0)
  }

  lemma ContextIsValid(plan: Plan, age: nat, taxYear: int, y: YearInput, s: PathState)
    requires plan.Valid() && y.Valid() && 0.0 <= s.hsaQualifiedAllowance
    ensures RetiredContextOf(plan, age, taxYear, y, s).Valid()
  {
    TimesMono(y.requiredDistribution, 0.0, y.periodFraction);
    TimesZero(y.requiredDistribution);
  }

  lemma InputIsValid(plan: Plan, age: nat, taxYear: int, y: YearInput, r: WithdrawalResult, held: seq<Account>)
    requires plan.Valid() && y.Valid() && 0.0 <= r.withdrawalTraditional && 0.0 <= r.withdrawalTaxable
    ensures ConversionInputOf(plan, age, taxYear, y, r, held).Valid()
  {
    TimesShare(r.withdrawalTaxable, plan.taxableGainRatio);
  }

  /** A conversion costs the portfolio exactly its tax and leaves the ledger's newest lot. */
  lemma ConversionKeeps(plan: Plan, age: nat, taxYear: int, y: YearInput, r: WithdrawalResult, held: seq<Account>,
                        drawn: Ledger)
    requires plan.Valid() && y.Valid() && 0.0 <= r.withdrawalTraditional && 0.0 <= r.withdrawalTaxable
    requires OnePerType(held) && Solvent(held) && Reachable(drawn, taxYear) && OnTheClock(drawn, taxYear, taxYear)
    ensures var c := ConversionOf(plan, age, taxYear, y, r, held);
            var after := AfterConversion(held, c);
            && OnePerType(after) && Solvent(after) && Worth(after) == Worth(held) - c.tax
            && c.tax == c.fromTaxable + c.withheld
            && (r.insufficientFunds ==> c == RothConversion.NO_CONVERSION)
            && Reachable(LedgerAfter(drawn, taxYear, c), taxYear + 1)
  {
    hide RothConversion.ConversionFor;
    hide Reachable;
    hide BalanceOf;
    hide Worth;
    hide Converted;
    hide Convert;
    hide OnTheClock;
    StaysReachable(drawn, taxYear);
    if age < plan.rmdStartAge && !r.insufficientFunds {
      InputIsValid(plan, age, taxYear, y, r, held);
      BalanceNonNegative(held, Traditional);
      BalanceNonNegative(held, Taxable);
      RothConversion.ConversionIsPaid(ConversionInputOf(plan, age, taxYear, y, r, held));
      var c := ConversionOf(plan, age, taxYear, y, r, held);
      ConversionCostsItsTax(held, c);
      OpensLot(drawn, taxYear, c.converted - c.withheld);
    }
  }

  /**
   * A funded row reconciles within a dollar, the accounts move by the market
   * and the reported savings exactly, and nothing goes below zero.
   */
  lemma RetiredYearKeeps(plan: Plan, age: nat, taxYear: int, y: YearInput, s: PathState)
    requires plan.Valid() && y.Valid() && s.Valid(taxYear)
    ensures var r := RetiredYearOf(plan, age, taxYear, y, s);
            && r.next.Valid(taxYear + 1)
            && Worth(r.next.accounts) == Worth(s.accounts) + r.gain + r.row.savings
            && r.row.Reconciles() && r.row.retired && r.lost == 0.0
            && r.next.hsaQualifiedAllowance == Pos(s.hsaQualifiedAllowance + y.qualifiedCare - r.row.withdrawalHsa)
  {
    hide Evaluate;
    hide BudgetFor;
    hide Worth;
    hide Reachable;
    hide Consistent;
    hide Total;
    hide Solvent;
    hide OnePerType;
    hide NonNegative;
    hide Deposit;
    hide ConversionOf;
    hide AfterConversion;
    hide LedgerAfter;
    hide Withdraw;
    hide StartYear;
    hide OnTheClock;
    hide GrownAll;
    var grown := GrownAll(s.accounts, y);
    var ctx := RetiredContextOf(plan, age, taxYear, y, s);
    var ledger := StartYear(s.ledger, age, taxYear);
    var budget := BudgetFor(grown, ledger, y.retirementSpending, ctx);
    var e := EvaluationOf(plan, age, taxYear, y, s);
    var r := Finish(e, y.retirementSpending);
    GrownKeeps(s.accounts, y);
    ContextIsValid(plan, age, taxYear, y, s);
    assert ctx.hsaQualifiedAllowance == s.hsaQualifiedAllowance + y.qualifiedCare;
    hide RetiredContextOf;
    EvaluationConserves(grown, ledger, budget, ctx);
    QualifiedUse(grown, ledger, budget, ctx);
    WithBalancesWorth(grown, e.balances);
    hide WithBalances;
    var left := WithBalances(grown, e.balances);
    DepositConserves(left, Taxable, r.depositTaxable);
    OpenedYear(s.ledger, age, taxYear);
    DrawnLedger(ledger, r.withdrawalRoth, taxYear);
    ConversionKeeps(plan, age, taxYear, y, r, Deposit(left, Taxable, r.depositTaxable), Withdraw(ledger, r.withdrawalRoth));
  }

  lemma OpenedYear(l: Ledger, age: nat, taxYear: int)
    requires Reachable(l, taxYear)
    ensures Reachable(StartYear(l, age, taxYear), taxYear) && OnTheClock(StartYear(l, age, taxYear), taxYear, taxYear)
  {
    OpenedKeeps(l, LedgerYear(age, false, 0.0, 0.0, false, 0.0), taxYear);
  }

  lemma ReachableIsConsistent(l: Ledger, taxYear: int)
    requires Reachable(l, taxYear)
    ensures Consistent(l)
  {
  }

  lemma StaysReachable(l: Ledger, taxYear: int)
    requires Reachable(l, taxYear)
    ensures Reachable(l, taxYear + 1)
  {
  }

  lemma DrawnLedger(l: Ledger, withdrawal: real, taxYear: int)
    requires Reachable(l, taxYear) && OnTheClock(l, taxYear, taxYear)
    ensures Reachable(Withdraw(l, withdrawal), taxYear) && OnTheClock(Withdraw(l, withdrawal), taxYear, taxYear)
  {
    WithdrawKeeps(l, withdrawal, taxYear, taxYear);
    ConsumeStaysOpen(l, withdrawal);
  }

  lemma OpensLot(l: Ledger, taxYear: int, principal: real)
    requires Reachable(l, taxYear) && OnTheClock(l, taxYear, taxYear) && 0.0 <= principal
    ensures Reachable(Convert(l, taxYear, principal), taxYear + 1)
  {
    ConvertKeeps(l, taxYear, principal);
  }

  // ---- The path as a function ----------------------------------------------------

  function YearOf(plan: Plan, age: nat, taxYear: int, y: YearInput, s: PathState): YearResult
    requires plan.Valid() && y.Valid()
  {
    if age < plan.retirementAge then WorkingYearOf(plan, age, taxYear, y, s) else RetiredYearOf(plan, age, taxYear, y, s)
  }

  predicate AllValid(inputs: seq<YearInput>) {
    forall i | 0 <= i < |inputs| :: inputs[i].Valid()
  }

  /** The state a path is in after `i` of its years. */
  function StateAt(plan: Plan, startAge: nat, startYear: int, inputs: seq<YearInput>, s: PathState, i: nat): PathState
    requires plan.Valid() && AllValid(inputs) && i <= |inputs|
    decreases i, 0
  {
    if i == 0 then s else YearAt(plan, startAge, startYear, inputs, s, i - 1).next
  }

  function YearAt(plan: Plan, startAge: nat, startYear: int, inputs: seq<YearInput>, s: PathState, i: nat): YearResult
    requires plan.Valid() && AllValid(inputs) && i < |inputs|
    decreases i, 1
  {
    YearOf(plan, startAge + i, startYear + i, inputs[i], StateAt(plan, startAge, startYear, inputs, s, i))
  }

  /** What a path's first years add up to. */
  datatype Totals = Totals(gains: real, savings: real, lost: real)

  function TotalsAt(plan: Plan, startAge: nat, startYear: int, inputs: seq<YearInput>, s: PathState, i: nat): Totals
    requires plan.Valid() && AllValid(inputs) && i <= |inputs|
  {
    if i == 0 then Totals(0.0, 0.0, 0.0)
    else
      var t := TotalsAt(plan, startAge, startYear, inputs, s, i - 1);
      var r := YearAt(plan, startAge, startYear, inputs, s, i - 1);
      Totals(t.gains + r.gain, t.savings + r.row.savings, t.lost + r.lost)
  }

  lemma YearOfKeeps(plan: Plan, age: nat, taxYear: int, y: YearInput, s: PathState)
    requires plan.Valid() && y.Valid() && s.Valid(taxYear)
    ensures var r := YearOf(plan, age, taxYear, y, s);
            && r.next.Valid(taxYear + 1)
            && Worth(r.next.accounts) == Worth(s.accounts) + r.gain + r.row.savings - r.lost
            && r.row.Reconciles() && r.row.retired == (age >= plan.retirementAge)
            && 0.0 <= r.lost <= 1.0
            && (r.lost > 0.0 ==> r.row.insufficientFunds)
            && (r.lost > 0.0 <==> LosesCents(plan, age, taxYear, y, s))
  {
    if age < plan.retirementAge {
      WorkingYearKeeps(plan, age, taxYear, y, s);
    } else {
      RetiredYearKeeps(plan, age, taxYear, y, s);
    }
    hide WorkingYearOf;
    hide RetiredYearOf;
    hide RunsOutByCents;
    hide Worth;
    hide Row.Reconciles;
    hide PathState.Valid;
  }

  /** Every year of every path starts in a valid state, and wealth is accounted for up to what was lost. */
  lemma {:induction false} PathKeeps(plan: Plan, startAge: nat, startYear: int, inputs: seq<YearInput>, s: PathState, i: nat)
    requires plan.Valid() && AllValid(inputs) && s.Valid(startYear) && i <= |inputs|
    ensures var t := TotalsAt(plan, startAge, startYear, inputs, s, i);
            var now := StateAt(plan, startAge, startYear, inputs, s, i);
            && now.Valid(startYear + i)
            && Worth(now.accounts) == Worth(s.accounts) + t.gains + t.savings - t.lost
  {
    hide YearOf;
    hide Worth;
    hide PathState.Valid;
    hide LosesCents;
    if i > 0 {
      var n := i - 1;
      PathKeeps(plan, startAge, startYear, inputs, s, n);
      YearOfKeeps(plan, startAge + n, startYear + n, inputs[n], StateAt(plan, startAge, startYear, inputs, s, n));
    }
  }

  /** In none of a path's first `n` years do the accounts run out by cents. */
  predicate NoYearLoses(plan: Plan, startAge: nat, startYear: int, inputs: seq<YearInput>, s: PathState, n: nat)
    requires plan.Valid() && AllValid(inputs) && n <= |inputs|
  {
    forall i | 0 <= i < n :: LosesNothing(plan, startAge, startYear, inputs, s, i)
  }

  predicate LosesNothing(plan: Plan, startAge: nat, startYear: int, inputs: seq<YearInput>, s: PathState, i: nat)
    requires plan.Valid() && AllValid(inputs) && i < |inputs|
  {
    !LosesCents(plan, startAge + i, startYear + i, inputs[i], StateAt(plan, startAge, startYear, inputs, s, i))
  }

  /** A year of a path loses something exactly when its accounts run out by cents. */
  lemma YearLoses(plan: Plan, startAge: nat, startYear: int, inputs: seq<YearInput>, s: PathState, i: nat)
    requires plan.Valid() && AllValid(inputs) && s.Valid(startYear) && i < |inputs|
    ensures 0.0 <= YearAt(plan, startAge, startYear, inputs, s, i).lost
    ensures YearAt(plan, startAge, startYear, inputs, s, i).lost == 0.0 <==> LosesNothing(plan, startAge, startYear, inputs, s, i)
  {
    hide YearOf;
    hide LosesCents;
    hide PathState.Valid;
    PathKeeps(plan, startAge, startYear, inputs, s, i);
    YearOfKeeps(plan, startAge + i, startYear + i, inputs[i], StateAt(plan, startAge, startYear, inputs, s, i));
  }

  /** Losses are never negative, so they cancel nowhere. */
  lemma {:induction false} LossesAddUp(plan: Plan, startAge: nat, startYear: int, inputs: seq<YearInput>, s: PathState, i: nat)
    requires plan.Valid() && AllValid(inputs) && s.Valid(startYear) && i <= |inputs|
    ensures 0.0 <= TotalsAt(plan, startAge, startYear, inputs, s, i).lost
    ensures TotalsAt(plan, startAge, startYear, inputs, s, i).lost == 0.0 <==> NoYearLoses(plan, startAge, startYear, inputs, s, i)
  {
    hide YearAt;
    hide StateAt;
    hide PathState.Valid;
    hide LosesNothing;
    if i > 0 {
      var n := i - 1;
      LossesAddUp(plan, startAge, startYear, inputs, s, n);
      YearLoses(plan, startAge, startYear, inputs, s, n);
      assert NoYearLoses(plan, startAge, startYear, inputs, s, i)
        <==> NoYearLoses(plan, startAge, startYear, inputs, s, n) && LosesNothing(plan, startAge, startYear, inputs, s, n);
      hide NoYearLoses;
    }
  }

  /** Terminal wealth is what the path started with plus market gains plus reported savings. */
  ghost predicate WealthReconciles(plan: Plan, startAge: nat, startYear: int, inputs: seq<YearInput>, s: PathState)
    requires plan.Valid() && AllValid(inputs)
  {
    var t := TotalsAt(plan, startAge, startYear, inputs, s, |inputs|);
    Worth(StateAt(plan, startAge, startYear, inputs, s, |inputs|).accounts) == Worth(s.accounts) + t.gains + t.savings
  }

  /** A path's wealth reconciles exactly when in none of its working years the accounts run out by cents. */
  lemma WealthReconcilesExactly(plan: Plan, startAge: nat, startYear: int, inputs: seq<YearInput>, s: PathState)
    requires plan.Valid() && AllValid(inputs) && s.Valid(startYear)
    ensures WealthReconciles(plan, startAge, startYear, inputs, s) <==> NoYearLoses(plan, startAge, startYear, inputs, s, |inputs|)
  {
    hide Worth;
    hide LosesCents;
    hide PathState.Valid;
    hide StateAt;
    hide TotalsAt;
    PathKeeps(plan, startAge, startYear, inputs, s, |inputs|);
    LossesAddUp(plan, startAge, startYear, inputs, s, |inputs|);
  }

  /** Wealth reconciles for every portfolio, ledger and nonempty run of years. */
  ghost predicate AlwaysReconciles(plan: Plan, startAge: nat, startYear: int)
    requires plan.Valid()
  {
    forall inputs: seq<YearInput>, s: PathState | |inputs| > 0 && AllValid(inputs) && s.Valid(startYear) ::
      WealthReconciles(plan, startAge, startYear, inputs, s)
  }

  /** A plan's wealth reconciles whatever the market and the household bring exactly when it starts retired. */
  lemma ReconcilesExactlyWhenRetired(plan: Plan, startAge: nat, startYear: int)
    requires plan.Valid()
    ensures AlwaysReconciles(plan, startAge, startYear) <==> startAge >= plan.retirementAge
  {
    hide WealthReconciles;
    if startAge >= plan.retirementAge {
      forall inputs: seq<YearInput>, s: PathState | |inputs| > 0 && AllValid(inputs) && s.Valid(startYear)
        ensures WealthReconciles(plan, startAge, startYear, inputs, s)
      {
        hide PathState.Valid;
        hide StateAt;
        WealthReconcilesExactly(plan, startAge, startYear, inputs, s);
      }
    } else {
      FiftyCentsVanish(plan, startAge, startYear);
    }
  }

  // ---- Where wealth is not conserved exactly -----------------------------------------

  /** A plan's first state when it starts with fifty cents in cash, and nothing else. */
  function FiftyCents(plan: Plan): PathState {
    PathState([Account(Taxable, 0.5, AssetWeights(0.0, 1.0), false)],
              Ledger(plan.conversionEnabled && plan.retirementAge < TRADITIONAL_PENALTY_AGE, 0.0, [], 0.0), 0.0)
  }

  /** A year with no wages, a hundred dollars to spend, and bonds that return the fee. */
  function HundredToSpend(): YearInput {
    YearInput(1.0, 0.0, ANNUAL_PORTFOLIO_FEE, 1.0, 0.0, 0.0, 100.0, 0.0, 0.0, 0.0)
  }

  /**
   * Fifty cents, a hundred dollars to spend and no wages: whatever the plan, its
   * filing status, state and withdrawal settings, one working year takes the
   * fifty cents and reports that it saved and withdrew nothing.
   */
  lemma FiftyCentsVanish(plan: Plan, age: nat, taxYear: int)
    requires plan.Valid() && age < plan.retirementAge
    ensures var inputs := [HundredToSpend()];
            && AllValid(inputs) && FiftyCents(plan).Valid(taxYear) && Worth(FiftyCents(plan).accounts) == 0.5
            && LosesCents(plan, age, taxYear, HundredToSpend(), FiftyCents(plan))
            && LeavesWithoutTrace(WorkingYearOf(plan, age, taxYear, HundredToSpend(), FiftyCents(plan)))
            && !WealthReconciles(plan, age, taxYear, inputs, FiftyCents(plan))
  {
    hide LosesCents;
    hide LeavesWithoutTrace;
    hide WorkingYearOf;
    hide WealthReconciles;
    hide PathState.Valid;
    hide GrownAll;
    hide Worth;
    var y, s := HundredToSpend(), FiftyCents(plan);
    FiftyCentsHeld(plan, s, y, taxYear);
    FiftyCentsRunOut(plan, age, taxYear, y, s);
    FiftyCentsGone(plan, age, taxYear, y, s);
    hide HundredToSpend;
    hide FiftyCents;
    OneYearLoses(plan, age, taxYear, [y], s);
  }

  lemma FiftyCentsRunOut(plan: Plan, age: nat, taxYear: int, y: YearInput, s: PathState)
    requires plan.Valid() && age < plan.retirementAge && s == FiftyCents(plan) && y == HundredToSpend()
    ensures LosesCents(plan, age, taxYear, y, s)
  {
    FiftyCentsHeld(plan, s, y, taxYear);
    HundredShort(plan, age, taxYear, y);
    hide HundredToSpend;
    hide FiftyCents;
    hide Gap;
    hide GrownAll;
    hide ForcedLeg;
    hide AfterForced;
    hide Worth;
    hide PathState.Valid;
    var ctx := WorkingContextOf(plan, age, taxYear, y);
    var left := AfterForced(GrownAll(s.accounts, y), y);
    var start := AfterDraws(ctx, left, 0.0, 0);
    assert CentsLeft(ctx, start);
  }

  /** Nothing is left, and no gain, saving or withdrawal says where it went. */
  predicate LeavesWithoutTrace(r: YearResult) {
    Worth(r.next.accounts) == 0.0 && r.gain == 0.0 && r.row.savings == 0.0 && r.row.Withdrawals() == 0.0 && r.lost == 0.5
  }

  lemma FiftyCentsGone(plan: Plan, age: nat, taxYear: int, y: YearInput, s: PathState)
    requires plan.Valid() && age < plan.retirementAge && s == FiftyCents(plan) && y == HundredToSpend()
    ensures LeavesWithoutTrace(WorkingYearOf(plan, age, taxYear, y, s))
  {
    hide GrownAll;
    hide ForcedLeg;
    hide AfterForced;
    hide Worth;
    hide Gap;
    hide PathState.Valid;
    hide WorkingYearOf;
    hide LosesCents;
    hide FundedYear;
    hide Dust;
    FiftyCentsHeld(plan, s, y, taxYear);
    HundredShort(plan, age, taxYear, y);
    var ctx := WorkingContextOf(plan, age, taxYear, y);
    assert ctx.Valid();
    hide WorkingContextOf;
    hide HundredToSpend;
    hide FiftyCents;
    WorkingYearKeeps(plan, age, taxYear, y, s);
    GrownKeeps(s.accounts, y);
    ForcedKeeps(s.accounts, y);
    NothingRecorded(ctx, AfterForced(s.accounts, y));
    RowShowsDraws(plan, age, taxYear, y, s);
  }

  /** A working row reports as withdrawn what the year recorded. */
  lemma RowShowsDraws(plan: Plan, age: nat, taxYear: int, y: YearInput, s: PathState)
    requires plan.Valid() && y.Valid()
    ensures var ctx := WorkingContextOf(plan, age, taxYear, y);
            var grown := GrownAll(s.accounts, y);
            var forced := ForcedLeg(grown, y).drawn;
            var r := WorkingYearOf(plan, age, taxYear, y, s);
            && r.row.Withdrawals() == FundedYear(ctx, AfterForced(grown, y), forced).d.Sum()
            && r.gain == Worth(grown) - Worth(s.accounts) && r.lost == Dust(ctx, AfterForced(grown, y), forced)
  {
    hide GrownAll;
    hide ForcedLeg;
    hide AfterForced;
    hide Worth;
    hide FlowAfter;
    hide Remaining;
    hide FundedYear;
    hide Dust;
    hide Placed;
    hide DepositAll;
    hide StartYear;
    hide Times;
  }

  /** Half a dollar against a hundred: the first draw is the last, and it is not recorded. */
  lemma NothingRecorded(ctx: WorkingContext, left: seq<Account>)
    requires ctx.Valid() && Solvent(left) && OnePerType(left) && Worth(left) == 0.5
    requires Gap(ctx, Draws(0.0, 0.0, 0.0, 0.0, 0.0)) == 100.0
    ensures FundedYear(ctx, left, 0.0).d == Draws(0.0, 0.0, 0.0, 0.0, 0.0) && Dust(ctx, left, 0.0) == 0.5
  {
    hide Gap;
    hide Worth;
    assert CentsLeft(ctx, AfterDraws(ctx, left, 0.0, 0));
    CentsLeftAtTheStop(ctx, left, 0.0, 0);
    NothingDrawnYet(ctx, left, 0.0);
    YearEnds(ctx, left, 0.0);
    hide FundedYear;
    hide AfterDraws;
    hide PassesFrom;
    hide Dust;
  }

  /** A year that loses cents is enough. */
  lemma OneYearLoses(plan: Plan, age: nat, taxYear: int, inputs: seq<YearInput>, s: PathState)
    requires plan.Valid() && AllValid(inputs) && |inputs| == 1 && s.Valid(taxYear)
    requires LosesCents(plan, age, taxYear, inputs[0], s)
    ensures !WealthReconciles(plan, age, taxYear, inputs, s)
  {
    hide LosesCents;
    hide PathState.Valid;
    hide WealthReconciles;
    hide YearAt;
    WealthReconcilesExactly(plan, age, taxYear, inputs, s);
    assert StateAt(plan, age, taxYear, inputs, s, 0) == s;
    assert !LosesNothing(plan, age, taxYear, inputs, s, 0);
  }

  /** The market leaves the fifty cents alone and nothing is forced. */
  lemma FiftyCentsHeld(plan: Plan, s: PathState, y: YearInput, taxYear: int)
    requires s == FiftyCents(plan) && y == HundredToSpend()
    ensures y.Valid() && s.Valid(taxYear) && Worth(s.accounts) == 0.5 && GrownAll(s.accounts, y) == s.accounts
    ensures ForcedLeg(s.accounts, y).drawn == 0.0 && Worth(AfterForced(s.accounts, y)) == 0.5
  {
    assert s.accounts[1..] == [];
    assert Grown(s.accounts[0], y) == s.accounts[0];
    assert ForcedAmount(y) == 0.0;
    ForcedKeeps(s.accounts, y);
  }

  lemma HundredShort(plan: Plan, age: nat, taxYear: int, y: YearInput)
    requires plan.Valid() && y == HundredToSpend()
    ensures Gap(WorkingContextOf(plan, age, taxYear, y), Draws(0.0, 0.0, 0.0, 0.0, 0.0)) == 100.0
  {
    var ctx := WorkingContextOf(plan, age, taxYear, y);
    assert ctx.Valid() && ctx.grossIncome == 0.0 && ctx.annualSpending == 100.0 && ctx.periodFraction == 1.0;
    hide WorkingContextOf;
    hide HundredToSpend;
    PlainShortfall(ctx);
  }

  /** Without wages or tax, what is lacking is the spending. */
  lemma PlainShortfall(ctx: WorkingContext)
    requires ctx.Valid() && ctx.grossIncome == 0.0 && ctx.periodFraction == 1.0
    ensures Gap(ctx, Draws(0.0, 0.0, 0.0, 0.0, 0.0)) == ctx.annualSpending
  {
    var d := Draws(0.0, 0.0, 0.0, 0.0, 0.0);
    NothingDrawn(ctx);
    UntaxedAtNothing(ctx);
    GapWithoutTax(ctx, d);
    hide Gap;
    hide WorkingTax;
    hide OtherIncome;
    hide Gains;
    OneTimes(ctx.annualSpending);
    hide Times;
  }

  lemma GapWithoutTax(ctx: WorkingContext, d: Draws)
    requires ctx.Valid() && ctx.grossIncome == 0.0 && ctx.periodFraction == 1.0
    requires WorkingTax(ctx, OtherIncome(ctx, d), Gains(ctx, d), 0.0, 0.0) == 0.0
    ensures Gap(ctx, d) == Times(1.0, ctx.annualSpending) + d.penalties - d.Sum()
  {
    hide WorkingTax;
    hide OtherIncome;
    hide Gains;
    hide Times;
  }

  lemma NothingDrawn(ctx: WorkingContext)
    requires ctx.Valid()
    ensures var d := Draws(0.0, 0.0, 0.0, 0.0, 0.0);
            OtherIncome(ctx, d) == 0.0 && Gains(ctx, d) == 0.0
  {
  }

  lemma OneTimes(x: real)
    ensures Times(1.0, x) == x
  {
  }

  lemma UntaxedAtNothing(ctx: WorkingContext)
    requires ctx.Valid() && ctx.grossIncome == 0.0
    ensures WorkingTax(ctx, 0.0, 0.0, 0.0, 0.0) == 0.0
  {
    hide FederalTaxOnIncome;
    hide StateTaxOf;
    hide Fica;
    RothConversion.NothingOwed(ctx.household, ctx.taxYear);
    NothingOwedToTheState(ctx.state, ctx.household.filingStatus);
    NoWages(ctx.household.filingStatus, ctx.taxYear);
  }

  lemma NothingOwedToTheState(state: State, fs: FilingStatus)
    ensures StateTaxOf(state, fs, StateTaxInput(0.0, 0.0, 0.0, 0.0, 0.0)) == 0.0
  {
    hide BracketTables.TaxBelow;
    OnlyCalifornia(state, fs, StateTaxInput(0.0, 0.0, 0.0, 0.0, 0.0));
    hide StateTaxOf;
    TaxTables.CaliforniaTable(fs);
    BracketTables.NothingBelow(TaxTables.CaliforniaBrackets(fs), 0.0);
    hide TaxTables.CaliforniaBrackets;
  }

  lemma NoWages(fs: FilingStatus, taxYear: TaxYear)
    requires taxYear.Valid()
    ensures Fica(0.0, fs, taxYear) == 0.0
  {
    TimesMono(AdditionalMedicareThreshold(fs), 0.0, taxYear.frozenScale);
    TimesZero(AdditionalMedicareThreshold(fs));
  }

  // ---- The path as the source runs it ----------------------------------------------

  function SumOfReals(xs: seq<real>): real {
    if |xs| == 0 then 0.0 else SumOfReals(xs[..|xs| - 1]) + xs[|xs| - 1]
  }

  function SavingsOf(rows: seq<Row>): real {
    if |rows| == 0 then 0.0 else SavingsOf(rows[..|rows| - 1]) + rows[|rows| - 1].savings
  }

  /** A retired year counts as unfunded exactly when draining every bucket would not have funded it. */
  predicate VerdictIsRight(plan: Plan, age: nat, taxYear: int, y: YearInput, s: PathState, row: Row) {
    var grown := GrownAll(s.accounts, y);
    var ctx := RetiredContextOf(plan, age, taxYear, y, s);
    var ledger := StartYear(s.ledger, age, taxYear);
    MarginUnderOne(grown, ctx) ==>
      (row.insufficientFunds <==> !Funds(grown, ledger, MaxBudget(grown, ctx), ctx, y.retirementSpending))
  }

  /** Rows and gains reported so far are the path's own, year by year, and add up to its totals. */
  predicate RowsFollow(plan: Plan, startAge: nat, startYear: int, inputs: seq<YearInput>, s: PathState,
                       rows: seq<Row>, gains: seq<real>)
    requires plan.Valid() && AllValid(inputs)
  {
    && |rows| == |gains| <= |inputs|
    && (forall i | 0 <= i < |rows| ::
          var r := YearAt(plan, startAge, startYear, inputs, s, i);
          rows[i] == r.row && gains[i] == r.gain)
    && (forall i | 0 <= i < |rows| && startAge + i >= plan.retirementAge ::
          VerdictIsRight(plan, startAge + i, startYear + i, inputs[i], StateAt(plan, startAge, startYear, inputs, s, i), rows[i]))
    && SumOfReals(gains) == TotalsAt(plan, startAge, startYear, inputs, s, |rows|).gains
    && SavingsOf(rows) == TotalsAt(plan, startAge, startYear, inputs, s, |rows|).savings
  }

  lemma NothingYet(plan: Plan, startAge: nat, startYear: int, inputs: seq<YearInput>, s: PathState)
    requires plan.Valid() && AllValid(inputs)
    ensures RowsFollow(plan, startAge, startYear, inputs, s, [], [])
  {
  }

  lemma RowsFollowOn(plan: Plan, startAge: nat, startYear: int, inputs: seq<YearInput>, s: PathState,
                     rows: seq<Row>, gains: seq<real>, row: Row, gain: real)
    requires plan.Valid() && AllValid(inputs) && RowsFollow(plan, startAge, startYear, inputs, s, rows, gains)
    requires |rows| < |inputs|
    requires var r := YearAt(plan, startAge, startYear, inputs, s, |rows|); row == r.row && gain == r.gain
    requires startAge + |rows| >= plan.retirementAge ==>
               VerdictIsRight(plan, startAge + |rows|, startYear + |rows|, inputs[|rows|],
                              StateAt(plan, startAge, startYear, inputs, s, |rows|), row)
    ensures RowsFollow(plan, startAge, startYear, inputs, s, rows + [row], gains + [gain])
  {
    hide YearAt;
    hide VerdictIsRight;
    SumsGrow(rows, row, gains, gain);
    hide SumOfReals;
    hide SavingsOf;
    hide StateAt;
  }

  lemma SumsGrow(rows: seq<Row>, row: Row, gains: seq<real>, gain: real)
    ensures SavingsOf(rows + [row]) == SavingsOf(rows) + row.savings
    ensures SumOfReals(gains + [gain]) == SumOfReals(gains) + gain
  {
    assert (rows + [row])[..|rows|] == rows;
    assert (gains + [gain])[..|gains|] == gains;
  }

  /** What a path's own rows say once all its years are reported. */
  lemma {:induction false} FollowedRows(plan: Plan, startAge: nat, startYear: int, inputs: seq<YearInput>, s: PathState,
                     rows: seq<Row>, gains: seq<real>)
    requires plan.Valid() && AllValid(inputs) && s.Valid(startYear) && |rows| == |inputs|
    requires RowsFollow(plan, startAge, startYear, inputs, s, rows, gains)
    ensures forall i | 0 <= i <= |inputs| :: StateAt(plan, startAge, startYear, inputs, s, i).Valid(startYear + i)
    ensures forall i | 0 <= i < |inputs| :: rows[i].Reconciles() && rows[i].retired == (startAge + i >= plan.retirementAge)
    ensures Worth(StateAt(plan, startAge, startYear, inputs, s, |inputs|).accounts)
            == Worth(s.accounts) + SumOfReals(gains) + SavingsOf(rows)
       <==> NoYearLoses(plan, startAge, startYear, inputs, s, |inputs|)
    ensures (forall i | 0 <= i < |inputs| :: !rows[i].insufficientFunds) || startAge >= plan.retirementAge ==>
              NoYearLoses(plan, startAge, startYear, inputs, s, |inputs|)
  {
    hide YearOf;
    hide Worth;
    hide LosesCents;
    hide PathState.Valid;
    hide Row.Reconciles;
    hide SumOfReals;
    hide SavingsOf;
    hide VerdictIsRight;
    WealthReconcilesExactly(plan, startAge, startYear, inputs, s);
    forall i | 0 <= i <= |inputs|
      ensures StateAt(plan, startAge, startYear, inputs, s, i).Valid(startYear + i)
    {
      PathKeeps(plan, startAge, startYear, inputs, s, i);
    }
    forall i | 0 <= i < |inputs|
      ensures rows[i].Reconciles() && rows[i].retired == (startAge + i >= plan.retirementAge)
      ensures LosesCents(plan, startAge + i, startYear + i, inputs[i], StateAt(plan, startAge, startYear, inputs, s, i))
              ==> rows[i].insufficientFunds && startAge + i < plan.retirementAge
    {
      PathKeeps(plan, startAge, startYear, inputs, s, i);
      var now := StateAt(plan, startAge, startYear, inputs, s, i);
      YearOfKeeps(plan, startAge + i, startYear + i, inputs[i], now);
      assert rows[i] == YearAt(plan, startAge, startYear, inputs, s, i).row;
      OnlyWorkingYearsLose(plan, startAge + i, startYear + i, inputs[i], now);
    }
  }

  lemma OnlyWorkingYearsLose(plan: Plan, age: nat, taxYear: int, y: YearInput, s: PathState)
    requires plan.Valid() && y.Valid()
    ensures LosesCents(plan, age, taxYear, y, s) ==> age < plan.retirementAge
  {
    hide RunsOutByCents;
  }

  /** What the solver withdraws is never negative, and what it leaves never falls below zero. */
  lemma EvaluationIsSane(plan: Plan, age: nat, taxYear: int, y: YearInput, s: PathState)
    requires plan.Valid() && y.Valid() && s.Valid(taxYear)
    ensures var e := EvaluationOf(plan, age, taxYear, y, s);
            var held := Deposit(WithBalances(GrownAll(s.accounts, y), e.balances), Taxable,
                                Finish(e, y.retirementSpending).depositTaxable);
            && 0.0 <= e.withdrawalTaxable && 0.0 <= e.withdrawalTraditional && OnePerType(held) && Solvent(held)
  {
    hide Evaluate;
    hide BudgetFor;
    hide Worth;
    hide Reachable;
    hide Total;
    var grown := GrownAll(s.accounts, y);
    var ctx := RetiredContextOf(plan, age, taxYear, y, s);
    var ledger := StartYear(s.ledger, age, taxYear);
    GrownKeeps(s.accounts, y);
    ContextIsValid(plan, age, taxYear, y, s);
    hide GrownAll;
    EvaluationConserves(grown, ledger, BudgetFor(grown, ledger, y.retirementSpending, ctx), ctx);
    var e := EvaluationOf(plan, age, taxYear, y, s);
    WithBalancesWorth(grown, e.balances);
    hide WithBalances;
    hide Solvent;
    hide OnePerType;
    DepositConserves(WithBalances(grown, e.balances), Taxable, Finish(e, y.retirementSpending).depositTaxable);
    hide Deposit;
  }

  /** A path's reported rows and gains, its verdicts and its losses, by the states its years started in. */
  lemma YearByYear(plan: Plan, startAge: nat, startYear: int, inputs: seq<YearInput>, s: PathState,
                   rows: seq<Row>, gains: seq<real>, states: seq<PathState>)
    requires plan.Valid() && AllValid(inputs) && |rows| == |inputs| && |states| == |inputs| + 1
    requires RowsFollow(plan, startAge, startYear, inputs, s, rows, gains)
    requires forall i | 0 <= i <= |inputs| :: states[i] == StateAt(plan, startAge, startYear, inputs, s, i)
    ensures forall i | 0 <= i < |inputs| ::
              var r := YearOf(plan, startAge + i, startYear + i, inputs[i], states[i]);
              rows[i] == r.row && gains[i] == r.gain && states[i + 1] == r.next
    ensures forall i | 0 <= i < |inputs| && startAge + i >= plan.retirementAge ::
              VerdictIsRight(plan, startAge + i, startYear + i, inputs[i], states[i], rows[i])
    ensures NoYearLoses(plan, startAge, startYear, inputs, s, |inputs|)
       <==> forall i | 0 <= i < |inputs| :: !LosesCents(plan, startAge + i, startYear + i, inputs[i], states[i])
  {
    hide LosesCents;
    hide VerdictIsRight;
    hide YearOf;
    hide SumOfReals;
    hide SavingsOf;
    hide TotalsAt;
    forall i | 0 <= i < |inputs|
      ensures states[i + 1] == YearAt(plan, startAge, startYear, inputs, s, i).next
      ensures LosesNothing(plan, startAge, startYear, inputs, s, i)
         <==> !LosesCents(plan, startAge + i, startYear + i, inputs[i], states[i])
    {
    }
    hide StateAt;
  }

  class Path {
    const plan: Plan
    const basis: RothBasisState
    var accounts: seq<Account>
    var hsaQualifiedAllowance: real

    function View(): PathState
      reads this, basis
    {
      PathState(accounts, basis.View(), hsaQualifiedAllowance)
    }

    constructor (plan: Plan, accounts: seq<Account>, taxYear: int)
      requires plan.Valid() && Solvent(accounts)
      ensures View().Valid(taxYear) && this.plan == plan && fresh(basis)
      ensures this.accounts == ToBuckets(accounts) && Worth(this.accounts) == Worth(accounts)
      ensures View().ledger == Ledger(plan.conversionEnabled && plan.retirementAge < 60, BalanceOf(ToBuckets(accounts), Roth), [], 0.0)
      ensures hsaQualifiedAllowance == 0.0
    {
      BucketsStartOnePerType(accounts);
      CollapsingConserves(accounts);
      var buckets := CollapseAccounts(accounts);
      PoolNonNegative(buckets, Roth);
      this.plan := plan;
      this.accounts := buckets;
      hsaQualifiedAllowance := 0.0;
      basis := new RothBasisState(plan.conversionEnabled && plan.retirementAge < TRADITIONAL_PENALTY_AGE,
                                  BalanceOf(buckets, Roth));
    }

    /** A working year: the accounts, the ledger and the row are what `WorkingYearOf` says. */
    method WorkYear(age: nat, taxYear: int, y: YearInput) returns (row: Row, gain: real)
      requires plan.Valid() && y.Valid() && View().Valid(taxYear) && age < plan.retirementAge
      modifies this`accounts, basis
      ensures var r := WorkingYearOf(plan, age, taxYear, y, old(View()));
              View() == r.next && row == r.row && gain == r.gain
      ensures gain == Worth(GrownAll(old(accounts), y)) - old(Worth(accounts))
      ensures row.income == Times(y.periodFraction, y.salary) && row.Reconciles() && View().Valid(taxYear + 1)
    {
      hide Worth;
      hide Reachable;
      hide Solvent;
      hide OnePerType;
      hide Decayed;
      hide Gap;
      hide FlowAfter;
      hide FundedYear;
      hide PassesFrom;
      hide Dust;
      ghost var s := View();
      WorkingYearKeeps(plan, age, taxYear, y, s);
      basis.OpenYear(age, taxYear);
      var ctx := WorkingContextOf(plan, age, taxYear, y);
      GrownKeeps(accounts, y);
      var grown;
      grown, gain := ApplyMarket(accounts, y);
      var forced, left := TakeForced(grown, y);
      ForcedKeeps(grown, y);
      hide ForcedLeg;
      hide AfterForced;
      var d, flow, after;
      ghost var passes;
      d, flow, after, passes := FundShortfall(ctx, left, forced);
      var unfunded := RemainingNow(ctx, d, flow);
      hide Remaining;
      var p := Placed(flow, y.periodFraction);
      hide Placed;
      accounts := DepositAll(after, p);
      basis.RecordWorkingYear(d.roth, p.roth);
      row := WorkRow(ctx, d, flow.tax.totalTax, unfunded, p);
    }

    /** A retired year: the accounts, the ledger, the allowance and the row are what `RetiredYearOf` says. */
    method RetireYear(age: nat, taxYear: int, y: YearInput) returns (row: Row, gain: real)
      requires plan.Valid() && y.Valid() && View().Valid(taxYear)
      modifies this`accounts, this`hsaQualifiedAllowance, basis
      ensures var r := RetiredYearOf(plan, age, taxYear, y, old(View()));
              View() == r.next && row == r.row && gain == r.gain
      ensures gain == Worth(GrownAll(old(accounts), y)) - old(Worth(accounts))
      ensures row.income == y.socialSecurityBenefit && (!row.insufficientFunds ==> row.spending == y.retirementSpending)
      ensures VerdictIsRight(plan, age, taxYear, y, old(View()), row)
      ensures row.Reconciles() && View().Valid(taxYear + 1)
      ensures hsaQualifiedAllowance == Pos(old(hsaQualifiedAllowance) + y.qualifiedCare - row.withdrawalHsa)
    {
      hide Evaluate;
      hide BudgetFor;
      hide Worth;
      hide Reachable;
      hide Consistent;
      hide MarginUnderOne;
      hide Total;
      hide Solvent;
      hide OnePerType;
      hide Deposit;
      hide ConversionOf;
      hide GrownAll;
      ghost var s := View();
      RetiredYearKeeps(plan, age, taxYear, y, s);
      OpenedYear(basis.View(), age, taxYear);
      ReachableIsConsistent(StartYear(s.ledger, age, taxYear), taxYear);
      basis.OpenYear(age, taxYear);
      var ctx := RetiredContextOf(plan, age, taxYear, y, View());
      ContextIsValid(plan, age, taxYear, y, View());
      hide StartYear;
      hsaQualifiedAllowance := hsaQualifiedAllowance + y.qualifiedCare;
      GrownKeeps(accounts, y);
      var grown;
      grown, gain := ApplyMarket(accounts, y);
      var r, left;
      ghost var budget, width;
      r, left, budget, width := ExecuteOrderedWithdrawals(y.retirementSpending, grown, basis, ctx);
      EvaluationIsSane(plan, age, taxYear, y, s);
      hsaQualifiedAllowance := hsaQualifiedAllowance - r.hsaQualifiedUsed;
      accounts := Deposit(left, Taxable, r.depositTaxable);
      hide Funds;
      var c := Convert(age, taxYear, y, r);
      row := RetiredRow(y, r, c);
    }

    /** Convert what a funded year before RMDs leaves room for: the search's answer, moved between the buckets. */
    method Convert(age: nat, taxYear: int, y: YearInput, r: WithdrawalResult) returns (c: RothConversion.Conversion)
      requires plan.Valid() && y.Valid() && OnePerType(accounts) && Solvent(accounts)
      requires 0.0 <= r.withdrawalTraditional && 0.0 <= r.withdrawalTaxable
      modifies this`accounts, basis
      ensures c == ConversionOf(plan, age, taxYear, y, r, old(accounts)) && accounts == AfterConversion(old(accounts), c)
      ensures basis.View() == LedgerAfter(old(basis.View()), taxYear, c)
      ensures age < plan.rmdStartAge && !r.insufficientFunds ==>
                RothConversion.LargestThatFits(c, ConversionInputOf(plan, age, taxYear, y, r, old(accounts)))
    {
      hide RothConversion.ConversionFor;
      hide RothConversion.LargestThatFits;
      hide RothConversion.Settle;
      hide RothConversion.GapAt;
      hide RothConversion.CeilingLimit;
      hide RothConversion.Resolution;
      hide Converted;
      c := RothConversion.NO_CONVERSION;
      if age < plan.rmdStartAge && !r.insufficientFunds {
        InputIsValid(plan, age, taxYear, y, r, accounts);
        c := RothConversion.RothConversionFor(ConversionInputOf(plan, age, taxYear, y, r, accounts));
        if c.converted > 0.0 {
          accounts := Converted(accounts, c);
          basis.RecordConversion(taxYear, c.converted - c.withheld);
        }
      }
    }

    /**
     * The whole path, year by year: each year's row, gain and next state follow
     * from the state it started in and what it brought. However long it is and
     * whatever the market does, every state is valid and every row reconciles; a
     * retired year is unfunded exactly when draining every bucket would not have
     * funded it; and terminal wealth is what the path started with plus market
     * gains plus reported savings exactly when no working year runs out by cents.
     */
    method Project(startAge: nat, startYear: int, inputs: seq<YearInput>)
      returns (rows: seq<Row>, gains: seq<real>, terminalWealth: real, success: bool, ghost states: seq<PathState>)
      requires plan.Valid() && View().Valid(startYear) && AllValid(inputs)
      modifies this`accounts, this`hsaQualifiedAllowance, basis
      ensures |rows| == |gains| == |inputs| && |states| == |inputs| + 1
      ensures states[0] == old(View()) && states[|inputs|] == View() && terminalWealth == Worth(accounts)
      ensures forall i | 0 <= i < |inputs| ::
                var r := YearOf(plan, startAge + i, startYear + i, inputs[i], states[i]);
                rows[i] == r.row && gains[i] == r.gain && states[i + 1] == r.next
      ensures forall i | 0 <= i <= |inputs| :: states[i].Valid(startYear + i)
      ensures forall i | 0 <= i < |inputs| :: rows[i].Reconciles() && rows[i].retired == (startAge + i >= plan.retirementAge)
      ensures forall i | 0 <= i < |inputs| && startAge + i >= plan.retirementAge ::
                VerdictIsRight(plan, startAge + i, startYear + i, inputs[i], states[i], rows[i])
      ensures success <==> forall i | 0 <= i < |inputs| :: !rows[i].insufficientFunds
      ensures terminalWealth == old(Worth(accounts)) + SumOfReals(gains) + SavingsOf(rows)
         <==> forall i | 0 <= i < |inputs| :: !LosesCents(plan, startAge + i, startYear + i, inputs[i], states[i])
      ensures success || startAge >= plan.retirementAge ==>
                terminalWealth == old(Worth(accounts)) + SumOfReals(gains) + SavingsOf(rows)
    {
      hide YearOf;
      hide Worth;
      hide LosesCents;
      hide VerdictIsRight;
      hide PathState.Valid;
      hide Row.Reconciles;
      hide SumOfReals;
      hide SavingsOf;
      hide NoYearLoses;
      ghost var start := View();
      rows, gains, success := [], [], true;
      states := [start];
      NothingYet(plan, startAge, startYear, inputs, start);
      for year := 0 to |inputs|
        invariant |rows| == |gains| == year && |states| == year + 1
        invariant View() == states[year] && View().Valid(startYear + year)
        invariant forall i | 0 <= i <= year :: states[i] == StateAt(plan, startAge, startYear, inputs, start, i)
        invariant RowsFollow(plan, startAge, startYear, inputs, start, rows, gains)
        invariant success <==> forall i | 0 <= i < year :: !rows[i].insufficientFunds
      {
        var row, gain;
        YearOfKeeps(plan, startAge + year, startYear + year, inputs[year], View());
        row, gain := RunYear(startAge + year, startYear + year, inputs[year]);
        if row.insufficientFunds {
          success := false;
        }
        RowsFollowOn(plan, startAge, startYear, inputs, start, rows, gains, row, gain);
        hide StateAt;
        hide RowsFollow;
        rows, gains, states := rows + [row], gains + [gain], states + [View()];
      }
      terminalWealth := Worth(accounts);
      FollowedRows(plan, startAge, startYear, inputs, start, rows, gains);
      YearByYear(plan, startAge, startYear, inputs, start, rows, gains, states);
      hide RowsFollow;
      hide StateAt;
      hide YearAt;
    }

    /** One year, working or retired. */
    method RunYear(age: nat, taxYear: int, y: YearInput) returns (row: Row, gain: real)
      requires plan.Valid() && y.Valid() && View().Valid(taxYear)
      modifies this`accounts, this`hsaQualifiedAllowance, basis
      ensures var r := YearOf(plan, age, taxYear, y, old(View()));
              View() == r.next && row == r.row && gain == r.gain
      ensures age >= plan.retirementAge ==> VerdictIsRight(plan, age, taxYear, y, old(View()), row)
    {
      hide WorkingYearOf;
      hide RetiredYearOf;
      hide VerdictIsRight;
      hide Worth;
      hide GrownAll;
      hide PathState.Valid;
      if age < plan.retirementAge {
        row, gain := WorkYear(age, taxYear, y);
      } else {
        row, gain := RetireYear(age, taxYear, y);
      }
    }
  }

  /** The forced distribution, out of Traditional only. */
  method TakeForced(accounts: seq<Account>, y: YearInput) returns (taken: real, after: seq<Account>)
    ensures taken == ForcedLeg(accounts, y).drawn && after == AfterForced(accounts, y)
  {
    hide DrawDown;
    hide Drawn;
    var balances := new real[|accounts|](i requires 0 <= i < |accounts| => accounts[i].balance);
    assert balances[..] == Balances(accounts);
    taken := DrawBucketBalances(accounts, balances, Traditional, ForcedAmount(y));
    after := WithBalances(accounts, balances[..]);
  }
}
