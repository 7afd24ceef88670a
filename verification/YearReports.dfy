// What a path's rows say about the money behind them: where every bucket's
// dollars went, what was taxed, and what the allowance, the ceiling and the
// conversion ledger made of it.
module YearReports {
  import opened Buckets
  import opened Domain
  import opened HealthcarePremiums
  import opened IncomeTax
  import opened PathProjection
  import opened Reals
  import opened RetirementSolve
  import RothConversion
  import opened RothLedger
  import opened WithdrawalOrder
  import opened WorkingYear

  // ---- The market, as money ------------------------------------------------------

  /** An account gains the modelled share of a year's market gain, less the fee, and stops at zero. */
  lemma MarketPaysTheBlend(a: Account, y: YearInput)
    ensures Grown(a, y).balance
         == Pos(a.balance + Times(y.periodFraction, MarketGain(a, y.stockReturn, y.bondReturn, 0.001)))
    ensures Grown(a, y).accountType == a.accountType
  {
    var rate := Times(a.assetWeights.stocks, y.stockReturn) + Times(a.assetWeights.bonds, y.bondReturn) - ANNUAL_PORTFOLIO_FEE;
    Regrouped(a.balance, y.periodFraction, rate);
    hide Times;
  }

  lemma Regrouped(balance: real, f: real, rate: real)
    ensures Times(balance, 1.0 + Times(rate, f)) == balance + Times(f, Times(balance, rate))
  {
  }

  // ---- The retired year's own steps ------------------------------------------------

  /** The accounts once the year's withdrawals and its reinvested surplus are settled. */
  function HeldAfter(plan: Plan, age: nat, taxYear: int, y: YearInput, s: PathState): seq<Account> {
    var e := EvaluationOf(plan, age, taxYear, y, s);
    Deposit(WithBalances(GrownAll(s.accounts, y), e.balances), Taxable, Finish(e, y.retirementSpending).depositTaxable)
  }

  /** The conversion a retired year makes. */
  function ConversionAt(plan: Plan, age: nat, taxYear: int, y: YearInput, s: PathState): RothConversion.Conversion {
    ConversionOf(plan, age, taxYear, y, Finish(EvaluationOf(plan, age, taxYear, y, s), y.retirementSpending),
                 HeldAfter(plan, age, taxYear, y, s))
  }

  /** What the row reports is what the solver withdrew, with what the conversion sold and withheld on top. */
  lemma RowReportsTheSolve(plan: Plan, age: nat, taxYear: int, y: YearInput, s: PathState)
    ensures var e := EvaluationOf(plan, age, taxYear, y, s);
            var c := ConversionAt(plan, age, taxYear, y, s);
            var r := RetiredYearOf(plan, age, taxYear, y, s);
            && r.row.income == y.socialSecurityBenefit && r.row.taxes == e.totalTaxes + c.tax
            && r.row.withdrawalTaxable == e.withdrawalTaxable + c.fromTaxable
            && r.row.withdrawalTraditional == e.withdrawalTraditional + c.withheld
            && r.row.withdrawalRoth == e.withdrawalRoth && r.row.withdrawalHsa == e.withdrawalHsa
            && r.row.rothConversion == c.converted - c.withheld
            && r.row.depositTraditional == r.row.depositRoth == r.row.depositHsa == 0.0
            && r.row.depositTaxable == Finish(e, y.retirementSpending).depositTaxable
            && r.row.insufficientFunds == (e.cash < y.retirementSpending - 1.0)
            && r.next.accounts == AfterConversion(HeldAfter(plan, age, taxYear, y, s), c)
            && r.next.hsaQualifiedAllowance == s.hsaQualifiedAllowance + y.qualifiedCare - e.hsaQualifiedUsed
            && r.next.ledger == LedgerAfter(Withdraw(StartYear(s.ledger, age, taxYear), r.row.withdrawalRoth), taxYear, c)
  {
    hide ConversionOf;
    hide AfterConversion;
    hide LedgerAfter;
    hide Withdraw;
    hide StartYear;
    hide EvaluationOf;
    hide GrownAll;
    hide Deposit;
    hide WithBalances;
  }

  /** The conversion fits what the accounts hold, and only a funded year before required distributions makes one. */
  lemma ConversionFitsTheYear(plan: Plan, age: nat, taxYear: int, y: YearInput, s: PathState)
    requires plan.Valid() && y.Valid() && s.Valid(taxYear)
    ensures var held := HeldAfter(plan, age, taxYear, y, s);
            var c := ConversionAt(plan, age, taxYear, y, s);
            && OnePerType(held) && Solvent(held)
            && 0.0 <= c.converted <= BalanceOf(held, Traditional)
            && 0.0 <= c.fromTaxable <= BalanceOf(held, Taxable)
            && 0.0 <= c.withheld <= c.converted && c.tax == c.fromTaxable + c.withheld
            && (c.converted > 0.0 ==>
                  && plan.conversionEnabled && age < plan.rmdStartAge
                  && !Finish(EvaluationOf(plan, age, taxYear, y, s), y.retirementSpending).insufficientFunds)
  {
    hide RothConversion.GapAt;
    hide RothConversion.CeilingLimit;
    hide RothConversion.Settle;
    hide RothConversion.Search;
    hide BalanceOf;
    hide Solvent;
    hide OnePerType;
    hide Reachable;
    EvaluationIsSane(plan, age, taxYear, y, s);
    hide EvaluationOf;
    hide Deposit;
    hide GrownAll;
    hide WithBalances;
    var held := HeldAfter(plan, age, taxYear, y, s);
    var r := Finish(EvaluationOf(plan, age, taxYear, y, s), y.retirementSpending);
    BalanceNonNegative(held, Traditional);
    BalanceNonNegative(held, Taxable);
    hide HeldAfter;
    if age < plan.rmdStartAge && !r.insufficientFunds {
      InputIsValid(plan, age, taxYear, y, r, held);
      RothConversion.ConversionIsPaid(ConversionInputOf(plan, age, taxYear, y, r, held));
    }
  }

  // ---- Bucket by bucket ------------------------------------------------------------

  /** What a row reports as withdrawn from one bucket. */
  function RowWithdrawal(row: Row, ty: AccountType): real {
    match ty
    case Taxable => row.withdrawalTaxable
    case Traditional => row.withdrawalTraditional
    case Roth => row.withdrawalRoth
    case Hsa => row.withdrawalHsa
  }

  function RowDeposit(row: Row, ty: AccountType): real {
    match ty
    case Taxable => row.depositTaxable
    case Traditional => row.depositTraditional
    case Roth => row.depositRoth
    case Hsa => row.depositHsa
  }

  /** What a row's conversion moves into one bucket: out of Traditional and into Roth. */
  function RowConversion(row: Row, ty: AccountType): real {
    match ty
    case Traditional => -row.rothConversion
    case Roth => row.rothConversion
    case _ => 0.0
  }

  /** A bucket ends a year with what the market left, less the row's withdrawals, plus its deposits and conversion. */
  predicate BucketMoves(s: PathState, y: YearInput, r: YearResult, ty: AccountType) {
    BalanceOf(r.next.accounts, ty)
    == BalanceOf(GrownAll(s.accounts, y), ty) - RowWithdrawal(r.row, ty) + RowDeposit(r.row, ty) + RowConversion(r.row, ty)
  }

  lemma HeldByType(plan: Plan, age: nat, taxYear: int, y: YearInput, s: PathState, ty: AccountType)
    requires plan.Valid() && y.Valid() && s.Valid(taxYear)
    ensures var e := EvaluationOf(plan, age, taxYear, y, s);
            var grown := GrownAll(s.accounts, y);
            && BalanceOf(HeldAfter(plan, age, taxYear, y, s), ty)
               == BalanceOf(grown, ty) - WithdrawnFrom(e, ty)
                  + (if ty == Taxable then Finish(e, y.retirementSpending).depositTaxable else 0.0)
            && e.withdrawalTraditional >= Min(ForcedAmount(y), BalanceOf(grown, Traditional))
  {
    hide Evaluate;
    hide BudgetFor;
    hide BalanceOf;
    hide Available;
    hide Reachable;
    hide OnePerType;
    hide Deposit;
    hide Total;
    var grown := GrownAll(s.accounts, y);
    var ctx := RetiredContextOf(plan, age, taxYear, y, s);
    var ledger := StartYear(s.ledger, age, taxYear);
    var budget := BudgetFor(grown, ledger, y.retirementSpending, ctx);
    var e := EvaluationOf(plan, age, taxYear, y, s);
    GrownKeeps(s.accounts, y);
    ContextIsValid(plan, age, taxYear, y, s);
    hide GrownAll;
    EvaluationConserves(grown, ledger, budget, ctx);
    EvaluationLeaves(grown, ledger, budget, ctx, ty);
    BalanceIsAvailable(grown, Balances(grown), ty);
    BalanceIsAvailable(grown, Balances(grown), Traditional);
    assert WithBalances(grown, Balances(grown)) == grown;
    BalanceIsAvailable(grown, e.balances, ty);
    DepositReaches(WithBalances(grown, e.balances), Taxable, Finish(e, y.retirementSpending).depositTaxable, ty);
    hide StartYear;
  }

  /** A conversion leaves Traditional whole, pays its tax from Taxable first, and reaches Roth net of what is withheld. */
  lemma ConversionByType(held: seq<Account>, c: RothConversion.Conversion, ty: AccountType)
    requires OnePerType(held) && Solvent(held)
    requires 0.0 <= c.converted <= BalanceOf(held, Traditional)
    requires 0.0 <= c.fromTaxable <= BalanceOf(held, Taxable)
    requires 0.0 <= c.withheld <= c.converted && (c.converted <= 0.0 ==> c.fromTaxable == 0.0)
    ensures BalanceOf(AfterConversion(held, c), ty)
         == BalanceOf(held, ty) + (match ty
                                   case Taxable => -c.fromTaxable
                                   case Traditional => -c.converted
                                   case Roth => c.converted - c.withheld
                                   case Hsa => 0.0)
  {
    hide Draw;
    hide Deposit;
    hide BalanceOf;
    hide Solvent;
    hide OnePerType;
    hide Worth;
    var drawn := Draw(held, Traditional, c.converted);
    DrawConserves(held, Traditional, c.converted);
    DrawReaches(held, Traditional, c.converted, Taxable);
    DrawReaches(held, Traditional, c.converted, ty);
    DrawReaches(drawn, Taxable, c.fromTaxable, ty);
    DepositReaches(Draw(drawn, Taxable, c.fromTaxable), Roth, c.converted - c.withheld, ty);
  }

  /** In every retired year each bucket moves by exactly what its row reports, and the required distribution is taken. */
  lemma RetiredBucketsMove(plan: Plan, age: nat, taxYear: int, y: YearInput, s: PathState, ty: AccountType)
    requires plan.Valid() && y.Valid() && s.Valid(taxYear)
    ensures var r := RetiredYearOf(plan, age, taxYear, y, s);
            && BucketMoves(s, y, r, ty)
            && r.row.withdrawalTraditional >= Min(ForcedAmount(y), BalanceOf(GrownAll(s.accounts, y), Traditional))
  {
    hide EvaluationOf;
    hide BalanceOf;
    hide Solvent;
    hide OnePerType;
    hide Reachable;
    hide GrownAll;
    RowReportsTheSolve(plan, age, taxYear, y, s);
    HeldByType(plan, age, taxYear, y, s, ty);
    ConversionFitsTheYear(plan, age, taxYear, y, s);
    hide HeldAfter;
    hide ForcedAmount;
    NothingConvertedSellsNothing(plan, age, taxYear, y, s);
    var c := ConversionAt(plan, age, taxYear, y, s);
    hide ConversionAt;
    hide RetiredYearOf;
    ConversionByType(HeldAfter(plan, age, taxYear, y, s), c, ty);
    hide AfterConversion;
  }

  lemma NothingConvertedSellsNothing(plan: Plan, age: nat, taxYear: int, y: YearInput, s: PathState)
    requires plan.Valid() && y.Valid() && s.Valid(taxYear)
    ensures var c := ConversionAt(plan, age, taxYear, y, s);
            c.converted <= 0.0 ==> c == RothConversion.NO_CONVERSION
  {
    hide RothConversion.ConversionFor;
    hide BalanceOf;
    hide Reachable;
    EvaluationIsSane(plan, age, taxYear, y, s);
    var held := HeldAfter(plan, age, taxYear, y, s);
    var r := Finish(EvaluationOf(plan, age, taxYear, y, s), y.retirementSpending);
    hide EvaluationOf;
    hide HeldAfter;
    if age < plan.rmdStartAge && !r.insufficientFunds {
      InputIsValid(plan, age, taxYear, y, r, held);
      RothConversion.ConversionIsPaid(ConversionInputOf(plan, age, taxYear, y, r, held));
    }
  }

  // ---- The working year -------------------------------------------------------------

  /** A working row's draws and deposits are what the year recorded and placed. */
  lemma WorkingRowReports(plan: Plan, age: nat, taxYear: int, y: YearInput, s: PathState)
    requires plan.Valid() && y.Valid()
    ensures var ctx := WorkingContextOf(plan, age, taxYear, y);
            var grown := GrownAll(s.accounts, y);
            var left := AfterForced(grown, y);
            var forced := ForcedLeg(grown, y).drawn;
            var funded := FundedYear(ctx, left, forced);
            var flow := FlowAfter(ctx, funded.d);
            var p := Placed(flow, y.periodFraction);
            var r := WorkingYearOf(plan, age, taxYear, y, s);
            && r.row.withdrawalTaxable == funded.d.taxable && r.row.withdrawalTraditional == funded.d.traditional
            && r.row.withdrawalRoth == funded.d.roth && r.row.withdrawalHsa == funded.d.hsa
            && r.row.depositTaxable == p.taxable && r.row.depositTraditional == p.traditional
            && r.row.depositRoth == p.roth && r.row.depositHsa == p.hsa && r.row.rothConversion == 0.0
            && r.row.taxes == Times(y.periodFraction, flow.tax.totalTax) + funded.d.penalties
            && r.row.income == Times(y.periodFraction, y.salary)
            && r.row.spending == Times(y.periodFraction, y.workingSpending) - Remaining(ctx, funded.d)
            && r.row.insufficientFunds == (Remaining(ctx, funded.d) > 1.0)
            && r.next.accounts == DepositAll(funded.accounts, p) && r.lost == Dust(ctx, left, forced)
            && r.next.ledger == WorkingLedger(StartYear(s.ledger, age, taxYear), r.row.withdrawalRoth, r.row.depositRoth)
  {
    hide GrownAll;
    hide ForcedLeg;
    hide AfterForced;
    hide FlowAfter;
    hide Remaining;
    hide FundedYear;
    hide Dust;
    hide Placed;
    hide DepositAll;
    hide StartYear;
    hide WorkingLedger;
    hide Times;
    hide Worth;
  }

  lemma ForcedByType(accounts: seq<Account>, y: YearInput, ty: AccountType)
    requires Solvent(accounts)
    ensures ForcedLeg(accounts, y).drawn == Min(Pos(ForcedAmount(y)), BalanceOf(accounts, Traditional))
    ensures BalanceOf(AfterForced(accounts, y), ty)
         == BalanceOf(accounts, ty) - if ty == Traditional then ForcedLeg(accounts, y).drawn else 0.0
  {
    hide Available;
    hide ForcedAmount;
    var balances := Balances(accounts);
    LegLeaves(accounts, balances, Traditional, ForcedAmount(y), ty);
    LegConserves(accounts, balances, Traditional, ForcedAmount(y));
    BalanceIsAvailable(accounts, balances, ty);
    BalanceIsAvailable(accounts, balances, Traditional);
    assert WithBalances(accounts, balances) == accounts;
    BalanceIsAvailable(accounts, ForcedLeg(accounts, y).left, ty);
    hide BalanceOf;
    hide DrawDown;
  }

  lemma DepositsByType(accounts: seq<Account>, p: Placement, ty: AccountType)
    requires 0.0 <= p.hsa && 0.0 <= p.traditional && 0.0 <= p.roth && 0.0 <= p.taxable
    ensures BalanceOf(DepositAll(accounts, p), ty)
         == BalanceOf(accounts, ty) + (match ty
                                       case Taxable => p.taxable
                                       case Traditional => p.traditional
                                       case Roth => p.roth
                                       case Hsa => p.hsa)
  {
    hide Deposit;
    hide BalanceOf;
    var one := Deposit(accounts, Hsa, p.hsa);
    var two := Deposit(one, Traditional, p.traditional);
    DepositReaches(accounts, Hsa, p.hsa, ty);
    DepositReaches(one, Traditional, p.traditional, ty);
    DepositReaches(two, Roth, p.roth, ty);
    DepositReaches(Deposit(two, Roth, p.roth), Taxable, p.taxable, ty);
  }

  /** In every working year that loses nothing each bucket moves by exactly what its row reports. */
  lemma WorkingBucketsMove(plan: Plan, age: nat, taxYear: int, y: YearInput, s: PathState, ty: AccountType)
    requires plan.Valid() && y.Valid() && s.Valid(taxYear)
    ensures var r := WorkingYearOf(plan, age, taxYear, y, s);
            && (r.lost == 0.0 ==> BucketMoves(s, y, r, ty))
            && r.row.withdrawalTraditional >= Min(Pos(ForcedAmount(y)), BalanceOf(GrownAll(s.accounts, y), Traditional))
            && 0.0 <= r.row.withdrawalRoth && 0.0 <= r.row.depositRoth
  {
    hide FundedYear;
    hide Dust;
    hide DepositAll;
    hide BalanceOf;
    hide Reachable;
    hide FlowAfter;
    hide ForcedLeg;
    hide AfterForced;
    hide ForcedAmount;
    hide Gap;
    hide Worth;
    hide Decayed;
    hide PassesFrom;
    hide AfterDraws;
    hide WorkingLedger;
    hide StartYear;
    var ctx := WorkingContextOf(plan, age, taxYear, y);
    var grown := GrownAll(s.accounts, y);
    var forced := ForcedLeg(grown, y).drawn;
    var left := AfterForced(grown, y);
    WorkingRowReports(plan, age, taxYear, y, s);
    GrownKeeps(s.accounts, y);
    hide GrownAll;
    ForcedKeeps(grown, y);
    ForcedByType(grown, y, ty);
    YearEnds(ctx, left, forced);
    FundedYearLeaves(ctx, left, forced, ty);
    hide WorkingContextOf;
    hide WorkingYearOf;
    var funded := FundedYear(ctx, left, forced);
    var p := Placed(FlowAfter(ctx, funded.d), y.periodFraction);
    DepositsByType(funded.accounts, p, ty);
    hide Placed;
    hide Solvent;
    hide OnePerType;
  }

  /**
   * A working row's taxes, read off the row: the tax on wages with everything
   * drawn as income and gains and everything deferred as contributions, at an
   * annual rate over the modelled part of the year, and the penalties on early
   * dollars nothing forced.
   */
  lemma WorkingRowIsTaxed(plan: Plan, age: nat, taxYear: int, y: YearInput, s: PathState)
    requires plan.Valid() && y.Valid() && s.Valid(taxYear)
    ensures var ctx := WorkingContextOf(plan, age, taxYear, y);
            var f := y.periodFraction;
            var row := WorkingYearOf(plan, age, taxYear, y, s).row;
            var forced := Min(Pos(ForcedAmount(y)), BalanceOf(GrownAll(s.accounts, y), Traditional));
            row.taxes
            == Times(f, WorkingTax(ctx, (row.withdrawalTraditional + row.withdrawalHsa) / f,
                                   Times(row.withdrawalTaxable, plan.taxableGainRatio) / f,
                                   row.depositHsa / f, row.depositTraditional / f))
               + (if age < 60 then 0.1 * (row.withdrawalTraditional - forced) else 0.0)
               + (if age < 65 then 0.2 * row.withdrawalHsa else 0.0)
  {
    hide FundedYear;
    hide Dust;
    hide DepositAll;
    hide BalanceOf;
    hide Reachable;
    hide ForcedLeg;
    hide AfterForced;
    hide ForcedAmount;
    hide Gap;
    hide Worth;
    hide Decayed;
    hide PassesFrom;
    hide AfterDraws;
    hide WorkingLedger;
    hide StartYear;
    hide WorkingTax;
    hide SettledCashFlow;
    hide Times;
    var ctx := WorkingContextOf(plan, age, taxYear, y);
    var grown := GrownAll(s.accounts, y);
    var forced := ForcedLeg(grown, y).drawn;
    var left := AfterForced(grown, y);
    WorkingRowReports(plan, age, taxYear, y, s);
    GrownKeeps(s.accounts, y);
    hide GrownAll;
    ForcedKeeps(grown, y);
    ForcedByType(grown, y, Hsa);
    YearEnds(ctx, left, forced);
    FundedYearLeaves(ctx, left, forced, Hsa);
    hide WorkingYearOf;
    hide Solvent;
    hide OnePerType;
    var d := FundedYear(ctx, left, forced).d;
    DrawsAreIncome(ctx, d);
    var spending, other, gains := SpendingWith(ctx, d), OtherIncome(ctx, d), Gains(ctx, d);
    ContributionsNeverCreateShortfall(ctx, spending, other, gains);
    ContributionsReachTheirLimits(ctx, spending, other, gains);
    var tax := SettledCashFlow(ctx, spending, other, gains).tax;
    AnnualRate(y.periodFraction, tax.hsaContribution);
    AnnualRate(y.periodFraction, tax.k401Contribution);
  }

  /** A deposit over the modelled part of the year, back at its annual rate. */
  lemma AnnualRate(f: real, x: real)
    requires 0.0 < f && 0.0 <= x
    ensures Pos(Times(f, x)) / f == x
  {
    assert f * x >= 0.0;
    assert f * x / f == x;
  }

  // ---- The HSA allowance -----------------------------------------------------------

  /** Qualified care is reimbursed once: what the HSA pays of it comes off what is still to be reimbursed. */
  lemma AllowanceIsSpent(plan: Plan, age: nat, taxYear: int, y: YearInput, s: PathState)
    requires plan.Valid() && y.Valid() && s.Valid(taxYear)
    ensures var r := YearOf(plan, age, taxYear, y, s);
            r.next.hsaQualifiedAllowance
            == if age < plan.retirementAge then s.hsaQualifiedAllowance
               else Pos(s.hsaQualifiedAllowance + y.qualifiedCare - r.row.withdrawalHsa)
  {
    hide FundedYear;
    hide DepositAll;
    hide WorkingLedger;
    hide RetiredYearOf;
    hide PathState.Valid;
    hide GrownAll;
    hide StartYear;
    hide Row.Reconciles;
    hide Worth;
    if age >= plan.retirementAge {
      RetiredYearKeeps(plan, age, taxYear, y, s);
      hide WorkingYearOf;
    }
  }

  /** HSA dollars a path's first retired years spent on qualified care. */
  function CareReimbursed(plan: Plan, startAge: nat, startYear: int, inputs: seq<YearInput>, s: PathState, i: nat): real
    requires plan.Valid() && AllValid(inputs) && i <= |inputs|
  {
    if i == 0 then 0.0
    else
      var n := i - 1;
      CareReimbursed(plan, startAge, startYear, inputs, s, n)
      + if startAge + n < plan.retirementAge then 0.0
        else Min(YearAt(plan, startAge, startYear, inputs, s, n).row.withdrawalHsa,
                 StateAt(plan, startAge, startYear, inputs, s, n).hsaQualifiedAllowance + inputs[n].qualifiedCare)
  }

  /** Qualified care of a path's first retired years. */
  function CareBilled(plan: Plan, startAge: nat, inputs: seq<YearInput>, i: nat): real
    requires i <= |inputs|
  {
    if i == 0 then 0.0
    else CareBilled(plan, startAge, inputs, i - 1)
         + if startAge + i - 1 < plan.retirementAge then 0.0 else inputs[i - 1].qualifiedCare
  }

  /**
   * Over any path, every dollar of qualified care is reimbursed at most once:
   * what the HSA paid tax-free and what it may still pay add up to the starting
   * allowance and all the care billed since.
   */
  lemma {:induction false} CareIsReimbursedOnce(plan: Plan, startAge: nat, startYear: int, inputs: seq<YearInput>,
                                                s: PathState, i: nat)
    requires plan.Valid() && AllValid(inputs) && s.Valid(startYear) && i <= |inputs|
    ensures var now := StateAt(plan, startAge, startYear, inputs, s, i);
            && CareReimbursed(plan, startAge, startYear, inputs, s, i) + now.hsaQualifiedAllowance
               == s.hsaQualifiedAllowance + CareBilled(plan, startAge, inputs, i)
            && CareReimbursed(plan, startAge, startYear, inputs, s, i)
               <= s.hsaQualifiedAllowance + CareBilled(plan, startAge, inputs, i)
  {
    hide YearOf;
    hide Reachable;
    hide OnePerType;
    hide Solvent;
    PathKeeps(plan, startAge, startYear, inputs, s, i);
    if i > 0 {
      var n := i - 1;
      CareIsReimbursedOnce(plan, startAge, startYear, inputs, s, n);
      PathKeeps(plan, startAge, startYear, inputs, s, n);
      AllowanceIsSpent(plan, startAge + n, startYear + n, inputs[n], StateAt(plan, startAge, startYear, inputs, s, n));
    }
  }

  // ---- What a row's tax is on --------------------------------------------------------

  /** With one bucket per type, what Taxable holds was all invested or all surplus. */
  lemma OneTaxableBucket(accounts: seq<Account>)
    requires OnePerType(accounts)
    ensures Invested(accounts) || Uninvested(accounts)
  {
  }

  /** Tax and penalties of a retired year on these dollars. */
  function Owed(plan: Plan, age: nat, taxYear: int, y: YearInput, traditional: real, unqualified: real, gain: real): real {
    RetirementTax(traditional + unqualified, y.socialSecurityBenefit, gain, Household(plan.filingStatus, [age]), plan.state,
                  TaxYear(taxYear, y.frozenScale))
    + (if age < 60 then 0.1 * traditional else 0.0) + (if age < 65 then 0.2 * unqualified else 0.0)
  }

  /**
   * A retired row's taxes, read off the row: what its own withdrawals owe, the
   * HSA dollars past the allowance as income, the charge on converted principal,
   * and the conversion's own bill.
   */
  lemma RetiredRowIsTaxed(plan: Plan, age: nat, taxYear: int, y: YearInput, s: PathState)
    requires plan.Valid() && y.Valid() && s.Valid(taxYear)
    ensures var row := RetiredYearOf(plan, age, taxYear, y, s).row;
            var c := ConversionAt(plan, age, taxYear, y, s);
            var sold := row.withdrawalTaxable - c.fromTaxable;
            row.taxes
            == Owed(plan, age, taxYear, y, row.withdrawalTraditional - c.withheld,
                    Pos(row.withdrawalHsa - (s.hsaQualifiedAllowance + y.qualifiedCare)),
                    GainOn(GrownAll(s.accounts, y), sold, plan.taxableGainRatio))
               + ConversionPenalty(StartYear(s.ledger, age, taxYear), row.withdrawalRoth, age) + c.tax
  {
    hide Evaluate;
    hide BudgetFor;
    hide RetirementTax;
    hide ConversionPenalty;
    hide GainOn;
    hide Reachable;
    hide ForcedAmount;
    RowReportsTheSolve(plan, age, taxYear, y, s);
    hide RetiredYearOf;
    hide ConversionAt;
    var grown := GrownAll(s.accounts, y);
    var ctx := RetiredContextOf(plan, age, taxYear, y, s);
    var ledger := StartYear(s.ledger, age, taxYear);
    GrownKeeps(s.accounts, y);
    ContextIsValid(plan, age, taxYear, y, s);
    hide GrownAll;
    OneTaxableBucket(grown);
    EvaluationIsTaxed(grown, ledger, BudgetFor(grown, ledger, y.retirementSpending, ctx), ctx);
    hide StartYear;
  }

  /**
   * A retired row draws Roth while Traditional is left only when the plan aims at
   * a band, and the income the row reports before any conversion (the benefit,
   * Traditional and the gain on what was sold) has reached its ceiling. It goes
   * past that ceiling with Traditional nothing forced only once Roth is dry.
   */
  lemma RetiredRowAimsAtTheBand(plan: Plan, age: nat, taxYear: int, y: YearInput, s: PathState)
    requires plan.Valid() && y.Valid() && s.Valid(taxYear)
    ensures var row := RetiredYearOf(plan, age, taxYear, y, s).row;
            var c := ConversionAt(plan, age, taxYear, y, s);
            var traditional := row.withdrawalTraditional - c.withheld;
            var gain := Times(row.withdrawalTaxable - c.fromTaxable, plan.taxableGainRatio);
            var held := BalanceOf(GrownAll(s.accounts, y), Traditional);
            var forced := Min(Pos(ForcedAmount(y)), held);
            if plan.magiTarget.None? then row.withdrawalRoth > 0.0 ==> traditional >= held
            else
              var t := plan.magiTarget.value;
              var band := MagiBandFor(age, t.retirementAge, t.filingStatus, t.householdSize,
                                      row.income + forced + gain, t.healthcare);
              && (row.withdrawalRoth > 0.0 && traditional < held ==>
                    band.Some? && row.income + traditional + gain >= band.value.ceiling)
              && (band.Some? && row.income + traditional + gain > band.value.ceiling ==>
                    traditional == forced || row.withdrawalRoth == BalanceOf(GrownAll(s.accounts, y), Roth))
  {
    hide Evaluate;
    hide BudgetFor;
    hide MagiBandFor;
    hide Reachable;
    hide ForcedAmount;
    hide BalanceOf;
    hide Available;
    hide Times;
    RowReportsTheSolve(plan, age, taxYear, y, s);
    hide RetiredYearOf;
    hide ConversionAt;
    var grown := GrownAll(s.accounts, y);
    var ctx := RetiredContextOf(plan, age, taxYear, y, s);
    var ledger := StartYear(s.ledger, age, taxYear);
    GrownKeeps(s.accounts, y);
    hide GrownAll;
    BalanceIsAvailable(grown, Balances(grown), Traditional);
    BalanceIsAvailable(grown, Balances(grown), Roth);
    assert WithBalances(grown, Balances(grown)) == grown;
    YearAimsAtTheBand(grown, ledger, BudgetFor(grown, ledger, y.retirementSpending, ctx), ctx);
    hide StartYear;
    hide DrawDown;
  }

  // ---- What a conversion leaves under its ceiling ------------------------------------

  /** The income a retired row reports to the premium tests. */
  function ReportedMagi(plan: Plan, row: Row): real {
    row.income + row.withdrawalTraditional + row.rothConversion + Times(plan.taxableGainRatio, row.withdrawalTaxable)
  }

  lemma SaneInput(plan: Plan, age: nat, taxYear: int, y: YearInput, s: PathState)
    requires plan.Valid() && y.Valid() && s.Valid(taxYear)
    ensures ConversionInputOf(plan, age, taxYear, y, Finish(EvaluationOf(plan, age, taxYear, y, s), y.retirementSpending),
                              HeldAfter(plan, age, taxYear, y, s)).Valid()
  {
    hide BalanceOf;
    hide PathState.Valid;
    EvaluationIsSane(plan, age, taxYear, y, s);
    hide EvaluationOf;
    hide HeldAfter;
    InputIsValid(plan, age, taxYear, y, Finish(EvaluationOf(plan, age, taxYear, y, s), y.retirementSpending),
                 HeldAfter(plan, age, taxYear, y, s));
  }

  /** The conversion a year makes, as its row shows it. */
  lemma ConvertingRow(plan: Plan, age: nat, taxYear: int, y: YearInput, s: PathState, input: RothConversion.ConversionInput)
    requires plan.Valid() && y.Valid() && s.Valid(taxYear)
    requires RetiredYearOf(plan, age, taxYear, y, s).row.rothConversion > 0.0
    requires input == ConversionInputOf(plan, age, taxYear, y, Finish(EvaluationOf(plan, age, taxYear, y, s), y.retirementSpending),
                                        HeldAfter(plan, age, taxYear, y, s))
    ensures var row := RetiredYearOf(plan, age, taxYear, y, s).row;
            var c := RothConversion.ConversionFor(input);
            && input.Valid() && input.ceiling == plan.conversionCeiling && c.converted > 0.0
            && row.income == input.socialSecurityBenefit
            && row.withdrawalTraditional + row.rothConversion == input.traditionalWithdrawals + c.converted
            && row.withdrawalTaxable == input.taxableWithdrawals + c.fromTaxable
            && input.qualifiedIncome + Times(c.fromTaxable, plan.taxableGainRatio) == Times(row.withdrawalTaxable, plan.taxableGainRatio)
            && plan.conversionEnabled && age < plan.rmdStartAge && !row.insufficientFunds
  {
    hide BalanceOf;
    hide PathState.Valid;
    hide Times;
    hide RothConversion.ConversionFor;
    hide RetiredYearOf;
    hide EvaluationOf;
    hide HeldAfter;
    hide AfterConversion;
    hide LedgerAfter;
    RowReportsTheSolve(plan, age, taxYear, y, s);
    ConversionFitsTheYear(plan, age, taxYear, y, s);
    SaneInput(plan, age, taxYear, y, s);
    var r := Finish(EvaluationOf(plan, age, taxYear, y, s), y.retirementSpending);
    TimesSum(plan.taxableGainRatio, r.withdrawalTaxable, ConversionAt(plan, age, taxYear, y, s).fromTaxable);
  }

  /**
   * A year that converts under the IRMAA ceiling stays under it in its own row:
   * the income it reports, the gain on the sale that pays the conversion's tax
   * included, carries no surcharge for anyone.
   */
  lemma ConvertingYearOwesNoSurcharge(plan: Plan, age: nat, taxYear: int, y: YearInput, s: PathState, people: nat)
    requires plan.Valid() && y.Valid() && s.Valid(taxYear) && people > 0
    requires plan.conversionCeiling == RothConversion.IrmaaTier
    ensures var row := RetiredYearOf(plan, age, taxYear, y, s).row;
            row.rothConversion > 0.0 ==>
              && plan.conversionEnabled && age < plan.rmdStartAge && !row.insufficientFunds
              && IrmaaAnnualSurcharge(ReportedMagi(plan, row), plan.filingStatus, people) == 0.0
  {
    hide RetiredYearOf;
    hide HeldAfter;
    hide EvaluationOf;
    hide RothConversion.ConversionFor;
    hide IrmaaAnnualSurcharge;
    hide IrmaaFreeMagiCeiling;
    hide Times;
    hide BalanceOf;
    hide PathState.Valid;
    var row := RetiredYearOf(plan, age, taxYear, y, s).row;
    if row.rothConversion > 0.0 {
      var input := ConversionInputOf(plan, age, taxYear, y, Finish(EvaluationOf(plan, age, taxYear, y, s), y.retirementSpending),
                                     HeldAfter(plan, age, taxYear, y, s));
      ConvertingRow(plan, age, taxYear, y, s, input);
      RothConversion.StaysUnderTheIrmaaLine(input);
      SurchargeFreeExactly(ReportedMagi(plan, row), plan.filingStatus, people);
    }
  }

  /** ... and one under a bracket ceiling keeps its taxable income in that bracket. */
  lemma ConvertingYearStaysInTheBracket(plan: Plan, age: nat, taxYear: int, y: YearInput, s: PathState)
    requires plan.Valid() && y.Valid() && s.Valid(taxYear)
    requires plan.conversionCeiling != RothConversion.IrmaaTier
    ensures var row := RetiredYearOf(plan, age, taxYear, y, s).row;
            var top := RothConversion.FilledTop(plan.conversionCeiling, plan.filingStatus);
            row.rothConversion > 0.0 ==>
              && plan.conversionEnabled && age < plan.rmdStartAge && !row.insufficientFunds && top.Some?
              && RetirementTaxableIncome(row.withdrawalTraditional + row.rothConversion, row.income,
                                         Times(row.withdrawalTaxable, plan.taxableGainRatio),
                                         Household(plan.filingStatus, [age]), TaxYear(taxYear, y.frozenScale)) <= top.value
  {
    hide RetiredYearOf;
    hide HeldAfter;
    hide EvaluationOf;
    hide RothConversion.ConversionFor;
    hide RetirementTaxableIncome;
    hide Times;
    hide BalanceOf;
    hide PathState.Valid;
    hide RothConversion.FilledTop;
    var row := RetiredYearOf(plan, age, taxYear, y, s).row;
    if row.rothConversion > 0.0 {
      var input := ConversionInputOf(plan, age, taxYear, y, Finish(EvaluationOf(plan, age, taxYear, y, s), y.retirementSpending),
                                     HeldAfter(plan, age, taxYear, y, s));
      ConvertingRow(plan, age, taxYear, y, s, input);
      RothConversion.StaysInTheBracket(input);
    }
  }

  // ---- The ledger, from the rows -------------------------------------------------------

  /** What a year's row tells the conversion ledger. */
  function LedgerYearOf(plan: Plan, age: nat, taxYear: int, y: YearInput, s: PathState): LedgerYear
    requires plan.Valid() && y.Valid()
  {
    var row := YearOf(plan, age, taxYear, y, s).row;
    if age < plan.retirementAge then LedgerYear(age, false, row.withdrawalRoth, row.depositRoth, false, 0.0)
    else LedgerYear(age, true, row.withdrawalRoth, 0.0, ConversionAt(plan, age, taxYear, y, s).converted > 0.0, row.rothConversion)
  }

  function LedgerYears(plan: Plan, startAge: nat, startYear: int, inputs: seq<YearInput>, s: PathState, i: nat): (years: seq<LedgerYear>)
    requires plan.Valid() && AllValid(inputs) && i <= |inputs|
    ensures |years| == i
  {
    if i == 0 then []
    else LedgerYears(plan, startAge, startYear, inputs, s, i - 1)
         + [LedgerYearOf(plan, startAge + i - 1, startYear + i - 1, inputs[i - 1],
                         StateAt(plan, startAge, startYear, inputs, s, i - 1))]
  }

  lemma RetiredRowIsPositive(plan: Plan, age: nat, taxYear: int, y: YearInput, s: PathState)
    requires plan.Valid() && y.Valid() && s.Valid(taxYear)
    ensures var row := RetiredYearOf(plan, age, taxYear, y, s).row;
            0.0 <= row.withdrawalRoth && 0.0 <= row.rothConversion
  {
    hide Evaluate;
    hide BudgetFor;
    hide Reachable;
    hide Total;
    hide ConversionAt;
    RowReportsTheSolve(plan, age, taxYear, y, s);
    ConversionFitsTheYear(plan, age, taxYear, y, s);
    hide HeldAfter;
    hide RetiredYearOf;
    var grown := GrownAll(s.accounts, y);
    var ctx := RetiredContextOf(plan, age, taxYear, y, s);
    var ledger := StartYear(s.ledger, age, taxYear);
    GrownKeeps(s.accounts, y);
    ContextIsValid(plan, age, taxYear, y, s);
    EvaluationConserves(grown, ledger, BudgetFor(grown, ledger, y.retirementSpending, ctx), ctx);
  }

  /** A year moves the ledger by what its row reports, and by nothing else. */
  lemma LedgerFollowsTheRow(plan: Plan, age: nat, taxYear: int, y: YearInput, s: PathState)
    requires plan.Valid() && y.Valid() && s.Valid(taxYear)
    ensures YearOf(plan, age, taxYear, y, s).next.ledger == YearStep(s.ledger, LedgerYearOf(plan, age, taxYear, y, s), taxYear)
    ensures LedgerYearOf(plan, age, taxYear, y, s).Valid()
  {
    hide PathState.Valid;
    hide StartYear;
    hide Withdraw;
    hide WorkingYearOf;
    hide RetiredYearOf;
    hide ConversionAt;
    hide FundedYear;
    hide Dust;
    hide DepositAll;
    hide HeldAfter;
    hide EvaluationOf;
    hide FlowAfter;
    hide BalanceOf;
    hide GrownAll;
    hide WorkingLedger;
    if age < plan.retirementAge {
      WorkingRowReports(plan, age, taxYear, y, s);
      WorkingBucketsMove(plan, age, taxYear, y, s, Roth);
    } else {
      RowReportsTheSolve(plan, age, taxYear, y, s);
      RetiredRowIsPositive(plan, age, taxYear, y, s);
    }
  }

  /** A path's ledger is its rows replayed from the ledger it started with. */
  lemma {:induction false} PathLedgerFollows(plan: Plan, startAge: nat, startYear: int, inputs: seq<YearInput>, s: PathState, i: nat)
    requires plan.Valid() && AllValid(inputs) && s.Valid(startYear) && i <= |inputs|
    ensures var years := LedgerYears(plan, startAge, startYear, inputs, s, i);
            && StateAt(plan, startAge, startYear, inputs, s, i).ledger == After(s.ledger, years, startYear)
            && forall j | 0 <= j < i :: years[j].Valid()
  {
    hide YearOf;
    hide YearStep;
    hide LedgerYearOf;
    hide PathState.Valid;
    if i > 0 {
      var n := i - 1;
      PathLedgerFollows(plan, startAge, startYear, inputs, s, n);
      PathKeeps(plan, startAge, startYear, inputs, s, n);
      var now := StateAt(plan, startAge, startYear, inputs, s, n);
      LedgerFollowsTheRow(plan, startAge + n, startYear + n, inputs[n], now);
      var before := LedgerYears(plan, startAge, startYear, inputs, s, n);
      var years := LedgerYears(plan, startAge, startYear, inputs, s, i);
      assert years[..n] == before && years[n] == LedgerYearOf(plan, startAge + n, startYear + n, inputs[n], now);
    }
  }

  /**
   * Over any path, from its rows alone: the principal converted in one tax year
   * while the ledger is open is exactly what was charged for, what five tax years
   * or age 60 released, and what the path's ledger still holds.
   */
  lemma PathConversionsAreAccounted(plan: Plan, startAge: nat, startYear: int, inputs: seq<YearInput>, s: PathState, c: int)
    requires plan.Valid() && AllValid(inputs) && s.Valid(startYear) && s.ledger.lots == []
    ensures var years := LedgerYears(plan, startAge, startYear, inputs, s, |inputs|);
            var end := StateAt(plan, startAge, startYear, inputs, s, |inputs|);
            && ChargedOver(s.ledger, years, startYear, c) + ReleasedOver(s.ledger, years, startYear, c)
               + PrincipalFrom(end.ledger.lots, c)
               == ConvertedOpen(s.ledger, years, startYear, c)
            && ChargedOver(s.ledger, years, startYear, c) <= ConvertedIn(years, startYear, c)
  {
    hide YearOf;
    hide LedgerYears;
    hide StateAt;
    hide YearStep;
    PathLedgerFollows(plan, startAge, startYear, inputs, s, |inputs|);
    var years := LedgerYears(plan, startAge, startYear, inputs, s, |inputs|);
    ReachableIsConsistent(s.ledger, startYear);
    ConversionsAreAccounted(s.ledger, years, startYear, c);
    NoDollarPenalizedTwice(s.ledger, years, startYear, c);
  }
}
