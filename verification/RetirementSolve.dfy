// One retirement year's withdrawals: what a voluntary budget is worth after tax,
// and the search for the smallest budget that funds the year.
module RetirementSolve {
  import opened BracketTables
  import opened Domain
  import opened HealthcarePremiums
  import opened IncomeTax
  import opened Options
  import opened Reals
  import opened RothLedger
  import opened TaxTables
  import opened WithdrawalOrder

  const NON_QUALIFIED_HSA_PENALTY_RATE := 0.20
  const TOLERANCE := 1.0
  const BISECTION_STEPS: nat := 48

  datatype WithdrawalContext = WithdrawalContext(
    household: Household,
    state: State,
    taxYear: TaxYear,
    age: nat,
    socialSecurityBenefit: real,
    rmdAmount: real,
    taxableGainRatio: real,
    hsaQualifiedAllowance: real,
    magiTarget: Option<MagiTarget>)
  {
    predicate Valid() {
      && household.Valid() && taxYear.Valid()
      && 0.0 <= socialSecurityBenefit && 0.0 <= rmdAmount
      && 0.0 <= taxableGainRatio <= 1.0 && 0.0 <= hsaQualifiedAllowance
    }
  }

  datatype Evaluation = Evaluation(
    balances: seq<real>,
    withdrawalTaxable: real,
    withdrawalTraditional: real,
    withdrawalRoth: real,
    withdrawalHsa: real,
    totalWithdrawn: real,
    totalTaxes: real,
    cash: real,
    hsaQualifiedUsed: real)

  datatype WithdrawalResult = WithdrawalResult(
    withdrawalTaxable: real,
    withdrawalTraditional: real,
    withdrawalRoth: real,
    withdrawalHsa: real,
    totalWithdrawn: real,
    totalTaxes: real,
    insufficientFunds: bool,
    depositTaxable: real,
    hsaQualifiedUsed: real)

  // ---- Specification -------------------------------------------------------

  function PenaltiesOn(traditional: real, nonQualifiedHsa: real, rothPenalty: real, age: nat): real {
    (if age < TRADITIONAL_PENALTY_AGE then traditional * EARLY_TRADITIONAL_PENALTY_RATE else 0.0)
    + (if age < MEDICARE_AGE then nonQualifiedHsa * NON_QUALIFIED_HSA_PENALTY_RATE else 0.0)
    + rothPenalty
  }

  /** The forced distribution, taken before anything voluntary. */
  function Forced(accounts: seq<Account>, ctx: WithdrawalContext): (leg: Leg)
    ensures |leg.left| == |accounts|
  {
    DrawLeg(accounts, Balances(accounts), Traditional, ctx.rmdAmount)
  }

  function TargetAt(ctx: WithdrawalContext, forced: real): Option<MagiTarget> {
    match ctx.magiTarget
    case None => None
    case Some(t) => Some(t.(committedMagi := ctx.socialSecurityBenefit + forced))
  }

  function Voluntary(accounts: seq<Account>, budget: real, ctx: WithdrawalContext): (o: OrderOutcome)
    ensures |o.left| == |accounts|
  {
    var forced := Forced(accounts, ctx);
    Order(accounts, forced.left, budget, ctx.age, ctx.taxableGainRatio, TargetAt(ctx, forced.drawn))
  }

  /** Everything a year owes once its withdrawals are settled. */
  function Assess(forced: real, drawn: OrderedWithdrawal, left: seq<real>, ledger: Ledger, ctx: WithdrawalContext): Evaluation {
    var traditional := forced + drawn.traditional;
    var qualifiedUsed := Min(drawn.hsa, ctx.hsaQualifiedAllowance);
    var nonQualified := drawn.hsa - qualifiedUsed;
    var tax := RetirementTax(traditional + nonQualified, ctx.socialSecurityBenefit, drawn.taxableGain,
                             ctx.household, ctx.state, ctx.taxYear);
    var penalties := PenaltiesOn(traditional, nonQualified, ConversionPenalty(ledger, drawn.roth, ctx.age), ctx.age);
    var total := drawn.taxable + traditional + drawn.roth + drawn.hsa;
    Evaluation(left, drawn.taxable, traditional, drawn.roth, drawn.hsa, total, tax + penalties,
               ctx.socialSecurityBenefit + total - (tax + penalties), qualifiedUsed)
  }

  function Evaluate(accounts: seq<Account>, ledger: Ledger, budget: real, ctx: WithdrawalContext): (e: Evaluation)
    ensures |e.balances| == |accounts|
  {
    var o := Voluntary(accounts, budget, ctx);
    Assess(Forced(accounts, ctx).drawn, o.drawn, o.left, ledger, ctx)
  }

  function Cash(accounts: seq<Account>, ledger: Ledger, budget: real, ctx: WithdrawalContext): real {
    Evaluate(accounts, ledger, budget, ctx).cash
  }

  /** What a voluntary budget can reach at all: everything the forced draw leaves. */
  function MaxBudget(accounts: seq<Account>, ctx: WithdrawalContext): real {
    Total(Forced(accounts, ctx).left)
  }

  function Finish(e: Evaluation, target: real): WithdrawalResult {
    var difference := e.cash - target;
    WithdrawalResult(e.withdrawalTaxable, e.withdrawalTraditional, e.withdrawalRoth, e.withdrawalHsa,
                     e.totalWithdrawn, e.totalTaxes, difference < -TOLERANCE,
                     if difference > TOLERANCE then difference else 0.0, e.hsaQualifiedUsed)
  }

  function WithBalances(accounts: seq<Account>, balances: seq<real>): seq<Account>
    requires |accounts| == |balances|
  {
    seq(|accounts|, i requires 0 <= i < |accounts| => accounts[i].(balance := balances[i]))
  }

  // ---- After-tax cash is monotone in the budget ----------------------------

  /** The forced distribution alone already makes all of the benefit taxable that ever is. */
  predicate BenefitPhasedIn(accounts: seq<Account>, ctx: WithdrawalContext) {
    TaxableSocialSecurity(Forced(accounts, ctx).drawn, ctx.socialSecurityBenefit, 0.0, ctx.household.filingStatus, ctx.taxYear)
    == 0.85 * ctx.socialSecurityBenefit
  }

  /**
   * When the marginal rate provably stays under one: from Medicare age on no
   * penalty is left; with no benefit, or one already taxed as far as it goes,
   * there is no phase-in to multiply the rate; and otherwise no HSA dollar may be
   * taken past the allowance.
   */
  predicate MarginUnderOne(accounts: seq<Account>, ctx: WithdrawalContext) {
    || ctx.age >= MEDICARE_AGE
    || ctx.socialSecurityBenefit == 0.0
    || BenefitPhasedIn(accounts, ctx)
    || (ctx.age >= TRADITIONAL_PENALTY_AGE
        && Available(accounts, Forced(accounts, ctx).left, Hsa) <= ctx.hsaQualifiedAllowance)
  }

  lemma ForcedLeaves(accounts: seq<Account>, ctx: WithdrawalContext)
    requires Solvent(accounts)
    ensures NonNegative(Forced(accounts, ctx).left) && 0.0 <= Forced(accounts, ctx).drawn
    ensures Total(Forced(accounts, ctx).left) == Total(Balances(accounts)) - Forced(accounts, ctx).drawn
  {
    LegConserves(accounts, Balances(accounts), Traditional, ctx.rmdAmount);
  }

  /** Two draws compared: more of every bucket, and gains that keep within the taxable leg. */
  predicate DrawsMore(a: OrderedWithdrawal, b: OrderedWithdrawal) {
    && 0.0 <= a.taxable <= b.taxable && 0.0 <= a.traditional <= b.traditional
    && 0.0 <= a.roth <= b.roth && 0.0 <= a.hsa <= b.hsa
    && 0.0 <= a.taxableGain && 0.0 <= b.taxableGain - a.taxableGain <= b.taxable - a.taxable
  }

  /** Taxes and penalties together never fall, for any household at any age. */
  lemma TaxesRise(forced: real, a: OrderedWithdrawal, b: OrderedWithdrawal, left: seq<real>, left2: seq<real>,
                  ledger: Ledger, ctx: WithdrawalContext)
    requires ctx.Valid() && Consistent(ledger) && DrawsMore(a, b)
    ensures Assess(forced, a, left, ledger, ctx).totalTaxes <= Assess(forced, b, left2, ledger, ctx).totalTaxes
  {
    hide RetirementTax;
    hide ConversionPenalty;
    hide Consistent;
    var na := a.hsa - Min(a.hsa, ctx.hsaQualifiedAllowance);
    var nb := b.hsa - Min(b.hsa, ctx.hsaQualifiedAllowance);
    RetirementTaxSlope(ctx.household, ctx.state, ctx.taxYear, ctx.socialSecurityBenefit,
                       forced + a.traditional + na, a.taxableGain, forced + b.traditional + nb, b.taxableGain);
    PenaltySlope(ledger, a.roth, b.roth, ctx.age);
  }

  /** ... and under the margin condition they rise by no more than the draw. */
  lemma TaxesRiseSlower(forced: real, a: OrderedWithdrawal, b: OrderedWithdrawal, left: seq<real>, left2: seq<real>,
                        ledger: Ledger, ctx: WithdrawalContext)
    requires ctx.Valid() && Consistent(ledger) && DrawsMore(a, b)
    requires 0.0 <= forced
    requires || ctx.age >= MEDICARE_AGE
             || TaxableSocialSecurity(forced, ctx.socialSecurityBenefit, 0.0, ctx.household.filingStatus, ctx.taxYear)
                == 0.85 * ctx.socialSecurityBenefit
             || (ctx.age >= TRADITIONAL_PENALTY_AGE && b.hsa <= ctx.hsaQualifiedAllowance)
    ensures Assess(forced, b, left2, ledger, ctx).totalTaxes - Assess(forced, a, left, ledger, ctx).totalTaxes
         <= Assess(forced, b, left2, ledger, ctx).totalWithdrawn - Assess(forced, a, left, ledger, ctx).totalWithdrawn
  {
    hide RetirementTax;
    hide Consistent;
    hide TaxableSocialSecurity;
    var na := a.hsa - Min(a.hsa, ctx.hsaQualifiedAllowance);
    var nb := b.hsa - Min(b.hsa, ctx.hsaQualifiedAllowance);
    SocialSecuritySlope(ctx.household.filingStatus, ctx.taxYear, ctx.socialSecurityBenefit,
                        forced, 0.0, forced + a.traditional + na, a.taxableGain);
    RetirementTaxSlope(ctx.household, ctx.state, ctx.taxYear, ctx.socialSecurityBenefit,
                       forced + a.traditional + na, a.taxableGain, forced + b.traditional + nb, b.taxableGain);
    PenaltySlope(ledger, a.roth, b.roth, ctx.age);
    LatePenalty(ledger, a.roth, b.roth, ctx.age);
    hide ConversionPenalty;
  }

  lemma LatePenalty(ledger: Ledger, w: real, w2: real, age: nat)
    ensures age >= TRADITIONAL_PENALTY_AGE ==> ConversionPenalty(ledger, w, age) == 0.0 == ConversionPenalty(ledger, w2, age)
  {
  }

  lemma VoluntaryDraws(accounts: seq<Account>, less: real, more: real, ctx: WithdrawalContext)
    requires Solvent(accounts) && ctx.Valid() && less <= more
    ensures DrawsMore(Voluntary(accounts, less, ctx).drawn, Voluntary(accounts, more, ctx).drawn)
    ensures Voluntary(accounts, less, ctx).drawn.total == Min(Pos(less), MaxBudget(accounts, ctx))
    ensures Voluntary(accounts, more, ctx).drawn.total == Min(Pos(more), MaxBudget(accounts, ctx))
    ensures Voluntary(accounts, more, ctx).drawn.hsa <= Available(accounts, Forced(accounts, ctx).left, Hsa)
  {
    hide Order;
    hide Forced;
    hide Total;
    hide NonNegative;
    hide Available;
    hide Times;
    var forced := Forced(accounts, ctx);
    var target := TargetAt(ctx, forced.drawn);
    ForcedLeaves(accounts, ctx);
    EveryLegRises(accounts, forced.left, less, more, ctx.age, ctx.taxableGainRatio, target);
    GainWithinDraw(accounts, forced.left, less, ctx.age, ctx.taxableGainRatio, target);
    OrderRaisesWhatItCan(accounts, forced.left, less, ctx.age, ctx.taxableGainRatio, target);
    OrderRaisesWhatItCan(accounts, forced.left, more, ctx.age, ctx.taxableGainRatio, target);
    HsaLeg(accounts, forced.left, more, ctx.age, ctx.taxableGainRatio, target);
  }

  lemma HsaLeg(accounts: seq<Account>, balances: seq<real>, amount: real, age: nat, gainRatio: real, target: Option<MagiTarget>)
    requires |accounts| == |balances|
    ensures Order(accounts, balances, amount, age, gainRatio, target).drawn.hsa <= Available(accounts, balances, Hsa)
  {
    hide Order;
    hide TraditionalHeadroom;
    hide Available;
    OrderIsLegs(accounts, balances, amount, age, gainRatio, target);
  }

  /** A dollar of budget never buys more than a dollar of cash, at any age. */
  lemma CashRisesAtMostOneForOne(accounts: seq<Account>, ledger: Ledger, less: real, more: real, ctx: WithdrawalContext)
    requires Solvent(accounts) && ctx.Valid() && Consistent(ledger) && 0.0 <= less <= more
    ensures Cash(accounts, ledger, more, ctx) - Cash(accounts, ledger, less, ctx) <= more - less
    ensures Evaluate(accounts, ledger, less, ctx).totalTaxes <= Evaluate(accounts, ledger, more, ctx).totalTaxes
  {
    hide Voluntary;
    hide Forced;
    hide Consistent;
    hide RetirementTax;
    hide ConversionPenalty;
    var a, b := Voluntary(accounts, less, ctx), Voluntary(accounts, more, ctx);
    VoluntaryDraws(accounts, less, more, ctx);
    TotalOfLegs(accounts, less, ctx);
    TotalOfLegs(accounts, more, ctx);
    TaxesRise(Forced(accounts, ctx).drawn, a.drawn, b.drawn, a.left, b.left, ledger, ctx);
  }

  lemma TotalOfLegs(accounts: seq<Account>, budget: real, ctx: WithdrawalContext)
    ensures var d := Voluntary(accounts, budget, ctx).drawn;
            d.total == d.taxable + d.traditional + d.roth + d.hsa
  {
    hide DrawLeg;
    hide Forced;
    hide GainDrawn;
    hide TraditionalHeadroom;
  }

  /**
   * After-tax cash is nondecreasing in the voluntary budget, whatever the
   * accounts, the ledger and the ceiling: no household is made poorer by drawing
   * more, as long as the margin condition holds.
   */
  lemma CashNeverFalls(accounts: seq<Account>, ledger: Ledger, less: real, more: real, ctx: WithdrawalContext)
    requires Solvent(accounts) && ctx.Valid() && Consistent(ledger) && less <= more
    requires MarginUnderOne(accounts, ctx)
    ensures Cash(accounts, ledger, less, ctx) <= Cash(accounts, ledger, more, ctx)
  {
    hide Voluntary;
    hide Forced;
    hide Consistent;
    hide RetirementTax;
    hide ConversionPenalty;
    hide Available;
    hide TaxableSocialSecurity;
    var a, b := Voluntary(accounts, less, ctx), Voluntary(accounts, more, ctx);
    VoluntaryDraws(accounts, less, more, ctx);
    ForcedLeaves(accounts, ctx);
    SocialSecuritySlope(ctx.household.filingStatus, ctx.taxYear, ctx.socialSecurityBenefit,
                        Forced(accounts, ctx).drawn, 0.0, Forced(accounts, ctx).drawn, 0.0);
    TaxesRiseSlower(Forced(accounts, ctx).drawn, a.drawn, b.drawn, a.left, b.left, ledger, ctx);
  }

  // ---- Exactly when it is ----------------------------------------------------

  const EARLIEST_CLAIM_AGE: nat := 62

  /** Inputs a year can really have: no benefit is paid before the earliest age it can be claimed. */
  predicate CanOccur(accounts: seq<Account>, ledger: Ledger, ctx: WithdrawalContext) {
    && Solvent(accounts) && ctx.Valid() && Consistent(ledger)
    && (ctx.age < EARLIEST_CLAIM_AGE ==> ctx.socialSecurityBenefit == 0.0)
  }

  /** Cash is monotone at this age for every household, portfolio, ledger and budget. */
  ghost predicate AlwaysMonotone(age: nat) {
    forall accounts: seq<Account>, ledger: Ledger, ctx: WithdrawalContext, less: real, more: real ::
      CanOccur(accounts, ledger, ctx) && ctx.age == age && less <= more ==>
        Cash(accounts, ledger, less, ctx) <= Cash(accounts, ledger, more, ctx)
  }

  /**
   * The source calls the function monotone outright. It is, for every input of
   * an age, exactly before a benefit can be claimed and from Medicare age on: in
   * between, a benefit large enough to be phasing in at the top of both tables
   * plus the 20% HSA penalty costs more than a dollar on the dollar.
   */
  lemma MonotoneExactlyOutsideTheGap(age: nat)
    ensures AlwaysMonotone(age) <==> age < EARLIEST_CLAIM_AGE || age >= MEDICARE_AGE
  {
    hide Cash;
    if age < EARLIEST_CLAIM_AGE || age >= MEDICARE_AGE {
      forall accounts: seq<Account>, ledger: Ledger, ctx: WithdrawalContext, less: real, more: real
        | CanOccur(accounts, ledger, ctx) && ctx.age == age && less <= more
        ensures Cash(accounts, ledger, less, ctx) <= Cash(accounts, ledger, more, ctx)
      {
        OutsideTheGap(accounts, ledger, less, more, ctx);
      }
    } else {
      var accounts, ledger, ctx := HsaOnly(), Ledger(false, 0.0, [], 0.0), LargeBenefit(age);
      CashFalls(age);
      assert CanOccur(accounts, ledger, ctx);
    }
  }

  lemma OutsideTheGap(accounts: seq<Account>, ledger: Ledger, less: real, more: real, ctx: WithdrawalContext)
    requires CanOccur(accounts, ledger, ctx) && less <= more
    requires ctx.age < EARLIEST_CLAIM_AGE || ctx.age >= MEDICARE_AGE
    ensures Cash(accounts, ledger, less, ctx) <= Cash(accounts, ledger, more, ctx)
  {
    hide Cash;
    hide BenefitPhasedIn;
    hide Forced;
    hide Available;
    hide Consistent;
    CashNeverFalls(accounts, ledger, less, more, ctx);
  }

  function HsaOnly(): seq<Account> {
    [Account(Hsa, 1020000.0, AssetWeights(0.6, 0.4), false)]
  }

  function LargeBenefit(age: nat): WithdrawalContext {
    WithdrawalContext(Household(Single, [age]), CA, TaxYear(2025, 1.0), age, 2000000.0, 0.0, 0.0, 0.0, None)
  }

  /** A single Californian under 65 with a two-million-dollar benefit and no allowance left. */
  lemma CashFalls(age: nat)
    requires age < MEDICARE_AGE
    ensures Cash(HsaOnly(), Ledger(false, 0.0, [], 0.0), 1020000.0, LargeBenefit(age))
          < Cash(HsaOnly(), Ledger(false, 0.0, [], 0.0), 1010000.0, LargeBenefit(age))
  {
    var accounts, ledger, ctx := HsaOnly(), Ledger(false, 0.0, [], 0.0), LargeBenefit(age);
    HsaOnlyPays(accounts, ledger, 1010000.0, ctx);
    HsaOnlyPays(accounts, ledger, 1020000.0, ctx);
    TopOfEveryTable(age);
    hide Cash;
    hide RetirementTax;
  }

  /** With one HSA and no allowance, a draw is income and is charged the penalty. */
  lemma HsaOnlyPays(accounts: seq<Account>, ledger: Ledger, budget: real, ctx: WithdrawalContext)
    requires |accounts| == 1 && accounts[0].accountType == Hsa && 0.0 <= budget <= accounts[0].balance
    requires ctx.rmdAmount == 0.0 && ctx.taxableGainRatio == 0.0 && ctx.hsaQualifiedAllowance == 0.0
    requires ctx.magiTarget.None? && !ledger.enabled && ctx.age < MEDICARE_AGE
    ensures Cash(accounts, ledger, budget, ctx)
         == ctx.socialSecurityBenefit + budget - budget * NON_QUALIFIED_HSA_PENALTY_RATE
            - RetirementTax(budget, ctx.socialSecurityBenefit, 0.0, ctx.household, ctx.state, ctx.taxYear)
  {
    hide RetirementTax;
    HsaOnlyForced(accounts, ctx);
    HsaOnlyDrawn(accounts, budget, ctx);
    hide Forced;
    hide Voluntary;
  }

  lemma HsaOnlyForced(accounts: seq<Account>, ctx: WithdrawalContext)
    requires ctx.rmdAmount == 0.0
    ensures Forced(accounts, ctx) == Leg(0.0, Balances(accounts))
  {
    hide DrawDown;
    DrawNothing(accounts, Balances(accounts), Traditional, 0.0);
    AvailableNonNegative(accounts, Balances(accounts), Traditional);
    hide Available;
  }

  lemma AvailableNonNegative(accounts: seq<Account>, balances: seq<real>, ty: AccountType)
    requires |accounts| == |balances|
    ensures 0.0 <= Available(accounts, balances, ty)
  {
  }

  lemma HsaOnlyDrawn(accounts: seq<Account>, budget: real, ctx: WithdrawalContext)
    requires |accounts| == 1 && accounts[0].accountType == Hsa && 0.0 <= budget <= accounts[0].balance
    requires ctx.rmdAmount == 0.0 && ctx.taxableGainRatio == 0.0 && ctx.magiTarget.None?
    ensures Voluntary(accounts, budget, ctx).drawn == OrderedWithdrawal(0.0, 0.0, 0.0, budget, budget, 0.0)
  {
    hide Order;
    HsaOnlyForced(accounts, ctx);
    var balances := Balances(accounts);
    HsaOnlyHolds(accounts, balances);
    OrderIsLegs(accounts, balances, budget, ctx.age, 0.0, None);
    GainWithinDraw(accounts, balances, budget, ctx.age, 0.0, None);
    hide Available;
    hide Forced;
    hide Balances;
  }

  lemma HsaOnlyHolds(accounts: seq<Account>, balances: seq<real>)
    requires |accounts| == |balances| == 1 && accounts[0].accountType == Hsa && 0.0 <= balances[0]
    ensures Available(accounts, balances, Hsa) == balances[0]
    ensures forall ty :: ty != Hsa ==> Available(accounts, balances, ty) == 0.0
  {
    assert accounts[1..] == [] && balances[1..] == [];
    forall ty
      ensures Available(accounts, balances, ty) == if ty == Hsa then balances[0] else 0.0
    {
      assert Available(accounts[1..], balances[1..], ty) == 0.0;
    }
  }

  /** Between the two budgets both tables are in their top bracket and the benefit is still phasing in. */
  lemma TopOfEveryTable(age: nat)
    requires age < MEDICARE_AGE
    ensures var h := Household(Single, [age]);
            var y := TaxYear(2025, 1.0);
            RetirementTax(1020000.0, 2000000.0, 0.0, h, CA, y) - RetirementTax(1010000.0, 2000000.0, 0.0, h, CA, y)
            == 10000.0 * (0.37 * 1.85 + 0.133)
  {
    hide TaxBelow;
    var h := Household(Single, [age]);
    var y := TaxYear(2025, 1.0);
    assert h.ages[1..] == [] && h.Seniors() == 0;
    FederalTable(Single);
    GainsTable(Single);
    CaliforniaTable(Single);
    var s := TaxableSocialSecurity(1010000.0, 2000000.0, 0.0, Single, y);
    assert s == (2010000.0 - 34000.0) * 0.85 + 4500.0;
    var s2 := TaxableSocialSecurity(1020000.0, 2000000.0, 0.0, Single, y);
    assert s2 == s + 8500.0;
    var x := 1010000.0 + s - 15750.0;
    FederalTaxIsStacked(1010000.0 + s, 0.0, 15750.0, Single, y);
    FederalTaxIsStacked(1020000.0 + s2, 0.0, 15750.0, Single, y);
    assert FederalBrackets(Single)[6] == Bracket(626350.0, None, 0.37);
    WithinBracket(FederalBrackets(Single), 6, x, x + 18500.0);
    assert CaliforniaBrackets(Single)[9] == Bracket(1000000.0, None, 0.133);
    WithinBracket(CaliforniaBrackets(Single), 9, 1010000.0 - 5706.0, 1020000.0 - 5706.0);
  }

  // ---- What an evaluation reports ----------------------------------------------

  /** Every taxable dollar was invested once. */
  predicate Invested(accounts: seq<Account>) {
    forall a | a in accounts && a.accountType == Taxable :: !a.isSurplusCash
  }

  /** None was: what taxable holds is reinvested surplus. */
  predicate Uninvested(accounts: seq<Account>) {
    forall a | a in accounts && a.accountType == Taxable :: a.isSurplusCash
  }

  /** The gain a year reports on what it sold. */
  function GainOn(accounts: seq<Account>, sold: real, gainRatio: real): real {
    if Uninvested(accounts) then 0.0 else Times(sold, gainRatio)
  }

  /**
   * What a year owes, read off what it reports: tax on its Traditional dollars,
   * the HSA dollars past the allowance and the gain on what it sold; a tenth of
   * the Traditional before 60, a fifth of the unqualified HSA before 65, and the
   * charge on converted principal. The allowance covers HSA dollars first.
   */
  lemma EvaluationIsTaxed(accounts: seq<Account>, ledger: Ledger, budget: real, ctx: WithdrawalContext)
    requires Solvent(accounts) && ctx.Valid() && (Invested(accounts) || Uninvested(accounts))
    ensures var e := Evaluate(accounts, ledger, budget, ctx);
            var unqualified := Pos(e.withdrawalHsa - ctx.hsaQualifiedAllowance);
            && e.totalTaxes
               == RetirementTax(e.withdrawalTraditional + unqualified, ctx.socialSecurityBenefit,
                                GainOn(accounts, e.withdrawalTaxable, ctx.taxableGainRatio),
                                ctx.household, ctx.state, ctx.taxYear)
                  + (if ctx.age < 60 then 0.1 * e.withdrawalTraditional else 0.0)
                  + (if ctx.age < 65 then 0.2 * unqualified else 0.0)
                  + ConversionPenalty(ledger, e.withdrawalRoth, ctx.age)
            && e.hsaQualifiedUsed == e.withdrawalHsa - unqualified
  {
    hide RetirementTax;
    hide ConversionPenalty;
    hide Order;
    hide Times;
    hide GainDrawn;
    hide TargetAt;
    var forced := Forced(accounts, ctx);
    hide Forced;
    var target := TargetAt(ctx, forced.drawn);
    TaxableLeg(accounts, forced.left, budget, ctx.age, ctx.taxableGainRatio, target);
    GainIsShare(accounts, forced.left, Pos(budget), ctx.taxableGainRatio);
    GainOfOrder(accounts, forced.left, budget, ctx.age, ctx.taxableGainRatio, target);
    hide Available;
  }

  /** HSA dollars are qualified as far as the allowance reaches. */
  lemma QualifiedUse(accounts: seq<Account>, ledger: Ledger, budget: real, ctx: WithdrawalContext)
    ensures var e := Evaluate(accounts, ledger, budget, ctx);
            e.hsaQualifiedUsed == Min(e.withdrawalHsa, ctx.hsaQualifiedAllowance)
  {
    hide Forced;
    hide Voluntary;
    hide RetirementTax;
    hide ConversionPenalty;
  }

  lemma GainOfOrder(accounts: seq<Account>, balances: seq<real>, amount: real, age: nat, gainRatio: real,
                    target: Option<MagiTarget>)
    requires |accounts| == |balances|
    ensures Order(accounts, balances, amount, age, gainRatio, target).drawn.taxableGain
         == GainDrawn(accounts, balances, Pos(amount), gainRatio)
  {
    hide DrawLeg;
    hide GainDrawn;
    hide TraditionalHeadroom;
  }

  /**
   * The year's draws aim at the band a premium test will read: Roth goes while
   * Traditional is left only when a band exists and the income the year reports
   * (its benefit, its Traditional dollars, forced ones included, and the gain on
   * what it sold) has reached the ceiling, and past it only once Roth is dry.
   */
  lemma YearAimsAtTheBand(accounts: seq<Account>, ledger: Ledger, budget: real, ctx: WithdrawalContext)
    ensures var e := Evaluate(accounts, ledger, budget, ctx);
            var balances := Balances(accounts);
            var traditionalLeft := e.withdrawalTraditional < Available(accounts, balances, Traditional);
            if ctx.magiTarget.None? then e.withdrawalRoth > 0.0 ==> !traditionalLeft
            else
              var t := ctx.magiTarget.value;
              var committed := ctx.socialSecurityBenefit + Forced(accounts, ctx).drawn
                               + Times(e.withdrawalTaxable, ctx.taxableGainRatio);
              var magi := ctx.socialSecurityBenefit + e.withdrawalTraditional
                          + Times(e.withdrawalTaxable, ctx.taxableGainRatio);
              var band := MagiBandFor(ctx.age, t.retirementAge, t.filingStatus, t.householdSize, committed, t.healthcare);
              && (e.withdrawalRoth > 0.0 && traditionalLeft ==> band.Some? && magi >= band.value.ceiling)
              && (band.Some? && magi > band.value.ceiling ==>
                    || e.withdrawalTraditional == Forced(accounts, ctx).drawn
                    || e.withdrawalRoth == Available(accounts, balances, Roth))
  {
    hide RetirementTax;
    hide ConversionPenalty;
    hide Order;
    hide Times;
    hide MagiBandFor;
    hide Available;
    var balances := Balances(accounts);
    var forced := Forced(accounts, ctx);
    LegLeaves(accounts, balances, Traditional, ctx.rmdAmount, Traditional);
    LegLeaves(accounts, balances, Traditional, ctx.rmdAmount, Roth);
    hide DrawLeg;
    RothOnlyAtTheCeiling(accounts, forced.left, budget, ctx.age, ctx.taxableGainRatio, TargetAt(ctx, forced.drawn));
  }

  /** What an evaluation reports as withdrawn from one bucket. */
  function WithdrawnFrom(e: Evaluation, ty: AccountType): real {
    match ty
    case Taxable => e.withdrawalTaxable
    case Traditional => e.withdrawalTraditional
    case Roth => e.withdrawalRoth
    case Hsa => e.withdrawalHsa
  }

  /** Bucket by bucket, the forced distribution included, the balances fall by what is reported. */
  lemma EvaluationLeaves(accounts: seq<Account>, ledger: Ledger, budget: real, ctx: WithdrawalContext, ty: AccountType)
    ensures var e := Evaluate(accounts, ledger, budget, ctx);
            && Available(accounts, e.balances, ty) == Available(accounts, Balances(accounts), ty) - WithdrawnFrom(e, ty)
            && e.withdrawalTraditional >= Min(Pos(ctx.rmdAmount), Available(accounts, Balances(accounts), Traditional))
  {
    hide RetirementTax;
    hide ConversionPenalty;
    hide Order;
    hide Available;
    hide TargetAt;
    var balances := Balances(accounts);
    var forced := Forced(accounts, ctx);
    var target := TargetAt(ctx, forced.drawn);
    LegLeaves(accounts, balances, Traditional, ctx.rmdAmount, ty);
    LegDraws(accounts, balances, Traditional, ctx.rmdAmount);
    hide DrawLeg;
    OrderTakesWhatItReports(accounts, forced.left, budget, ctx.age, ctx.taxableGainRatio, target, ty);
    TraditionalIsPositive(accounts, forced.left, budget, ctx.age, ctx.taxableGainRatio, target);
  }

  lemma TraditionalIsPositive(accounts: seq<Account>, balances: seq<real>, amount: real, age: nat, gainRatio: real,
                              target: Option<MagiTarget>)
    requires |accounts| == |balances|
    ensures 0.0 <= Order(accounts, balances, amount, age, gainRatio, target).drawn.traditional
  {
    hide Order;
    hide TraditionalHeadroom;
    hide Available;
    OrderIsLegs(accounts, balances, amount, age, gainRatio, target);
  }

  // ---- The ceiling changes the composition only ------------------------------

  /** With everything drawn there is nothing left for the ceiling to arrange. */
  lemma DrainIgnoresCeiling(accounts: seq<Account>, ledger: Ledger, ctx: WithdrawalContext, budget: real)
    requires Solvent(accounts) && ctx.Valid() && MaxBudget(accounts, ctx) <= budget
    ensures Cash(accounts, ledger, budget, ctx) == Cash(accounts, ledger, budget, ctx.(magiTarget := None))
  {
    hide Order;
    hide Forced;
    hide Total;
    hide NonNegative;
    hide RetirementTax;
    hide ConversionPenalty;
    var plain := ctx.(magiTarget := None);
    SameForced(accounts, ctx);
    ForcedLeaves(accounts, ctx);
    var forced := Forced(accounts, ctx);
    FullDrainIgnoresCeiling(accounts, forced.left, budget, ctx.age, ctx.taxableGainRatio, TargetAt(ctx, forced.drawn));
  }

  lemma SameForced(accounts: seq<Account>, ctx: WithdrawalContext)
    ensures Forced(accounts, ctx.(magiTarget := None)) == Forced(accounts, ctx)
  {
  }

  // ---- The solver ------------------------------------------------------------

  /** A budget is enough when it lands within tolerance of the target. */
  predicate Funds(accounts: seq<Account>, ledger: Ledger, budget: real, ctx: WithdrawalContext, target: real) {
    Cash(accounts, ledger, budget, ctx) + TOLERANCE >= target
  }

  /** A width after `k` halvings. */
  function Halved(width: real, k: nat): real {
    if k == 0 then width else Halved(width, k - 1) / 2.0
  }

  /** Forty-eight halvings leave a width under one part in 2.8 * 10^14. */
  lemma AllHalvings(width: real)
    ensures Halved(width, BISECTION_STEPS) == width / 281474976710656.0
  {
    EightHalvings(width, 0);
    EightHalvings(width, 8);
    EightHalvings(width, 16);
    EightHalvings(width, 24);
    EightHalvings(width, 32);
    EightHalvings(width, 40);
    assert Halved(width, 0) == width;
    hide Halved;
  }

  lemma EightHalvings(width: real, k: nat)
    ensures Halved(width, k + 8) == Halved(width, k) / 256.0
  {
    assert Halved(width, k + 4) == Halved(width, k) / 16.0 by {
      assert Halved(width, k + 2) == Halved(width, k) / 4.0;
    }
    assert Halved(width, k + 6) == Halved(width, k + 4) / 4.0;
  }

  /** Doubling the upper end until it funds the year or is everything there is. */
  function Doubled(accounts: seq<Account>, ledger: Ledger, ctx: WithdrawalContext, target: real, low: real, high: real,
                   most: real): (real, real)
    requires 0.0 < high <= most
    decreases if high < most then (most / high).Floor else 0
  {
    if !Funds(accounts, ledger, high, ctx, target) && high < most then
      DoublingFits(high, most);
      Doubled(accounts, ledger, ctx, target, high, Min(most, high * 2.0), most)
    else (low, high)
  }

  predicate Close(accounts: seq<Account>, ledger: Ledger, budget: real, ctx: WithdrawalContext, target: real) {
    -TOLERANCE <= Cash(accounts, ledger, budget, ctx) - target <= TOLERANCE
  }

  /** Halving the bracket, keeping an upper end that funds the year, until it lands close. */
  function Bisected(accounts: seq<Account>, ledger: Ledger, ctx: WithdrawalContext, target: real, low: real, high: real,
                    step: nat): real
    requires step <= BISECTION_STEPS
    decreases BISECTION_STEPS - step
  {
    if step == BISECTION_STEPS || Close(accounts, ledger, high, ctx, target) then high
    else
      var midpoint := (low + high) / 2.0;
      if Funds(accounts, ledger, midpoint, ctx, target)
      then Bisected(accounts, ledger, ctx, target, low, midpoint, step + 1)
      else Bisected(accounts, ledger, ctx, target, midpoint, high, step + 1)
  }

  /** The voluntary budget the solver settles on. */
  function BudgetFor(accounts: seq<Account>, ledger: Ledger, target: real, ctx: WithdrawalContext): real {
    var most := MaxBudget(accounts, ctx);
    if Funds(accounts, ledger, 0.0, ctx, target) || most <= 0.0 then 0.0
    else
      var start := Min(most, Max((target - Cash(accounts, ledger, 0.0, ctx)) * 2.0, 1.0));
      var (low, high) := Doubled(accounts, ledger, ctx, target, 0.0, start, most);
      if Funds(accounts, ledger, high, ctx, target) then Bisected(accounts, ledger, ctx, target, low, high, 0) else high
  }

  /** Shadow balances, the forced draw, the voluntary order, then tax and penalties. */
  method EvaluateOrderedWithdrawals(accounts: seq<Account>, ledger: Ledger, budget: real, ctx: WithdrawalContext)
    returns (e: Evaluation)
    ensures e == Evaluate(accounts, ledger, budget, ctx)
  {
    hide Order;
    hide RetirementTax;
    hide ConversionPenalty;
    var was := Balances(accounts);
    var balances := new real[|accounts|](i requires 0 <= i < |accounts| => accounts[i].balance);
    assert balances[..] == was;
    var forced := DrawBucketBalances(accounts, balances, Traditional, ctx.rmdAmount);
    assert forced == Forced(accounts, ctx).drawn && balances[..] == Forced(accounts, ctx).left;
    hide DrawLeg;
    var voluntary := ApplyWithdrawalOrder(accounts, balances, budget, ctx.age, ctx.taxableGainRatio, TargetAt(ctx, forced));
    e := Assess(forced, voluntary, balances[..], ledger, ctx);
  }

  /** Commit an evaluation to the accounts and the ledger. */
  method FinishOrderedWithdrawals(accounts: seq<Account>, basis: RothBasisState, e: Evaluation, target: real)
    returns (r: WithdrawalResult, after: seq<Account>)
    requires |e.balances| == |accounts|
    modifies basis
    ensures r == Finish(e, target) && after == WithBalances(accounts, e.balances)
    ensures basis.View() == Withdraw(old(basis.View()), e.withdrawalRoth)
  {
    after := WithBalances(accounts, e.balances);
    basis.CommitWithdrawal(e.withdrawalRoth);
    r := Finish(e, target);
  }

  /** Doubling's termination measure: how many times `high` still fits in `most`. */
  lemma DoublingFits(high: real, most: real)
    requires 0.0 < high < most
    ensures (most / (high * 2.0)).Floor < (most / high).Floor
    ensures 0 <= (most / (high * 2.0)).Floor
  {
    var z := most / high;
    assert z > 1.0;
    assert most / (high * 2.0) == z / 2.0;
    assert (z / 2.0).Floor as real <= z / 2.0;
    assert z < z.Floor as real + 1.0;
  }

  /**
   * Fund a year: take the forced distribution, then double and bisect the
   * voluntary budget. Under the margin condition a year is declared unfunded
   * exactly when draining every bucket would not fund it; a funded year is never
   * more than the tolerance short; and a voluntary draw overshoots by more than
   * the tolerance only by what 48 halvings of the bracket leave.
   */
  method ExecuteOrderedWithdrawals(target: real, accounts: seq<Account>, basis: RothBasisState, ctx: WithdrawalContext)
    returns (r: WithdrawalResult, after: seq<Account>, ghost budget: real, ghost width: real)
    requires Solvent(accounts) && ctx.Valid() && Consistent(basis.View())
    modifies basis
    ensures budget == BudgetFor(accounts, old(basis.View()), target, ctx)
    ensures 0.0 <= budget <= Pos(MaxBudget(accounts, ctx)) && 0.0 <= width <= Pos(MaxBudget(accounts, ctx))
    ensures r == Finish(Evaluate(accounts, old(basis.View()), budget, ctx), target)
    ensures after == WithBalances(accounts, Evaluate(accounts, old(basis.View()), budget, ctx).balances)
    ensures basis.View() == Withdraw(old(basis.View()), r.withdrawalRoth)
    ensures MarginUnderOne(accounts, ctx) ==>
              (r.insufficientFunds <==> !Funds(accounts, old(basis.View()), MaxBudget(accounts, ctx), ctx, target))
    ensures !r.insufficientFunds <==> Funds(accounts, old(basis.View()), budget, ctx, target)
    ensures r.insufficientFunds ==> budget == MaxBudget(accounts, ctx)
    ensures !r.insufficientFunds && budget > 0.0 ==>
              Cash(accounts, old(basis.View()), budget, ctx) <= Max(target + TOLERANCE, target - TOLERANCE + Halved(width, BISECTION_STEPS))
  {
    hide Evaluate;
    hide Forced;
    hide Consistent;
    hide MarginUnderOne;
    hide Withdraw;
    ghost var ledger := basis.View();
    ghost var most := MaxBudget(accounts, ctx);
    ForcedLeaves(accounts, ctx);
    budget, width := 0.0, 0.0;
    var forced := EvaluateOrderedWithdrawals(accounts, basis.View(), 0.0, ctx);
    NothingVoluntary(accounts, ledger, ctx);
    var maxVoluntaryBudget := SumOf(forced.balances);
    NonNegativeTotal(forced.balances);
    if forced.cash + TOLERANCE >= target {
      if MarginUnderOne(accounts, ctx) {
        CashNeverFalls(accounts, ledger, 0.0, most, ctx);
      }
      r, after := FinishOrderedWithdrawals(accounts, basis, forced, target);
      return;
    }
    if maxVoluntaryBudget <= 0.0 {
      r, after := FinishOrderedWithdrawals(accounts, basis, forced, target);
      return;
    }

    var low := 0.0;
    var high := Min(maxVoluntaryBudget, Max((target - forced.cash) * 2.0, 1.0));
    ghost var start := high;
    var best := EvaluateOrderedWithdrawals(accounts, basis.View(), high, ctx);
    while best.cash + TOLERANCE < target && high < maxVoluntaryBudget
      invariant 0.0 <= low < high <= most == maxVoluntaryBudget
      invariant best == Evaluate(accounts, ledger, high, ctx) && basis.View() == ledger
      invariant !Funds(accounts, ledger, low, ctx, target)
      invariant Doubled(accounts, ledger, ctx, target, low, high, most)
             == Doubled(accounts, ledger, ctx, target, 0.0, start, most)
      decreases if high < maxVoluntaryBudget then (maxVoluntaryBudget / high).Floor else 0
    {
      DoublingFits(high, maxVoluntaryBudget);
      low := high;
      high := Min(maxVoluntaryBudget, high * 2.0);
      best := EvaluateOrderedWithdrawals(accounts, basis.View(), high, ctx);
    }
    if best.cash + TOLERANCE < target {
      budget := high;
      r, after := FinishOrderedWithdrawals(accounts, basis, best, target);
      return;
    }

    width := high - low;
    ghost var bracket := (low, high);
    var step := 0;
    while step < BISECTION_STEPS && !(-TOLERANCE <= best.cash - target <= TOLERANCE)
      invariant 0 <= step <= BISECTION_STEPS
      invariant 0.0 <= low < high <= most && high - low == Halved(width, step)
      invariant best == Evaluate(accounts, ledger, high, ctx) && basis.View() == ledger
      invariant Funds(accounts, ledger, high, ctx, target) && !Funds(accounts, ledger, low, ctx, target)
      invariant Bisected(accounts, ledger, ctx, target, low, high, step)
             == Bisected(accounts, ledger, ctx, target, bracket.0, bracket.1, 0)
    {
      var midpoint := (low + high) / 2.0;
      var candidate := EvaluateOrderedWithdrawals(accounts, basis.View(), midpoint, ctx);
      if candidate.cash + TOLERANCE >= target {
        high := midpoint;
        best := candidate;
      } else {
        low := midpoint;
      }
      step := step + 1;
    }
    budget := high;
    CashRisesAtMostOneForOne(accounts, ledger, low, high, ctx);
    if MarginUnderOne(accounts, ctx) {
      CashNeverFalls(accounts, ledger, high, most, ctx);
    }
    r, after := FinishOrderedWithdrawals(accounts, basis, best, target);
  }

  lemma NothingVoluntary(accounts: seq<Account>, ledger: Ledger, ctx: WithdrawalContext)
    requires Solvent(accounts) && ctx.Valid()
    ensures Total(Evaluate(accounts, ledger, 0.0, ctx).balances) == MaxBudget(accounts, ctx)
    ensures NonNegative(Evaluate(accounts, ledger, 0.0, ctx).balances)
  {
    hide Order;
    hide Forced;
    hide Total;
    hide NonNegative;
    hide RetirementTax;
    hide ConversionPenalty;
    ForcedLeaves(accounts, ctx);
    var forced := Forced(accounts, ctx);
    var target := TargetAt(ctx, forced.drawn);
    OrderConserves(accounts, forced.left, 0.0, ctx.age, ctx.taxableGainRatio, target);
    OrderRaisesWhatItCan(accounts, forced.left, 0.0, ctx.age, ctx.taxableGainRatio, target);
    NonNegativeTotal(forced.left);
  }

  lemma {:induction false} NonNegativeTotal(balances: seq<real>)
    requires NonNegative(balances)
    ensures 0.0 <= Total(balances)
  {
    if |balances| > 0 {
      NonNegativeTotal(balances[1..]);
    }
  }

  /** The sum over shadow balances. */
  method SumOf(balances: seq<real>) returns (sum: real)
    ensures sum == Total(balances)
  {
    sum := 0.0;
    assert balances[0..] == balances;
    for i := 0 to |balances|
      invariant Total(balances) == sum + Total(balances[i..])
    {
      assert balances[i..][1..] == balances[i + 1..];
      sum := sum + balances[i];
    }
  }

  // ---- The verdict -------------------------------------------------------------

  /** Doubling ends with a budget that funds the year, or with everything there is. */
  lemma {:induction false} DoublingEnds(accounts: seq<Account>, ledger: Ledger, ctx: WithdrawalContext, target: real,
                                        low: real, high: real, most: real)
    requires 0.0 <= low < high <= most
    ensures var (l, h) := Doubled(accounts, ledger, ctx, target, low, high, most);
            && 0.0 <= l < h <= most
            && (Funds(accounts, ledger, h, ctx, target) || h == most)
    decreases if high < most then (most / high).Floor else 0
  {
    hide Funds;
    if !Funds(accounts, ledger, high, ctx, target) && high < most {
      DoublingFits(high, most);
      DoublingEnds(accounts, ledger, ctx, target, high, Min(most, high * 2.0), most);
    }
  }

  /** Bisecting keeps an upper end that funds the year. */
  lemma {:induction false} BisectingFunds(accounts: seq<Account>, ledger: Ledger, ctx: WithdrawalContext, target: real,
                                          low: real, high: real, step: nat)
    requires step <= BISECTION_STEPS && 0.0 <= low < high && Funds(accounts, ledger, high, ctx, target)
    ensures var budget := Bisected(accounts, ledger, ctx, target, low, high, step);
            low < budget <= high && Funds(accounts, ledger, budget, ctx, target)
    decreases BISECTION_STEPS - step
  {
    hide Funds;
    hide Close;
    if step < BISECTION_STEPS && !Close(accounts, ledger, high, ctx, target) {
      var midpoint := (low + high) / 2.0;
      if Funds(accounts, ledger, midpoint, ctx, target) {
        BisectingFunds(accounts, ledger, ctx, target, low, midpoint, step + 1);
      } else {
        BisectingFunds(accounts, ledger, ctx, target, midpoint, high, step + 1);
      }
    }
  }

  /** The solver's verdict on a year. */
  predicate Unfunded(accounts: seq<Account>, ledger: Ledger, ctx: WithdrawalContext, target: real) {
    Finish(Evaluate(accounts, ledger, BudgetFor(accounts, ledger, target, ctx), ctx), target).insufficientFunds
  }

  /** The budget settled on is within reach, and if it does not fund the year it is everything there is. */
  lemma BudgetIsBest(accounts: seq<Account>, ledger: Ledger, ctx: WithdrawalContext, target: real)
    requires Solvent(accounts) && ctx.Valid()
    ensures var budget := BudgetFor(accounts, ledger, target, ctx);
            && 0.0 <= budget <= MaxBudget(accounts, ctx)
            && (Funds(accounts, ledger, budget, ctx, target) || budget == MaxBudget(accounts, ctx))
  {
    hide Evaluate;
    hide Forced;
    hide Doubled;
    hide Bisected;
    hide Total;
    ForcedLeaves(accounts, ctx);
    NonNegativeTotal(Forced(accounts, ctx).left);
    var most := MaxBudget(accounts, ctx);
    if !Funds(accounts, ledger, 0.0, ctx, target) && most > 0.0 {
      var start := Min(most, Max((target - Cash(accounts, ledger, 0.0, ctx)) * 2.0, 1.0));
      DoublingEnds(accounts, ledger, ctx, target, 0.0, start, most);
      var (low, high) := Doubled(accounts, ledger, ctx, target, 0.0, start, most);
      if Funds(accounts, ledger, high, ctx, target) {
        BisectingFunds(accounts, ledger, ctx, target, low, high, 0);
      }
    }
  }

  /**
   * Under the margin condition a year is unfunded exactly when draining every
   * bucket would not fund it.
   */
  lemma UnfundedExactlyWhenDrained(accounts: seq<Account>, ledger: Ledger, ctx: WithdrawalContext, target: real)
    requires Solvent(accounts) && ctx.Valid() && Consistent(ledger) && MarginUnderOne(accounts, ctx)
    ensures Unfunded(accounts, ledger, ctx, target) <==> !Funds(accounts, ledger, MaxBudget(accounts, ctx), ctx, target)
  {
    hide Evaluate;
    hide MaxBudget;
    hide MarginUnderOne;
    hide BudgetFor;
    hide Consistent;
    BudgetIsBest(accounts, ledger, ctx, target);
    CashNeverFalls(accounts, ledger, BudgetFor(accounts, ledger, target, ctx), MaxBudget(accounts, ctx), ctx);
  }

  /**
   * The ceiling never manufactures a failed year: under the margin condition the
   * solver funds the same years with it and without it.
   */
  lemma VerdictIgnoresCeiling(accounts: seq<Account>, ledger: Ledger, ctx: WithdrawalContext, target: real)
    requires Solvent(accounts) && ctx.Valid()
    ensures Funds(accounts, ledger, MaxBudget(accounts, ctx), ctx, target)
       <==> Funds(accounts, ledger, MaxBudget(accounts, ctx.(magiTarget := None)), ctx.(magiTarget := None), target)
    ensures MarginUnderOne(accounts, ctx) <==> MarginUnderOne(accounts, ctx.(magiTarget := None))
    ensures Consistent(ledger) && MarginUnderOne(accounts, ctx) ==>
              (Unfunded(accounts, ledger, ctx, target) <==> Unfunded(accounts, ledger, ctx.(magiTarget := None), target))
  {
    hide Evaluate;
    hide Forced;
    hide Available;
    hide BudgetFor;
    hide Unfunded;
    hide Consistent;
    hide TaxableSocialSecurity;
    SameForced(accounts, ctx);
    DrainIgnoresCeiling(accounts, ledger, ctx, MaxBudget(accounts, ctx));
    if Consistent(ledger) && MarginUnderOne(accounts, ctx) {
      UnfundedExactlyWhenDrained(accounts, ledger, ctx, target);
      UnfundedExactlyWhenDrained(accounts, ledger, ctx.(magiTarget := None), target);
    }
  }
}
