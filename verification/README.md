# Verified model of the retirement projection engine

The engine projects a household's finances year by year: it taxes each year,
draws on four kinds of account to fund it, converts Traditional money to Roth,
and counts over thousands of simulated markets how often the money lasts. This
project models that engine, the sharded sweeps that run it, and the browser store
and profile-revision protocol around it, and proves what they promise.

`dafny verify dfyconfig.toml` checks everything.

## The main results

* **After-tax cash** (`RetirementSolve`). The engine doubles and bisects over the
  budget of a retired year and calls the cash that budget yields monotone. It is,
  whenever the age is at least 65, or there is no Social Security benefit or none
  left to phase in, or the age is at least 60 and the HSA fits its tax-free
  allowance (`CashNeverFalls`).
  The proof bounds the marginal rate of the whole stack (brackets, gains on top of
  them, benefit phase-in, senior phaseout, net investment income tax, California,
  penalties) below one: 98.03 cents on a dollar. **The unconditional claim in the
  source's comments is false**: over the inputs a year can really have, an age makes
  cash monotone for every one of them exactly when it is under 62, before any benefit
  can be claimed, or at least 65 (`MonotoneExactlyOutsideTheGap`). In between, the 20%
  HSA penalty on top of a very large benefit's phase-in costs more than the dollar
  it taxes (`CashFalls`). The solver's verdict, tolerance and overshoot are proved
  from it (`ExecuteOrderedWithdrawals`, `UnfundedExactlyWhenDrained`).
* **A whole path** (`PathProjection`). A working year and a retired year are each a
  function of the plan, the year's inputs and the state the year starts in, and the
  class that runs a path is proved to follow them year by year. Over any market and
  any horizon working rows reconcile exactly and funded retired rows within a
  dollar, every balance stays nonnegative, there is one bucket per type, and a
  retired year is unfunded exactly when draining everything would not fund it.
  Terminal wealth is what the path started with plus market gains plus reported
  savings, **with one exception in the code**: the working-year shortfall loop takes
  its last draw out of the accounts before it looks whether that draw was worth
  recording (projection.rs:1108-1122). Money is lost that way exactly when, after
  some number of draws, a working year lacks more than a dollar and the accounts
  hold a dollar or less (`DustExactlyWhenRunningOut`, `WealthReconcilesExactly`);
  and a plan is safe from it for every portfolio and market exactly when it starts
  retired (`ReconcilesExactlyWhenRetired`). `FiftyCentsVanish` works out one such year.
* **What a row says** (`YearReports`). Every bucket moves by exactly what the row
  reports from and into it; the row's taxes are the tax on the row's own figures;
  over any path qualified care is reimbursed once (`CareIsReimbursedOnce`); and the
  conversion ledger is the rows replayed (`PathLedgerFollows`), so every converted
  dollar is charged, released or still held, exactly (`PathConversionsAreAccounted`).
* **Roth conversions** (`RothConversion`, `RothLedger`). The conversion chosen
  stays under its ceiling in the year's own reported figures, the gain on the sale
  that pays its own tax included (`StaysUnderTheIrmaaLine`, `StaysInTheBracket`), so
  a year that converts under the IRMAA ceiling owes no surcharge
  (`ConvertingYearOwesNoSurcharge`); it is near-maximal, and pays its bill in full.
  **Four settling passes do not always come within a few dollars** as the source expects (roth_conversion.rs:40-42): they bill
  every conversion given all it owes exactly when sales realize no gain
  (`SettlesExactlyWithoutGains`); otherwise what a fifth pass would add is at most the
  fourth power of a share known beforehand of the ceiling and the deduction under it
  (`GivenConversionsSettleWithin`); and `FourPassesMiss` is a conversion the search
  does give whose bill is over a hundred dollars short. In every reachable year the
  constant-time penalty is the oldest-first walk of section 408A(d)(4) of the Internal Revenue
  Code; every converted dollar is accounted for exactly and none is penalized twice.
* **The income band** (`HealthcarePremiums`, `WithdrawalOrder`). Inside the band a
  draw crosses neither premium cliff, for all four filing statuses, and more than a
  dollar past it crosses one (`BandIsTight`); Roth is drawn while Traditional is left
  only when the year's income has reached the ceiling (`RothOnlyAtTheCeiling`,
  `RetiredRowAimsAtTheBand`); and the ceiling never changes how much a draw raises nor
  whether a year is funded.
* **Interleavings** (`ResultStore`, `ProfileSync`, `SweepCounts`). A settled result
  is always the current plan's, a current failure is always shown, and pending work
  is always really coming; a profile save is accepted exactly when it names the row
  as it stands, replaced a revision its browser knew, of the same owner, and
  includes every edit it replaces; a bootstrap, an edit and a flush nobody interrupts
  store the edit; any sharding or reduction tree gives the sequential counts.

## How it is modelled

`f64` is `real`. A product of two unknowns is written `Times(a, b)`, so that a
proof needing only its laws can hide the multiplication. Tax tables are sequences
of brackets; the loops over them are proved to compute the area under the rates,
`TaxBelow`, and every later result is about that area. Objects the program updates
in place (`RothBasisState`, `LongTermCareDraw`, the path, the two stores, the
profile table) are classes whose methods are tied to functions on their abstract
value; loops over mutable locals or shadow arrays are methods with invariants.
Concurrency is a state machine: a run is any sequence of events, each event an
atomic stretch between awaits.

| file | models |
|---|---|
| `BracketTables`, `TaxTables`, `IncomeTax` | bracket loops, 2025 tables, the federal and California stack |
| `HealthcarePremiums` | premium tests and the band between their cliffs |
| `WithdrawalOrder` | the five legs of a draw |
| `RetirementSolve` | one retired year's solver |
| `WorkingYear` | contributions, and the shortfall loop |
| `RothLedger`, `RothConversion` | conversion lots and the conversion search |
| `Buckets` | collapsing accounts, deposits and draws |
| `LongTermCare` | the care episode over a path |
| `PathProjection` | the year loop |
| `YearReports` | what the rows of that loop say about the money behind them |
| `SweepCounts` | browser shards and the native fold/reduce |
| `Options`, `Reals`, `Sequences`, `Domain` | shared vocabulary and small laws |
| `ResultStore`, `ProfileSync` | the client store and cloud saves |

## Model

| member | source | states |
|---|---|---|
| `BracketTables.CalculateProgressiveTax` | rust-simulation-service/src/simulation/tax.rs:407-427 | for every contiguous table and income, filling brackets bottom-up gives the integral of the marginal rates up to the income |
| `BracketTables.CalculateLtcgTax` | rust-simulation-service/src/simulation/tax.rs:695-753 | filling what ordinary income left of each gains bracket gives G(ordinary + gain) - G(ordinary), so the gains tax is additive in the gain |
| `BracketTables.WithinBracket` | rust-simulation-service/src/simulation/tax.rs:407-427 | inside bracket i the integral moves at exactly bracket i's rate: the independent reading of what a bracket is |
| `BracketTables.NeverFalls` | rust-simulation-service/src/simulation/tax.rs:407-427 | more income never owes less under any table |
| `BracketTables.SlopeAtMost` | rust-simulation-service/src/simulation/tax.rs:407-427 | an interval is never taxed above the highest rate that starts below its end |
| `BracketTables.AreaIsHinges` | rust-simulation-service/src/simulation/tax.rs:407-427 | the integral equals the sum of rate increases switched on at each bracket bottom |
| `BracketTables.Convex` | rust-simulation-service/src/simulation/tax.rs:695-753 | in a progressive table the same raise costs at least as much higher up |
| `BracketTables.OutgrowsByAtMost` | rust-simulation-service/src/simulation/tax.rs:695-753 | walking two tables together, one outgrows the other by at most the largest rate gap where they overlap |
| `TaxTables.FederalTable` | rust-simulation-service/src/simulation/tax.rs:111-262 | the 2025 federal tables are contiguous, progressive and top out at 37% for every filing status |
| `TaxTables.GainsTable` | rust-simulation-service/src/simulation/tax.rs:705-727 | the gains tables are contiguous, progressive, at most 20%, and at most 15% under 350,000 except when filing separately |
| `TaxTables.CaliforniaTable` | rust-simulation-service/src/simulation/state_tax.rs:72-286 | the California tables are contiguous, progressive and top out at 13.3% |
| `TaxTables.OrdinaryOverGains` | rust-simulation-service/src/simulation/tax.rs:111-262 | wherever the federal and gains tables overlap, the ordinary rate is at most 22 points above the gains rate |
| `TaxTables.SeparateIsHalfOfJoint` | rust-simulation-service/src/simulation/tax.rs:111-262 | filing separately, every federal and gains bracket begins at half of where the joint one does |
| `TaxTables.CaliforniaJointIsDouble` | rust-simulation-service/src/simulation/state_tax.rs:72-286 | the first eight joint California brackets begin at twice the single ones, the separate table is the single one, and the joint table also breaks at one million |
| `IncomeTax.ComputeFederalTax` | rust-simulation-service/src/simulation/tax.rs:316-343 | the two bracket loops, with the unused deduction offsetting gains, compute the federal tax the slope lemmas are about |
| `IncomeTax.FederalTaxIsStacked` | rust-simulation-service/src/simulation/tax.rs:316-343 | the unused-deduction bookkeeping is reading both tables at the signed income: P(x) + G(x + q) - G(x) plus the investment income tax |
| `IncomeTax.StackedTaxRises` | rust-simulation-service/src/simulation/tax.rs:316-343 | the stacked tax is monotone in ordinary and qualified income although P - G alone can fall |
| `IncomeTax.StackedTaxSlope` | rust-simulation-service/src/simulation/tax.rs:316-343 | it costs at most 22 cents plus the gains rate on the dollar |
| `IncomeTax.DeductionSlope` | rust-simulation-service/src/simulation/tax.rs:267-309 | the deduction only falls, by at most six cents on the dollar, and stops moving past the phaseout's end |
| `IncomeTax.StackedSlope` | rust-simulation-service/src/simulation/tax.rs:267-343 | across the senior phaseout the stacked tax keeps a slope of at most 42 and 20 cents for every filing status and number of seniors |
| `IncomeTax.FederalSlope` | rust-simulation-service/src/simulation/tax.rs:267-343 | federal tax is monotone and Lipschitz in both incomes: 45.8 cents ordinary, 23.8 cents qualified |
| `IncomeTax.SocialSecuritySlope` | rust-simulation-service/src/simulation/tax.rs:657-693 | another dollar brings in at most 85 cents of benefit, never releases any, and the taxable part is at most 85%; `BenefitTaxableExactly` says from where |
| `IncomeTax.StateSlope` | rust-simulation-service/src/simulation/tax.rs:356-381 | state tax is monotone and at most 13.3 cents on the dollar |
| `IncomeTax.RetirementTaxSlope` | rust-simulation-service/src/simulation/tax.rs:610-653 | a retired year's whole tax is monotone, rises at most 98.03 cents per withdrawn dollar and 76.03 per realized gain, and 59.1 and 37.1 once no more benefit can become taxable |
| `IncomeTax.TaxableIncomeRises` | rust-simulation-service/src/simulation/tax.rs:580-599 | the taxable income a conversion is measured by is monotone in withdrawals and gains |
| `IncomeTax.BenefitTaxableExactly` | rust-simulation-service/src/simulation/tax.rs:657-693 | for every status, income and threshold scale: a benefit is untaxed exactly while income plus half of it stays within the first tier, and taxed to its 85% cap exactly from the income at which the phase-in is complete |
| `IncomeTax.BenefitPhasesIn` | rust-simulation-service/src/simulation/tax.rs:657-693 | between the tiers another dollar makes 50 cents of benefit taxable, and past the second 85, until the caps |
| `IncomeTax.DeductionShape` | rust-simulation-service/src/simulation/tax.rs:267-309 | the deduction is whole up to the phaseout's start, loses six cents on each dollar to its end and keeps only the ordinary senior amounts after it; each senior adds 6,000 dollars at most |
| `IncomeTax.PhaseoutCountsGains` | rust-simulation-service/src/simulation/tax.rs:316-343 | gains count toward the senior phaseout: the enhanced deduction is whole, or gone, by the sum of both incomes however it is split |
| `IncomeTax.InvestmentTaxIsAboveThreshold` | rust-simulation-service/src/simulation/tax.rs:316-343 | the investment income tax is 3.8% of what gains stand above the threshold, no less and no more |
| `IncomeTax.StateSeesOneIncome` | rust-simulation-service/src/simulation/tax.rs:356-381 | inputs with the same income, contributions taken out as the state allows, owe it the same; something is owed only in California, exactly above its standard deduction |
| `IncomeTax.UntaxedExactly` | rust-simulation-service/src/simulation/tax.rs:610-653 | without a benefit or gains nothing is owed exactly while income fits under the federal deduction and, in California, the state one |
| `IncomeTax.TaxableIncomeIsTaxed` | rust-simulation-service/src/simulation/tax.rs:580-653 | the taxable income the conversion ceiling reads is the income both federal tables are read at |
| `IncomeTax.TopRatesExactly` | rust-simulation-service/src/simulation/tax.rs:610-653 | from two million dollars above the benefit on, a withdrawn dollar costs exactly 37 cents, or 50.3 in California, and a gain 23.8 or 37.1 |
| `HealthcarePremiums.ExpectedPremiumContribution` | rust-simulation-service/src/simulation/healthcare_premiums.rs:81-102 | the loop with its running lower ratio finds the first band that reaches the ratio and interpolates from where the previous one ended |
| `HealthcarePremiums.CreditReaches` | rust-simulation-service/src/simulation/healthcare_premiums.rs:71-102 | a credit exists exactly from one to four poverty levels |
| `HealthcarePremiums.ContributionRises` | rust-simulation-service/src/simulation/healthcare_premiums.rs:38-102 | while the credit lasts, more income never lowers the expected contribution |
| `HealthcarePremiums.ContributionShares` | rust-simulation-service/src/simulation/healthcare_premiums.rs:38-102 | at the top of every band the expected contribution is exactly that band's final share of income, and anywhere between 2.1% and 9.96% of it |
| `HealthcarePremiums.SurchargeRises` | rust-simulation-service/src/simulation/healthcare_premiums.rs:108-259 | more income never owes a smaller surcharge, and past the next threshold up a strictly larger one, with the one separate-filer exception the code has |
| `HealthcarePremiums.SurchargeFreeExactly` | rust-simulation-service/src/simulation/healthcare_premiums.rs:108-259 | the annual surcharge is zero exactly up to the ceiling conversions aim at |
| `HealthcarePremiums.BothTestsOnlyAtSixtyThree` | rust-simulation-service/src/simulation/healthcare_premiums.rs:192-227 | which ages each premium test looks at: the marketplace through 63, the surcharge from 63, both only there |
| `HealthcarePremiums.SurchargeHolds` | rust-simulation-service/src/simulation/healthcare_premiums.rs:135-151 | income that stays under the next threshold up owes the surcharge already owed |
| `HealthcarePremiums.BandCrossesNeitherCliff` | rust-simulation-service/src/simulation/healthcare_premiums.rs:192-259 | income in the band owes the same IRMAA surcharge as committed income whenever that premium is priced, and never loses a live credit, for all filing statuses |
| `HealthcarePremiums.BandHoldsCommitted` | rust-simulation-service/src/simulation/healthcare_premiums.rs:192-227 | the band's ceiling is never under what is already committed |
| `HealthcarePremiums.BandIsTight` | rust-simulation-service/src/simulation/healthcare_premiums.rs:192-259 | the converse: income past the ceiling by more than a dollar loses a live credit or raises the surcharge, with the one separate-filer exception the code has |
| `HealthcarePremiums.BandStopsADollarShort` | rust-simulation-service/src/simulation/healthcare_premiums.rs:162-227 | a band with room left stops a whole dollar short: nothing less past its ceiling crosses a cliff |
| `WithdrawalOrder.DrawBucketBalances` | rust-simulation-service/src/simulation/projection.rs:525-552 | the loop over shadow balances leaves what the drawn-down specification says and raises the smaller of the limit and what the type holds |
| `WithdrawalOrder.DrawTaxable` | rust-simulation-service/src/simulation/projection.rs:567-592 | the taxable leg also adds up exactly the gain realized, with none on surplus cash |
| `WithdrawalOrder.ApplyWithdrawalOrder` | rust-simulation-service/src/simulation/projection.rs:567-638 | the five legs on one array agree with the leg-by-leg specification, both drawn amounts and balances left |
| `WithdrawalOrder.DrawEffect` | rust-simulation-service/src/simulation/projection.rs:525-552 | a draw takes exactly what it raised from its own type and nothing from any other |
| `WithdrawalOrder.FirstAccountFirst` | rust-simulation-service/src/simulation/projection.rs:525-552 | no account gives anything while an earlier one of its type still holds something |
| `WithdrawalOrder.GainIsShare` | rust-simulation-service/src/simulation/projection.rs:577-592 | invested money realizes exactly the gain ratio of what is sold, surplus cash none |
| `WithdrawalOrder.GainSlope` | rust-simulation-service/src/simulation/projection.rs:577-592 | realized gain is monotone in the budget and rises by at most the gain ratio of the extra taxable draw |
| `WithdrawalOrder.OrderIsLegs` | rust-simulation-service/src/simulation/projection.rs:567-638 | drawing account by account is the same as five amounts computed from bucket totals |
| `WithdrawalOrder.OrderIsThePriorityDraw` | rust-simulation-service/src/simulation/projection.rs:567-638 | the amounts drawn are the only ones, of the size asked for, that take Taxable first, Traditional to the ceiling before Roth, over it only once Roth is dry, and HSA only once everything else is |
| `WithdrawalOrder.RothOnlyAtTheCeiling` | rust-simulation-service/src/simulation/projection.rs:594-638 | Roth is drawn while Traditional is left only when a band exists for the committed income and the draw's gain, and the year's income has reached its ceiling; income goes past it only once Roth is dry; with no target or no band Traditional always goes first |
| `WithdrawalOrder.OrderTakesWhatItReports` | rust-simulation-service/src/simulation/projection.rs:567-638 | bucket by bucket, the accounts of a type lose what the draw reports from it |
| `WithdrawalOrder.OrderConserves` | rust-simulation-service/src/simulation/projection.rs:567-638 | the accounts lose exactly what the draw reports and none goes below zero |
| `WithdrawalOrder.OrderRaisesWhatItCan` | rust-simulation-service/src/simulation/projection.rs:594-638 | with any ceiling or none, a draw raises exactly the smaller of the amount and the whole portfolio |
| `WithdrawalOrder.EveryLegRises` | rust-simulation-service/src/simulation/projection.rs:594-638 | asked for more, no bucket gives less, and gains rise by no more than the taxable leg, even though the ceiling is read mid-draw |
| `WithdrawalOrder.GainWithinDraw` | rust-simulation-service/src/simulation/projection.rs:577-592 | the gain lies between zero and the gain ratio of the taxable draw |
| `WithdrawalOrder.FullDrainIgnoresCeiling` | rust-simulation-service/src/simulation/projection.rs:594-638 | a budget that drains the portfolio draws the same amounts with and without the ceiling |
| `WithdrawalOrder.CoveredDrawCrossesNeitherCliff` | rust-simulation-service/src/simulation/projection.rs:594-638 | where Roth covers what the capped leg leaves, the year's income owes the surcharge, and keeps the credit, that its committed income and gains already implied |
| `RothLedger.RothBasisState.constructor` | rust-simulation-service/src/simulation/projection.rs:901-907 | the ledger starts with the Roth balance as regular principal and no lots |
| `RothLedger.RothBasisState.SeasonRothConversions` | rust-simulation-service/src/simulation/projection.rs:455-471 | the seasoned prefix moves to regular principal and leaves both the lots and the cached total |
| `RothLedger.RothBasisState.ConsumeRothBasis` | rust-simulation-service/src/simulation/projection.rs:474-493 | a withdrawal uses regular principal, then lots oldest first, and the cache follows |
| `RothLedger.RothBasisState.CommitWithdrawal` | rust-simulation-service/src/simulation/projection.rs:1827-1832 | a finished withdrawal is consumed and emptied lots are dropped |
| `RothLedger.RothBasisState.RecordConversion` | rust-simulation-service/src/simulation/projection.rs:1410-1416 | a conversion opens the newest lot and adds it to the cache |
| `RothLedger.RothBasisState.OpenYear` | rust-simulation-service/src/simulation/projection.rs:943-950 | the ledger closes at 60 and seasons every year before it |
| `RothLedger.RothBasisState.RecordWorkingYear` | rust-simulation-service/src/simulation/projection.rs:1153-1179 | a working year's Roth draw comes off regular principal, floored, before its deposit is added |
| `RothLedger.DrainLots` | rust-simulation-service/src/simulation/projection.rs:485-492 | the loop over lots equals oldest-first consumption |
| `RothLedger.SeasonKeeps` | rust-simulation-service/src/simulation/projection.rs:455-471 | seasoning keeps the cache equal to the lots' sum, leaves only lots under five tax years old, and loses no principal |
| `RothLedger.ConsumesOldestFirst` | rust-simulation-service/src/simulation/projection.rs:485-492 | no lot is touched while an older one still holds anything |
| `RothLedger.WithdrawKeeps` | rust-simulation-service/src/simulation/projection.rs:474-493 | so does a withdrawal, with year order and every clock, and known principal falls by exactly what was withdrawn of it |
| `RothLedger.ConvertKeeps` | rust-simulation-service/src/simulation/projection.rs:1410-1416 | recording a conversion keeps the ledger consistent, opens its newest lot, and raises the known principal by exactly what was converted |
| `RothLedger.ConvertJoinsItsYear` | rust-simulation-service/src/simulation/projection.rs:1409-1416 | an open ledger's principal from the year of a conversion rises by it, and from no other year |
| `RothLedger.WorkingYearMovesBasis` | rust-simulation-service/src/simulation/projection.rs:1148-1178 | a working year moves known principal by its deposit less what regular principal covered of its withdrawal |
| `RothLedger.FreshConversionIsCharged` | rust-simulation-service/src/simulation/projection.rs:440-472 | drawn before 60 and within five tax years, a conversion is charged a tenth of what regular principal does not cover of the draw; after five, nothing |
| `RothLedger.PenaltyIsWalk` | rust-simulation-service/src/simulation/projection.rs:440-452 | the constant-time penalty equals the oldest-first walk that charges each lot only inside its five-year window, for every withdrawal |
| `RothLedger.PenaltySlope` | rust-simulation-service/src/simulation/projection.rs:440-452 | the penalty is monotone and at most ten cents on the dollar |
| `RothLedger.PenaltyIsTenthOfConsumed` | rust-simulation-service/src/simulation/projection.rs:440-493 | the penalty charged is a tenth of the principal the commit removes from the lots |
| `RothLedger.PathReachable` | rust-simulation-service/src/simulation/projection.rs:943-950 | over any sequence of years the cache is exact and the lots are in year order, all older than the coming year |
| `RothLedger.EveryYearConsistent` | rust-simulation-service/src/simulation/projection.rs:249-267 | in every reachable year the cache is the sum of the lots, no lot is five tax years old, and the penalty is the walk |
| `RothLedger.NoDollarPenalizedTwice` | rust-simulation-service/src/simulation/projection.rs:440-493 | over a whole path, the principal of one year's conversion that is ever penalized plus what the ledger still holds of it fits in what was converted |
| `RothLedger.ConversionsAreAccounted` | rust-simulation-service/src/simulation/projection.rs:440-503 | an exact account over every path: what one tax year's conversion was charged for, what five years or age 60 released, and what is still held add up to what was converted while the ledger was open |
| `RetirementSolve.EvaluateOrderedWithdrawals` | rust-simulation-service/src/simulation/projection.rs:1729-1815 | forced draw, voluntary order, tax and penalties on one shadow array compute the evaluation the lemmas are about |
| `RetirementSolve.FinishOrderedWithdrawals` | rust-simulation-service/src/simulation/projection.rs:1817-1849 | committing an evaluation sets the balances, consumes the ledger, and reports shortfall and surplus outside the tolerance |
| `RetirementSolve.ExecuteOrderedWithdrawals` | rust-simulation-service/src/simulation/projection.rs:1655-1727 | a funded year is never more than the tolerance short and overshoots only by tolerance or what 48 halvings leave; under the margin condition a year is unfunded exactly when draining every bucket would not fund it; doubling terminates |
| `RetirementSolve.SumOf` | rust-simulation-service/src/simulation/projection.rs:1663-1680 | the most a voluntary budget can reach is the sum of the shadow balances |
| `RetirementSolve.EvaluationIsTaxed` | rust-simulation-service/src/simulation/projection.rs:1729-1815 | what a year owes, read off what it reports: income tax on its Traditional, its HSA past the allowance and its realized gain, a tenth of Traditional before 60, a fifth of unqualified HSA before 65, and the charge on converted principal |
| `RetirementSolve.YearAimsAtTheBand` | rust-simulation-service/src/simulation/projection.rs:1729-1780 | a year draws Roth while Traditional is left only when the income it reports (benefit, Traditional and gains) has reached the ceiling of the band read at its committed income, and goes past it voluntarily only once Roth is dry |
| `RetirementSolve.EvaluationLeaves` | rust-simulation-service/src/simulation/projection.rs:1729-1815 | bucket by bucket, balances fall by what is reported, and the forced distribution is always taken |
| `RetirementSolve.AllHalvings` | rust-simulation-service/src/simulation/projection.rs:1683-1727 | the bracket a bisection ends with is the starting width over 2^48 |
| `RetirementSolve.DoublingFits` | rust-simulation-service/src/simulation/projection.rs:1681-1700 | doubling strictly lowers floor(max/high), so the loop ends |
| `RetirementSolve.TaxesRise` | rust-simulation-service/src/simulation/projection.rs:1729-1815 | taxes and penalties never fall as a draw grows, at any age |
| `RetirementSolve.TaxesRiseSlower` | rust-simulation-service/src/simulation/projection.rs:1729-1815 | under the margin condition they rise by no more than the draw |
| `RetirementSolve.CashRisesAtMostOneForOne` | rust-simulation-service/src/simulation/projection.rs:1684-1727 | a dollar of budget never buys more than a dollar of cash, at any age, and total tax is monotone |
| `RetirementSolve.CashNeverFalls` | rust-simulation-service/src/simulation/projection.rs:594-598 | cash is nondecreasing in the budget for all accounts, ledgers and ceilings when the age is 65, or there is no benefit, or the forced distribution already makes all of it taxable that ever is, or the age is 60 and the HSA fits its allowance |
| `RetirementSolve.MonotoneExactlyOutsideTheGap` | rust-simulation-service/src/simulation/projection.rs:1684-1685 | over every input a year can really have, where no benefit is paid before 62, cash is monotone at an age exactly when it is under 62 or at least 65; the comment's unconditional claim is false in between |
| `RetirementSolve.CashFalls` | rust-simulation-service/src/simulation/projection.rs:1684-1685 | a concrete household for which, at any age under 65 with its benefit already paid, a larger budget yields less cash |
| `RetirementSolve.TopOfEveryTable` | rust-simulation-service/src/simulation/tax.rs:610-653 | in the top brackets with the benefit phasing in, the marginal rate is exactly 1.85 x 37% + 13.3% |
| `RetirementSolve.DrainIgnoresCeiling` | rust-simulation-service/src/simulation/projection.rs:594-638 | draining every bucket yields the same cash with and without the ceiling |
| `RetirementSolve.BudgetIsBest` | rust-simulation-service/src/simulation/projection.rs:1655-1727 | the budget settled on is within reach, and funds the year or is everything there is |
| `RetirementSolve.UnfundedExactlyWhenDrained` | rust-simulation-service/src/simulation/projection.rs:1655-1727 | under the margin condition the solver declares a year unfunded exactly when draining every bucket would not fund it |
| `RetirementSolve.VerdictIgnoresCeiling` | rust-simulation-service/src/simulation/projection.rs:1655-1727 | a year is funded with the ceiling exactly when it is without, and under the margin condition the solver's own verdict is the same with and without it |
| `RothConversion.ComputeOutcome` | rust-simulation-service/src/simulation/roth_conversion.rs:70-88 | four passes of pay, count the gain, pay again, equal the settling recursion |
| `RothConversion.PassesOnlyRaise` | rust-simulation-service/src/simulation/roth_conversion.rs:70-88 | settling passes only raise the taxable funding |
| `RothConversion.SettlingRises` | rust-simulation-service/src/simulation/roth_conversion.rs:70-88 | a larger conversion sells at least as much taxable money, never more than there is |
| `RothConversion.BillWithinMeans` | rust-simulation-service/src/simulation/roth_conversion.rs:70-88 | the bill is at most the conversion plus the sale |
| `RothConversion.BillIsPaid` | rust-simulation-service/src/simulation/roth_conversion.rs:70-88 | tax equals taxable funding plus withholding, and withholding fits in the conversion |
| `RothConversion.PassesSettle` | rust-simulation-service/src/simulation/roth_conversion.rs:40-88 | pass k+1 moves the bill by at most (76.03% of the gain ratio)^k of the first bill, and never down |
| `RothConversion.SettlesExactlyWithoutGains` | rust-simulation-service/src/simulation/roth_conversion.rs:40-43 | at a gain ratio, four passes bill every conversion the search gives all it owes exactly when the ratio is zero |
| `RothConversion.GivenConversionsSettleWithin` | rust-simulation-service/src/simulation/roth_conversion.rs:40-88 | what a fifth pass would add to the bill of a conversion given is at most (76.03% of the gain ratio)^4 of the ceiling plus the largest deduction under it, known before any candidate is tried |
| `RothConversion.FourPassesMiss` | rust-simulation-service/src/simulation/roth_conversion.rs:40-43 | a couple converting half a million under its ceiling, all of it within what the search gives, is billed over a hundred dollars less than a fifth pass would find |
| `RothConversion.GapRises` | rust-simulation-service/src/simulation/roth_conversion.rs:188-205 | the measured quantity, including the gain on the sale that pays the tax, is monotone in the conversion |
| `RothConversion.TopsAboveDeduction` | rust-simulation-service/src/simulation/tax.rs:601-606 | every ceiling bracket exists and its top exceeds the largest deduction a household can stack |
| `RothConversion.TwiceTheLimitBreaches` | rust-simulation-service/src/simulation/roth_conversion.rs:104-175 | twice the limit plus the benefit breaches every ceiling, so the search starts bracketed |
| `RothConversion.NarrowBracket` | rust-simulation-service/src/simulation/roth_conversion.rs:104-175 | safeguarded false position keeps the root bracketed and shrinks to a dollar or (63/128)^12 of the start |
| `RothConversion.RothConversionFor` | rust-simulation-service/src/simulation/roth_conversion.rs:104-175 | the conversion leaves the year under its ceiling in its own reported figures, the gain on its own sale included; anything larger by more than the resolution would not; all of the balance goes when all of it fits; and its bill is paid in full |
| `RothConversion.ConversionIsPaid` | rust-simulation-service/src/simulation/roth_conversion.rs:104-175 | for every input the conversion given fits the balance and pays its own bill |
| `RothConversion.StaysUnderTheIrmaaLine` | rust-simulation-service/src/simulation/roth_conversion.rs:104-205 | in the figures the year reports: benefit, Traditional withdrawn and converted, and the gain on everything sold, the sale that pays the conversion's tax included, stay within the surcharge-free ceiling |
| `RothConversion.StaysInTheBracket` | rust-simulation-service/src/simulation/roth_conversion.rs:104-205 | under a bracket ceiling the year's federal taxable income, that gain included, stays within the second, third, fourth or fifth bracket of its own table |
| `RothConversion.GapIsRoom` | rust-simulation-service/src/simulation/roth_conversion.rs:188-205 | what the search measures for a candidate is exactly the room the year's reported figures would leave |
| `RothConversion.BilledWhatItAdds` | rust-simulation-service/src/simulation/roth_conversion.rs:70-102 | a conversion's bill is what it and its own sale add to the year's tax, exactly so without gains and short by at most the settled bound with them; taxable money pays first |
| `RothConversion.WholeDollars` | rust-simulation-service/src/simulation/roth_conversion.rs:168-175 | a conversion is the whole balance or a whole number of dollars |
| `RothConversion.CandidateInterpolates` | rust-simulation-service/src/simulation/roth_conversion.rs:144-160 | on even steps the candidate is where the line through both gaps crosses zero, unless that is within a 64th of an end |
| `RothConversion.ResolutionInDollars` | rust-simulation-service/src/simulation/roth_conversion.rs:43-51 | the search lands within two dollars and a 4,900th of its starting width of the largest fitting conversion |
| `Buckets.CollapseAccounts` | rust-simulation-service/src/simulation/projection.rs:668-703 | one bucket per type with members, in the fixed order, balance-weighted or averaged |
| `Buckets.PermutingAccounts` | rust-simulation-service/src/simulation/projection.rs:668-703 | listing the accounts in another order gives the same buckets |
| `Buckets.SplittingAccounts` | rust-simulation-service/src/simulation/projection.rs:668-703 | splitting a positive balance at the same weighted allocation gives the same buckets |
| `Buckets.BucketEarnsWhatMembersEarn` | rust-simulation-service/src/simulation/projection.rs:1028-1042 | with weights that sum to one a bucket's market gain is the sum of its members' |
| `Buckets.BucketsStartOnePerType` | rust-simulation-service/src/simulation/projection.rs:668-703 | collapsed accounts have at most one bucket per type and nonnegative balances |
| `Buckets.CollapsingConserves` | rust-simulation-service/src/simulation/projection.rs:668-703 | collapsing moves no money |
| `Buckets.NewBucketKeepsBlend` | rust-simulation-service/src/simulation/projection.rs:1621-1653 | a deposit that opens a bucket leaves the portfolio's share in stocks where it was |
| `Buckets.DepositConserves` | rust-simulation-service/src/simulation/projection.rs:1614-1653 | a deposit adds exactly its amount and keeps one bucket per type |
| `Buckets.DepositReaches` | rust-simulation-service/src/simulation/projection.rs:1614-1653 | a deposit reaches its own bucket whole, and no other bucket changes |
| `Buckets.SurplusExactlyWhenEmpty` | rust-simulation-service/src/simulation/projection.rs:1621-1653 | money put into an empty portfolio is surplus cash in neither stocks nor bonds; into any other it is fully invested; collapsed accounts are never surplus |
| `Buckets.DrawConserves` | rust-simulation-service/src/simulation/projection.rs:1578-1593 | a draw takes the smaller of the amount and the type's balance, and nothing from any other type |
| `Buckets.DrawReaches` | rust-simulation-service/src/simulation/projection.rs:1578-1593 | a draw lowers its own bucket by the smaller of amount and balance, and no other |
| `WorkingYear.CalculateWorkingCashFlow` | rust-simulation-service/src/simulation/tax.rs:507-575 | the four-pass loop computes the settled cash flow |
| `WorkingYear.ContributingLowersTax` | rust-simulation-service/src/simulation/tax.rs:431-503 | contributing more never raises the year's tax |
| `WorkingYear.PassesRise` | rust-simulation-service/src/simulation/tax.rs:507-575 | over the passes contributions only rise and tax only falls |
| `WorkingYear.ContributionsNeverCreateShortfall` | rust-simulation-service/src/simulation/tax.rs:507-575 | cash flow is nonnegative exactly when income covers spending and the tax owed with no contributions; then income is used up exactly; otherwise nothing is contributed |
| `WorkingYear.ContributionsFillInOrder` | rust-simulation-service/src/simulation/tax.rs:507-575 | contributions stay within the limits and wages and fill in order: HSA before Traditional, backdoor Roth before Taxable |
| `WorkingYear.ContributionsReachTheirLimits` | rust-simulation-service/src/simulation/tax.rs:507-575 | contributions go as far as limits, wages and uncommitted money allow, HSA first; the backdoor Roth takes all the residual it may |
| `WorkingYear.ContributionsSettle` | rust-simulation-service/src/simulation/tax.rs:520-550 | a fifth pass would add at most 12.2% of what the first one did |
| `WorkingYear.LimitsByAge` | rust-simulation-service/src/simulation/tax.rs:383-405 | the limits in dollars at every age, with their catch-ups |
| `WorkingYear.FicaRates` | rust-simulation-service/src/simulation/tax.rs:431-503 | payroll tax changes rate exactly at the wage base and at the surtax threshold |
| `WorkingYear.WagesAreTaxedAsIncome` | rust-simulation-service/src/simulation/tax.rs:431-503 | a working year owes the retired-year tax on the same income without a benefit, and payroll tax |
| `WorkingYear.ContributionsAreUntaxed` | rust-simulation-service/src/simulation/tax.rs:431-503 | a contribution is income never received, except that California still taxes what goes to an HSA |
| `WorkingYear.WorkingTaxSlope` | rust-simulation-service/src/simulation/tax.rs:431-503 | a working year's marginal rate is at most 59.1 cents on a draw and 37.1 on a gain |
| `WorkingYear.RemainingIsGap` | rust-simulation-service/src/simulation/projection.rs:1098-1100 | the loop's signed remainder is the plain gap floored at zero, and a year with a gap contributes nothing |
| `WorkingYear.DrawClosesGap` | rust-simulation-service/src/simulation/projection.rs:1120-1140 | a draw leaves between none and four fifths of itself still owed, with penalties and proration |
| `WorkingYear.WithdrawInOrder` | rust-simulation-service/src/simulation/projection.rs:642-660 | the accounts lose exactly what the order raised |
| `WorkingYear.FundShortfall` | rust-simulation-service/src/simulation/projection.rs:1080-1146 | the loop records and leaves exactly what the iteration of its draws says; it never overdraws; it ends funded, drained, or after 50 passes with a gap of at most (4/5)^50 of the first |
| `WorkingYear.DrawOnceEffect` | rust-simulation-service/src/simulation/projection.rs:1097-1141 | one pass takes the smaller of the gap and the portfolio, loses none of it, and leaves at most four fifths of it owed |
| `WorkingYear.DrawsKeep` | rust-simulation-service/src/simulation/projection.rs:1097-1141 | after any number of draws balances and amounts stay nonnegative, what left the accounts is what was recorded, and the gap has shrunk by a fifth each time but never past zero |
| `WorkingYear.DrawsLeaveTheirBuckets` | rust-simulation-service/src/simulation/projection.rs:1097-1141 | after any number of draws each bucket has lost what is recorded against it, and penalties are those on every early dollar beyond the forced distribution |
| `WorkingYear.DrawsAreAnnualized` | rust-simulation-service/src/simulation/projection.rs:1064-1079 | draws, gains and penalties enter the tax at the annual rate whose share over the period is the dollars drawn |
| `WorkingYear.ShortfallObeysTheBand` | rust-simulation-service/src/simulation/projection.rs:1101-1119 | a shortfall draw takes Roth while Traditional is left only when wages and everything drawn so far have reached the band's ceiling, and passes it only once Roth is dry |
| `WorkingYear.FiftyDrawsDecay` | rust-simulation-service/src/simulation/projection.rs:43-50 | fifty passes leave at most 0.00144% of a gap |
| `WorkingYear.YearEnds` | rust-simulation-service/src/simulation/projection.rs:1080-1146 | the three ways a working year ends, and exactly what its last draw took without being recorded |
| `WorkingYear.DustExactlyWhenRunningOut` | rust-simulation-service/src/simulation/projection.rs:1098-1122 | money leaves the accounts unrecorded exactly when after some number of draws the year lacks more than a dollar and the accounts hold a dollar or less but not nothing |
| `LongTermCare.OverlapsTelescope` | rust-simulation-service/src/simulation/projection.rs:184-206 | yearly overlaps add up to the part of the episode they contain, for fractional durations |
| `LongTermCare.ChargedShare` | rust-simulation-service/src/simulation/projection.rs:184-206 | charging from any year on pays the whole cost when none of the episode came before it, and exactly the missed share less otherwise |
| `LongTermCare.NothingBeforeObservation` | rust-simulation-service/src/simulation/projection.rs:162-206 | no year through the one that fixes the quintile is charged |
| `LongTermCare.CareFillsTheEnd` | rust-simulation-service/src/simulation/projection.rs:162-206 | a year is charged exactly when the episode, cut to the years after the observation, reaches into it from the end, and a year of nothing but care pays the even share |
| `LongTermCare.LongTermCareDraw.constructor` | rust-simulation-service/src/simulation/projection.rs:114-171 | a new draw has no quintile and caps care to start after 65 and after the plan starts |
| `LongTermCare.LongTermCareDraw.Observe` | rust-simulation-service/src/simulation/projection.rs:173-182 | the first observation at or past 65 is kept and later ones ignored |
| `LongTermCare.ChargePath` | rust-simulation-service/src/simulation/projection.rs:1442-1452 | the quintile is fixed before any charge, a plan in its last year is charged nothing, and otherwise the installments sum to lifetime cost times price scale exactly when the household is retired throughout the care window |
| `PathProjection.Path.constructor` | rust-simulation-service/src/simulation/projection.rs:893-908 | a path starts from collapsed buckets worth exactly what the plan's accounts are, with the Roth balance as regular principal, the ledger open only for conversions before 60 and no HSA allowance |
| `PathProjection.ApplyMarket` | rust-simulation-service/src/simulation/projection.rs:1028-1042 | every balance moves by its weighted return less the fee, floored at zero, and the gain is what that adds up to |
| `PathProjection.TakeForced` | rust-simulation-service/src/simulation/projection.rs:1044-1059 | a working year's distribution is the forced leg of the withdrawal specification |
| `PathProjection.ForcedKeeps` | rust-simulation-service/src/simulation/projection.rs:1044-1059 | that leg comes out of the portfolio exactly and leaves nothing below zero |
| `PathProjection.WorkingYearKeeps` | rust-simulation-service/src/simulation/projection.rs:1005-1192 | for every valid start and input a working year ends valid, its row reconciles exactly, the accounts move by the market and the reported savings less what was lost, and something is lost exactly when the accounts run out by cents |
| `PathProjection.Path.WorkYear` | rust-simulation-service/src/simulation/projection.rs:1005-1192 | the method's accounts, ledger, row and gain are those of the year's specification: the gain is the market's on the year-start accounts, and income, spending, taxes and withdrawals are those of the shortfall draws |
| `PathProjection.WorkRowBalances` | rust-simulation-service/src/simulation/projection.rs:1143-1191 | income plus draws equals tax, penalties, funded spending and deposits, short or not |
| `PathProjection.ResidualBalances` | rust-simulation-service/src/simulation/projection.rs:1158-1184 | a year with cash to spare places all of it |
| `PathProjection.EvaluationConserves` | rust-simulation-service/src/simulation/projection.rs:1729-1815 | what an evaluation withdraws is what its balances lost, and it uses no more than the HSA allowance |
| `PathProjection.ConversionCostsItsTax` | rust-simulation-service/src/simulation/projection.rs:1393-1404 | moving a settled conversion between buckets lowers the portfolio by exactly its tax |
| `PathProjection.Path.Convert` | rust-simulation-service/src/simulation/projection.rs:1379-1421 | only a funded year before required distributions converts; what it converts is the search's answer for that year's figures, the largest that fits under the ceiling, moved between the buckets and recorded as the newest lot |
| `PathProjection.ConversionKeeps` | rust-simulation-service/src/simulation/projection.rs:1379-1421 | whatever is converted costs the portfolio exactly its tax and keeps the ledger consistent |
| `PathProjection.Path.RetireYear` | rust-simulation-service/src/simulation/projection.rs:1317-1440 | the accounts, ledger, allowance, row and gain are those of the year's specification, which the `YearReports` rows read off the row; the allowance falls by what the HSA paid; and under the margin condition the year is unfunded exactly when draining every bucket would not fund it |
| `PathProjection.RetiredYearKeeps` | rust-simulation-service/src/simulation/projection.rs:1317-1440 | for every valid start and input a retired year ends valid, a funded row reconciles within a dollar, exactly when it deposits a surplus, and an unfunded one exactly up to cash below zero, the accounts move by the market and the reported savings exactly, and the next year's HSA allowance is this one's and its care less the row's HSA draw |
| `PathProjection.PathKeeps` | rust-simulation-service/src/simulation/projection.rs:893-1527 | after any number of years the state is valid, and wealth is the start plus gains plus savings less what was lost |
| `PathProjection.WealthReconcilesExactly` | rust-simulation-service/src/simulation/projection.rs:1097-1122 | a path's wealth is accounted for by gains and reported savings exactly when in no working year, after some number of draws, more than a dollar is lacking and a dollar or less but not nothing is left |
| `PathProjection.ReconcilesExactlyWhenRetired` | rust-simulation-service/src/simulation/projection.rs:1097-1122 | a plan reconciles for every portfolio and every nonempty run of years exactly when it starts at or past its retirement age |
| `PathProjection.Path.Project` | rust-simulation-service/src/simulation/projection.rs:893-1527 | every row, gain and next state is the year's specification applied to the state the year started in, from the first state to the last; every state is valid, every row reconciles, every retired verdict is right; terminal wealth is start plus gains plus savings exactly when no working year runs out by cents, as on every successful path |
| `PathProjection.FiftyCentsVanish` | rust-simulation-service/src/simulation/projection.rs:1108-1122 | under any plan, a household that starts its path in a working year with fifty cents ends it with nothing, and the row reports no gain, saving or withdrawal |
| `YearReports.MarketPaysTheBlend` | rust-simulation-service/src/simulation/projection.rs:1028-1042 | an account gains the modelled share of its weighted return less a tenth of a percent, and stops at zero |
| `YearReports.RowReportsTheSolve` | rust-simulation-service/src/simulation/projection.rs:1319-1440 | a retired row is the solver's withdrawals with what the conversion sold and withheld on top |
| `YearReports.RetiredBucketsMove` | rust-simulation-service/src/simulation/projection.rs:1317-1440 | in every retired year each bucket ends with what the market left, less the row's withdrawal from it, plus its deposit and its side of the conversion; the required distribution is taken |
| `YearReports.WorkingBucketsMove` | rust-simulation-service/src/simulation/projection.rs:1005-1192 | so does each bucket in every working year that loses nothing |
| `YearReports.RetiredRowIsTaxed` | rust-simulation-service/src/simulation/projection.rs:1319-1440 | a retired row's taxes, from the row alone: tax on its Traditional, its HSA past the carried allowance and its gains, early penalties, the charge of that year's opened ledger, and the conversion's bill |
| `YearReports.WorkingRowIsTaxed` | rust-simulation-service/src/simulation/projection.rs:1060-1146 | a working row's taxes, from the row alone: tax on wages with its draws as income and gains and its deferrals as contributions, and penalties on early dollars nothing forced |
| `YearReports.RetiredRowAimsAtTheBand` | rust-simulation-service/src/simulation/projection.rs:1319-1343 | a row draws Roth while Traditional is left only at the ceiling of the plan's band, read off its own income, and goes past it voluntarily only once Roth is dry |
| `YearReports.AllowanceIsSpent` | rust-simulation-service/src/simulation/projection.rs:1312-1357 | the allowance carried on is what it was and the year's qualified care, less the row's HSA draw, never below zero; working years leave it alone |
| `YearReports.CareIsReimbursedOnce` | rust-simulation-service/src/simulation/projection.rs:1312-1357 | over any path, what the HSA paid tax-free and what it may still pay add up to the starting allowance and all the care billed |
| `YearReports.ConvertingYearOwesNoSurcharge` | rust-simulation-service/src/simulation/projection.rs:1379-1474 | a year that converts under the IRMAA ceiling reports an income that owes no surcharge, and converts only when enabled, funded and before required distributions |
| `YearReports.ConvertingYearStaysInTheBracket` | rust-simulation-service/src/simulation/projection.rs:1379-1440 | a year that converts under a bracket ceiling keeps its row's taxable income in that bracket |
| `YearReports.LedgerFollowsTheRow` | rust-simulation-service/src/simulation/projection.rs:927-1416 | a year moves the conversion ledger by what its row reports and by nothing else |
| `YearReports.PathLedgerFollows` | rust-simulation-service/src/simulation/projection.rs:893-1527 | a path's ledger after any number of years is its rows replayed, in order, from the ledger it started with |
| `YearReports.PathConversionsAreAccounted` | rust-simulation-service/src/simulation/projection.rs:893-1527 | over any path, from its rows: principal converted in a tax year while the ledger was open is exactly what was charged, released or is still held, and is never charged twice |
| `SweepCounts.SweepPathShards` | apps/web/src/engine/mc.ts:107-130 | an unusable count is refused; otherwise nonempty contiguous ranges cover [0, paths) with sizes within one of each other |
| `SweepCounts.CountSweepShardSequential` | rust-simulation-service/src/simulation/monte_carlo.rs:229-268 | an empty or out-of-range shard is refused exactly when the source refuses it and a broken projection fails it; otherwise each scenario gets its sequential count over the range |
| `SweepCounts.ShardsCountTheRange` | apps/web/src/engine/mc.ts:169-172 | adding up shards that tile a range counts the range |
| `SweepCounts.RunBrowserSweep` | apps/web/src/engine/mc.ts:140-177 | whatever the hardware, each scenario gets its sequential success count over all paths; the sweep fails exactly when the path count is unusable or some path breaks |
| `SweepCounts.CountIgnoresOrder` | rust-simulation-service/src/simulation/monte_carlo.rs:184-219 | the arrangement of paths does not change a count |
| `SweepCounts.PastTheCount` | rust-simulation-service/src/simulation/monte_carlo.rs:192-194 | paths past a scenario's own count add nothing |
| `SweepCounts.FoldPaths` | rust-simulation-service/src/simulation/monte_carlo.rs:186-210 | a fold counts its own paths unless one is canceled or breaks, and says which |
| `SweepCounts.AddCounts` | rust-simulation-service/src/simulation/monte_carlo.rs:211-219 | the in-place reducer adds scenario by scenario |
| `SweepCounts.RunWork` | rust-simulation-service/src/simulation/monte_carlo.rs:184-219 | a tree of folds and reductions counts the paths it holds exactly when none of them is canceled or breaks |
| `SweepCounts.CountPath` | rust-simulation-service/src/simulation/monte_carlo.rs:190-207 | one path adds to exactly the scenarios that have it and fund it, and fails exactly when one of their projections does |
| `SweepCounts.PathsHaveTheirOwnSeeds` | rust-simulation-service/src/simulation/monte_carlo.rs:195-203 | two paths of a scenario less than 2^64 apart never share a seed, and seeds only wrap at 64 bits |
| `SweepCounts.RunNativeSweep` | rust-simulation-service/src/simulation/monte_carlo.rs:162-224 | any tree covering the paths once gives each scenario its own sequential success count, exactly unless the sweep is canceled at a path or at the end or a path breaks, and a failure names its cause |
| `ResultStore.PlanStore.InvalidateResults` | apps/web/src/state/usePlan.ts:450-463 | obsolete work is canceled, generations advance, the timer re-arms and results survive |
| `ResultStore.PlanStore.OnTimer` | apps/web/src/state/usePlan.ts:65-78 | an invalid plan ends pending with an error, a valid one starts a run |
| `ResultStore.PlanStore.BeginMain` | apps/web/src/state/usePlan.ts:842-847 | a run captures the plan and a fresh generation |
| `ResultStore.PlanStore.MainResolved` | apps/web/src/state/usePlan.ts:854-861 | only the current generation stores its result, with the plan it ran |
| `ResultStore.PlanStore.MainRejected` | apps/web/src/state/usePlan.ts:862-875 | only a current, unaborted failure clears the result |
| `ResultStore.PlanStore.BeginSensitivities` | apps/web/src/state/usePlan.ts:878-885 | a second sweep never starts beside a running one |
| `ResultStore.PlanStore.SensitivitiesResolved` | apps/web/src/state/usePlan.ts:892-900 | only the current generation's curves are stored |
| `ResultStore.PlanStore.SensitivitiesRejected` | apps/web/src/state/usePlan.ts:901-913 | only a current, unaborted failure clears the curves |
| `ResultStore.Starts` | apps/web/src/state/usePlan.ts:842-847 | a start's run is the one current run |
| `ResultStore.Leaves` | apps/web/src/state/usePlan.ts:854-875 | a stale completion removes nobody's current run |
| `ResultStore.StepKeeps` | apps/web/src/state/usePlan.ts:842-914 | every event keeps every promise of the store |
| `ResultStore.EveryInterleaving` | apps/web/src/state/usePlan.ts:445-463 | in every interleaving a stored result is the engine's output for its stored plan, a settled one without error is the current plan's, and pending means an armed timer or a current run in flight |
| `ResultStore.FiringAndFinishingSettles` | apps/web/src/state/usePlan.ts:65-78 | from any reachable store, the armed timer and the success of its run settle the current plan whatever stale completions, other failures and sweeps come between, and it stays settled through anything but an edit, an engine switch or another start |
| `ResultStore.FiringAndFailingShows` | apps/web/src/state/usePlan.ts:862-875 | if that run fails instead, the result is cleared and the error shown whatever came between, and both stay so through anything but an edit, an engine switch or another start |
| `ResultStore.EditAsksAgain` | apps/web/src/state/usePlan.ts:445-463 | an edit of any reachable store keeps the last results, clears the error, arms the timer and leaves no run that could still be accepted; an invalid plan then reports an error instead of waiting |
| `ResultStore.SweepEnds` | apps/web/src/state/usePlan.ts:892-913 | a current sweep settles the curves on the current plan or clears them; a stale one changes nothing |
| `ResultStore.PlanStore.Dispatch` | apps/web/src/state/usePlan.ts:465-915 | the store's methods, dispatched in any order, follow the state machine |
| `ProfileSync.ProfileTable.SaveUserProfile` | apps/web/src/services/server/database.ts:313-346 | insert when no row is expected, compare-and-increment when one is, conflict otherwise |
| `ProfileSync.ProfileStore.BeginBootstrap` | apps/web/src/state/usePlan.ts:504-518 | a bootstrap takes a fresh generation and turns cloud saves off until it finishes |
| `ProfileSync.ProfileStore.FinishFromCloud` | apps/web/src/state/usePlan.ts:607-641 | only the current bootstrap loads, with the row's revision |
| `ProfileSync.ProfileStore.FinishFromLocal` | apps/web/src/state/usePlan.ts:591-638 | a local load leaves cloud mode and forgets the revision |
| `ProfileSync.ProfileStore.UpdatePlan` | apps/web/src/state/usePlan.ts:646-685 | an edit is in the plan and marked for saving |
| `ProfileSync.ProfileStore.BeginFlush` | apps/web/src/state/usePlan.ts:87-106 | a flush sends exactly when marked, idle, unconflicted and in cloud mode, under its own owner |
| `ProfileSync.ProfileStore.EndFlush` | apps/web/src/state/usePlan.ts:107-119 | a stale answer changes nothing but the in-flight flag; a conflict stops saves; a transient failure marks again |
| `ProfileSync.SaveKeepsLogs` | apps/web/src/services/server/database.ts:313-346 | an accepted save appends a plan of the same owner that includes what it replaces |
| `ProfileSync.SavedExactlyWhenCurrent` | apps/web/src/services/server/database.ts:313-346 | a save is accepted exactly when it names the row as it stands, becomes the row one revision up, touches nobody else's, and makes the next save against the old revision conflict |
| `ProfileSync.StepKeeps` | apps/web/src/state/usePlan.ts:504-644 | every event in any browser or at the server keeps the system invariant |
| `ProfileSync.RunKeeps` | apps/web/src/state/usePlan.ts:87-120 | so does every run from fresh browsers and an empty table |
| `ProfileSync.AcceptedSaveWasInformed` | apps/web/src/services/server/database.ts:313-346 | in every run an accepted save replaces nothing or the latest revision, which its browser had loaded or written, with the same owner's plan including every edit replaced |
| `ProfileSync.NoStoredEditIsLost` | apps/web/src/services/server/database.ts:313-346 | over any continuation a stored row only grows |
| `ProfileSync.NoEditIsForgotten` | apps/web/src/state/usePlan.ts:87-120 | every edit of a loaded cloud plan is stored, in flight, still marked, or stopped by a conflict |
| `ProfileSync.EditStaysMarked` | apps/web/src/state/usePlan.ts:671-676 | an edit stays marked through every way a save in flight can end and every flush that is refused, until the browser really sends it or bootstraps again, and stays in the plan unless a bootstrap already under way loads another |
| `ProfileSync.FlushDelivers` | apps/web/src/state/usePlan.ts:87-120 | a flush whose exchange completes stores the plan and leaves the browser clean at the new revision when it named the current one, and otherwise stores nothing and detects the conflict |
| `ProfileSync.ConflictStopsSaves` | apps/web/src/state/usePlan.ts:87-119 | after a conflict a browser sends nothing more, whatever happens, until it bootstraps again |
| `ProfileSync.BootstrapLoadsTheRow` | apps/web/src/state/usePlan.ts:504-644 | from any state, a bootstrap that completes holds the row and its revision in cloud mode, marked only when the row is in an outdated form |
| `ProfileSync.BootstrapEditFlushStores` | apps/web/src/state/usePlan.ts:504-685 | from any state, signing in, editing and flushing with nobody saving in between stores the loaded row with the edit added |

## Left out

- RetirementSolve.MonotoneExactlyOutsideTheGap: its condition is the age alone, over every benefit, portfolio and state; a household from 62 to 64 may still be monotone, and `CashNeverFalls` gives three sufficient conditions a caller can read off its benefit, its forced distribution and its HSA.
- RothConversion.GivenConversionsSettleWithin: a bound that holds at every gain ratio, not the exact largest shortfall at one.
- RetirementSolve.ExecuteOrderedWithdrawals: the verdict's if-and-only-if holds under the margin condition only, since below it cash can fall and bisection has no meaning; the tolerance, overshoot and termination are proved without it.
- PathProjection.Path.Project: required distributions, Social Security benefits, salaries and spending targets arrive as arbitrary nonnegative amounts; the distribution divisor table, the benefit formula, premium pricing from the two-year income history, growth factors and `estimated_retirement_magi` would add only easy members. Rows omit the fields that are copied from those inputs.
- RetirementSolve.FinishOrderedWithdrawals: the accounts a year draws on are a sequence passed in and handed back rather than mutated through a reference, so aliasing of the account list is not modelled; shadow balances are an array drawn in place.
- ProfileSync.ProfileTable.SaveUserProfile: the table keeps every accepted plan, where the database keeps the latest and a counter; the latest entry is the row, its position the revision, and the first revision is 1.
- SweepCounts.RunNativeSweep: a plan that cannot even be prepared fails the sweep before its first path; here it breaks on the first path it has.
- Floating-point rounding and NaN: `f64` is exact here. `CEILING_MARGIN` is kept although it exists for rounding; the 1e-9 comparison in `federal_bracket_top` is exact equality.
- `frozen_threshold`: its inflation formula is an arbitrary scale in (0, 1].
- Market generators, historical returns and seeded streams: returns are an arbitrary input sequence.
- The care tables' inverse distributions, cohort growth and annuity factor: an arbitrary episode per quintile with nonnegative cost and positive duration, an arbitrary cut of income into quintiles, and arbitrary factors.
- State names and statuses, which nothing in the engine reads: of the states it lists only California has a table, and the others charge nothing.
- Legacy schema-version branches, date parsing and JSON validation: data plumbing.
- After-tax terminal wealth and percentile aggregation: simple folds over what is modelled.
- Account creation, update and deletion in the client store, local storage contents and error messages: an edit is a plan change that marks the profile, and a local load yields an arbitrary plan.
- HTTP routes, tokens, SQL text, migrations, worker glue and React components: foreign calls and user interface.
