// The Roth basis ledger: penalty-free principal, conversion lots with their
// five-tax-year clocks, and the cached total that makes a candidate penalty O(1).
module RothLedger {
  import opened Reals

  const EARLY_TRADITIONAL_PENALTY_RATE := 0.10
  const TRADITIONAL_PENALTY_AGE: nat := 60

  datatype Lot = Lot(conversionYear: int, remainingPrincipal: real)

  datatype Ledger = Ledger(enabled: bool, regularPrincipal: real, lots: seq<Lot>, unseasonedPrincipal: real)

  // ---- Specification -------------------------------------------------------

  function PrincipalOf(lots: seq<Lot>): real {
    if |lots| == 0 then 0.0 else lots[0].remainingPrincipal + PrincipalOf(lots[1..])
  }

  /** The part of the lots that was converted in tax year `y`. */
  function PrincipalFrom(lots: seq<Lot>, y: int): real {
    if |lots| == 0 then 0.0
    else (if lots[0].conversionYear == y then lots[0].remainingPrincipal else 0.0) + PrincipalFrom(lots[1..], y)
  }

  predicate Seasoned(lot: Lot, taxYear: int) {
    taxYear >= lot.conversionYear + 5
  }

  predicate NonNegativeLots(lots: seq<Lot>) {
    forall i | 0 <= i < |lots| :: 0.0 <= lots[i].remainingPrincipal
  }

  predicate InYearOrder(lots: seq<Lot>) {
    forall i, j | 0 <= i < j < |lots| :: lots[i].conversionYear < lots[j].conversionYear
  }

  /** The cache is exact and the lots are real amounts in year order. */
  predicate Consistent(l: Ledger) {
    && 0.0 <= l.regularPrincipal
    && l.unseasonedPrincipal == PrincipalOf(l.lots)
    && NonNegativeLots(l.lots)
    && InYearOrder(l.lots)
  }

  /** All the principal a ledger still knows. */
  function Basis(l: Ledger): real {
    l.regularPrincipal + l.unseasonedPrincipal
  }

  predicate ConvertedBefore(lots: seq<Lot>, taxYear: int) {
    forall i | 0 <= i < |lots| :: lots[i].conversionYear < taxYear
  }

  /** Every lot was converted before `before`, and none is five tax years old in `taxYear`. */
  predicate OnTheClock(l: Ledger, taxYear: int, before: int) {
    ConvertedBefore(l.lots, before) && forall i | 0 <= i < |l.lots| :: !Seasoned(l.lots[i], taxYear)
  }

  /** What every ledger satisfies at the end of a year, before tax year `taxYear`. */
  predicate Reachable(l: Ledger, taxYear: int) {
    Consistent(l) && ConvertedBefore(l.lots, taxYear) && (!l.enabled ==> l.lots == [])
  }

  /** How many lots at the front have seasoned. */
  function SeasonedCount(lots: seq<Lot>, taxYear: int): (n: nat)
    ensures n <= |lots|
  {
    if |lots| == 0 || !Seasoned(lots[0], taxYear) then 0 else 1 + SeasonedCount(lots[1..], taxYear)
  }

  function Season(l: Ledger, taxYear: int): Ledger {
    var n := SeasonedCount(l.lots, taxYear);
    if n == 0 then l
    else
      var principal := PrincipalOf(l.lots[..n]);
      Ledger(l.enabled, l.regularPrincipal + principal, l.lots[n..], Pos(l.unseasonedPrincipal - principal))
  }

  function ConsumeLots(lots: seq<Lot>, remaining: real): (r: seq<Lot>)
    ensures |r| == |lots|
  {
    if |lots| == 0 then []
    else if remaining <= 0.0 then lots
    else
      var used := Min(remaining, lots[0].remainingPrincipal);
      [Lot(lots[0].conversionYear, lots[0].remainingPrincipal - used)] + ConsumeLots(lots[1..], remaining - used)
  }

  function Consume(l: Ledger, withdrawal: real): Ledger {
    if !l.enabled || withdrawal <= 0.0 then l
    else
      var regularUsed := Min(withdrawal, l.regularPrincipal);
      var remaining := withdrawal - regularUsed;
      Ledger(l.enabled, l.regularPrincipal - regularUsed, ConsumeLots(l.lots, remaining),
             Pos(l.unseasonedPrincipal - Min(remaining, l.unseasonedPrincipal)))
  }

  function Retained(lots: seq<Lot>): seq<Lot> {
    if |lots| == 0 then []
    else if lots[0].remainingPrincipal > 0.0 then [lots[0]] + Retained(lots[1..])
    else Retained(lots[1..])
  }

  /** What a funded withdrawal leaves: the basis consumed, and emptied lots dropped. */
  function Withdraw(l: Ledger, withdrawal: real): Ledger {
    if !l.enabled || withdrawal <= 0.0 then l
    else
      var used := Consume(l, withdrawal);
      used.(lots := Retained(used.lots))
  }

  function Convert(l: Ledger, taxYear: int, principal: real): Ledger {
    if !l.enabled then l
    else l.(lots := l.lots + [Lot(taxYear, principal)], unseasonedPrincipal := l.unseasonedPrincipal + principal)
  }

  /** The start of a year: the ledger closes at 60, and seasons every year before it. */
  function StartYear(l: Ledger, age: nat, taxYear: int): Ledger {
    if !l.enabled then l
    else if age >= TRADITIONAL_PENALTY_AGE then Ledger(false, 0.0, [], 0.0)
    else Season(l, taxYear)
  }

  /** The O(1) penalty the solver reads for every candidate. */
  function ConversionPenalty(l: Ledger, withdrawal: real, age: nat): real {
    if !l.enabled || withdrawal <= 0.0 || age >= TRADITIONAL_PENALTY_AGE then 0.0
    else Min(Pos(withdrawal - l.regularPrincipal), l.unseasonedPrincipal) * EARLY_TRADITIONAL_PENALTY_RATE
  }

  /**
   * The penalty as section 408A(d)(4) of the Internal Revenue Code orders it:
   * regular principal first, then conversions oldest-first, each charged only
   * while it is inside its own five-tax-year window.
   */
  function WalkPenalty(l: Ledger, withdrawal: real, age: nat, taxYear: int): real {
    if !l.enabled || withdrawal <= 0.0 || age >= TRADITIONAL_PENALTY_AGE then 0.0
    else WalkLots(l.lots, Pos(withdrawal - l.regularPrincipal), taxYear)
  }

  function WalkLots(lots: seq<Lot>, remaining: real, taxYear: int): real {
    if |lots| == 0 then 0.0
    else
      var used := Min(remaining, lots[0].remainingPrincipal);
      (if Seasoned(lots[0], taxYear) then 0.0 else used * EARLY_TRADITIONAL_PENALTY_RATE)
      + WalkLots(lots[1..], remaining - used, taxYear)
  }

  // ---- The ledger's invariants ---------------------------------------------

  lemma {:induction false} PrincipalSplits(lots: seq<Lot>, n: nat)
    requires n <= |lots|
    ensures PrincipalOf(lots) == PrincipalOf(lots[..n]) + PrincipalOf(lots[n..])
  {
    if n > 0 {
      PrincipalSplits(lots[1..], n - 1);
      assert lots[..n][1..] == lots[1..][..n - 1];
      assert lots[1..][n - 1..] == lots[n..];
    } else {
      assert lots[0..] == lots;
    }
  }

  lemma {:induction false} PrincipalNonNegative(lots: seq<Lot>)
    requires NonNegativeLots(lots)
    ensures 0.0 <= PrincipalOf(lots)
  {
    if |lots| > 0 {
      assert forall i | 0 <= i < |lots[1..]| :: lots[1..][i] == lots[i + 1];
      PrincipalNonNegative(lots[1..]);
    }
  }

  lemma {:induction false} SeasonedPrefix(lots: seq<Lot>, taxYear: int)
    ensures var n := SeasonedCount(lots, taxYear);
            && (forall i | 0 <= i < n :: Seasoned(lots[i], taxYear))
            && (n < |lots| ==> !Seasoned(lots[n], taxYear))
  {
    if |lots| > 0 && Seasoned(lots[0], taxYear) {
      SeasonedPrefix(lots[1..], taxYear);
    }
  }

  /** Seasoning keeps the cache exact and leaves only lots still on the clock. */
  lemma SeasonKeeps(l: Ledger, taxYear: int, before: int)
    requires Consistent(l) && ConvertedBefore(l.lots, before)
    ensures Consistent(Season(l, taxYear)) && OnTheClock(Season(l, taxYear), taxYear, before)
    ensures Basis(Season(l, taxYear)) == Basis(l)
  {
    var n := SeasonedCount(l.lots, taxYear);
    SeasonedPrefix(l.lots, taxYear);
    PrincipalSplits(l.lots, n);
    PrincipalNonNegative(l.lots[..n]);
    PrincipalNonNegative(l.lots[n..]);
    hide PrincipalOf;
    hide SeasonedCount;
    SuffixKeepsOrder(l.lots, n, before);
    if n < |l.lots| {
      hide InYearOrder;
      assert forall i | 0 <= i < |l.lots[n..]| :: l.lots[n].conversionYear <= l.lots[n..][i].conversionYear;
    }
    assert l.lots[0..] == l.lots;
  }

  lemma SuffixKeepsOrder(lots: seq<Lot>, n: nat, before: int)
    requires n <= |lots| && InYearOrder(lots) && NonNegativeLots(lots) && ConvertedBefore(lots, before)
    ensures InYearOrder(lots[n..]) && NonNegativeLots(lots[n..]) && ConvertedBefore(lots[n..], before)
    ensures forall i | 0 <= i < |lots[n..]| :: lots[n].conversionYear <= lots[n..][i].conversionYear
  {
    assert forall i | 0 <= i < |lots[n..]| :: lots[n..][i] == lots[n + i];
  }

  /** Consuming takes what it can from each lot, never more, and never reorders them. */
  lemma {:induction false} ConsumeLotsKeeps(lots: seq<Lot>, remaining: real)
    requires NonNegativeLots(lots)
    ensures var r := ConsumeLots(lots, remaining);
            && (forall i | 0 <= i < |lots| :: r[i].conversionYear == lots[i].conversionYear)
            && NonNegativeLots(r)
            && PrincipalOf(r) == PrincipalOf(lots) - Min(Pos(remaining), PrincipalOf(lots))
  {
    PrincipalNonNegative(lots);
    if |lots| > 0 && remaining > 0.0 {
      var used := Min(remaining, lots[0].remainingPrincipal);
      assert forall i | 0 <= i < |lots[1..]| :: lots[1..][i] == lots[i + 1];
      PrincipalNonNegative(lots[1..]);
      ConsumeLotsKeeps(lots[1..], remaining - used);
      var r := ConsumeLots(lots, remaining);
      assert r[1..] == ConsumeLots(lots[1..], remaining - used);
      forall i | 0 <= i < |lots|
        ensures r[i].conversionYear == lots[i].conversionYear && 0.0 <= r[i].remainingPrincipal
      {
        if i > 0 {
          assert r[i] == r[1..][i - 1] && lots[i] == lots[1..][i - 1];
        }
      }
    }
  }

  /** No lot is touched while an older one still holds anything, and none once the withdrawal is covered. */
  lemma {:induction false} ConsumesOldestFirst(lots: seq<Lot>, remaining: real, i: nat, j: nat)
    requires NonNegativeLots(lots) && i < j < |lots|
    ensures var r := ConsumeLots(lots, remaining);
            r[j].remainingPrincipal < lots[j].remainingPrincipal ==> r[i].remainingPrincipal == 0.0
    decreases j
  {
    if remaining > 0.0 {
      var used := Min(remaining, lots[0].remainingPrincipal);
      assert forall k | 0 <= k < |lots[1..]| :: lots[1..][k] == lots[k + 1];
      assert ConsumeLots(lots, remaining)[1..] == ConsumeLots(lots[1..], remaining - used);
      if i > 0 {
        ConsumesOldestFirst(lots[1..], remaining - used, i - 1, j - 1);
      } else if remaining <= lots[0].remainingPrincipal {
        ConsumeDone(lots[1..], remaining - used);
      }
    }
  }

  /** Dropping emptied lots loses no principal and keeps the order. */
  lemma RetainedKeeps(lots: seq<Lot>)
    requires NonNegativeLots(lots)
    requires InYearOrder(lots)
    ensures PrincipalOf(Retained(lots)) == PrincipalOf(lots)
    ensures forall x | x in Retained(lots) :: x in lots && x.remainingPrincipal > 0.0
    ensures InYearOrder(Retained(lots))
  {
    RetainedPrincipal(lots);
    RetainedAreLots(lots);
    RetainedInOrder(lots);
  }

  lemma {:induction false} RetainedPrincipal(lots: seq<Lot>)
    requires NonNegativeLots(lots)
    ensures PrincipalOf(Retained(lots)) == PrincipalOf(lots)
  {
    if |lots| > 0 {
      assert forall i | 0 <= i < |lots[1..]| :: lots[1..][i] == lots[i + 1];
      RetainedPrincipal(lots[1..]);
      assert lots[0].remainingPrincipal > 0.0 ==> Retained(lots)[1..] == Retained(lots[1..]);
    }
  }

  lemma {:induction false} RetainedAreLots(lots: seq<Lot>)
    ensures forall x | x in Retained(lots) :: x in lots && x.remainingPrincipal > 0.0
  {
    if |lots| > 0 {
      RetainedAreLots(lots[1..]);
    }
  }

  lemma {:induction false} RetainedInOrder(lots: seq<Lot>)
    requires InYearOrder(lots)
    ensures InYearOrder(Retained(lots))
  {
    if |lots| > 0 {
      var rest := lots[1..];
      assert forall i | 0 <= i < |rest| :: rest[i] == lots[i + 1];
      RetainedInOrder(rest);
      RetainedAreLots(rest);
      assert forall x | x in rest :: lots[0].conversionYear < x.conversionYear;
      hide Retained;
      Prepend(lots[0], Retained(rest));
    }
    OneMore(lots);
  }

  lemma OneMore(lots: seq<Lot>)
    ensures lots == [] ==> Retained(lots) == []
    ensures lots != [] ==> Retained(lots) == Retained(lots[1..]) || Retained(lots) == [lots[0]] + Retained(lots[1..])
  {
  }

  lemma Prepend(lot: Lot, lots: seq<Lot>)
    requires InYearOrder(lots) && forall i | 0 <= i < |lots| :: lot.conversionYear < lots[i].conversionYear
    ensures InYearOrder([lot] + lots)
  {
  }

  /** A withdrawal keeps the cache exact, the order, and every clock. */
  lemma WithdrawKeeps(l: Ledger, withdrawal: real, taxYear: int, before: int)
    requires Consistent(l) && OnTheClock(l, taxYear, before)
    ensures Consistent(Withdraw(l, withdrawal)) && OnTheClock(Withdraw(l, withdrawal), taxYear, before)
    ensures Basis(Withdraw(l, withdrawal)) == Basis(l) - (if l.enabled then Min(Pos(withdrawal), Basis(l)) else 0.0)
  {
    hide Consume;
    PrincipalNonNegative(l.lots);
    if l.enabled && withdrawal > 0.0 {
      var used := Consume(l, withdrawal);
      ConsumeKeeps(l, withdrawal, taxYear, before);
      RetainedKeeps(used.lots);
      var kept := Retained(used.lots);
      forall i | 0 <= i < |kept|
        ensures 0.0 <= kept[i].remainingPrincipal && kept[i].conversionYear < before && !Seasoned(kept[i], taxYear)
      {
        assert kept[i] in used.lots;
      }
    }
  }

  lemma ConsumeKeeps(l: Ledger, withdrawal: real, taxYear: int, before: int)
    requires Consistent(l) && OnTheClock(l, taxYear, before)
    ensures Consistent(Consume(l, withdrawal)) && OnTheClock(Consume(l, withdrawal), taxYear, before)
    ensures Basis(Consume(l, withdrawal)) == Basis(l) - (if l.enabled then Min(Pos(withdrawal), Basis(l)) else 0.0)
  {
    ConsumeLotsKeeps(l.lots, withdrawal - Min(withdrawal, l.regularPrincipal));
    PrincipalNonNegative(l.lots);
    hide ConsumeLots;
    hide PrincipalOf;
  }

  lemma {:induction false} PrincipalAppends(lots: seq<Lot>, lot: Lot)
    ensures PrincipalOf(lots + [lot]) == PrincipalOf(lots) + lot.remainingPrincipal
  {
    if |lots| > 0 {
      assert (lots + [lot])[1..] == lots[1..] + [lot];
      PrincipalAppends(lots[1..], lot);
    }
  }

  /** A conversion opens the newest lot. */
  lemma ConvertKeeps(l: Ledger, taxYear: int, principal: real)
    requires Consistent(l) && OnTheClock(l, taxYear, taxYear) && 0.0 <= principal
    ensures Consistent(Convert(l, taxYear, principal)) && OnTheClock(Convert(l, taxYear, principal), taxYear, taxYear + 1)
    ensures Basis(Convert(l, taxYear, principal)) == Basis(l) + (if l.enabled then principal else 0.0)
  {
    PrincipalAppends(l.lots, Lot(taxYear, principal));
  }

  /** A working year's flows move an open ledger's known principal by the deposit, less what regular principal covered. */
  lemma WorkingYearMovesBasis(l: Ledger, withdrawal: real, deposit: real)
    requires Consistent(l) && l.enabled && 0.0 <= withdrawal
    ensures Basis(WorkingLedger(l, withdrawal, deposit)) == Basis(l) - Min(withdrawal, l.regularPrincipal) + deposit
    ensures WorkingLedger(l, withdrawal, deposit).lots == l.lots
  {
  }

  /**
   * A conversion into a ledger without others: drawn within five tax years and
   * before 60 it costs a tenth of what regular principal does not cover, and from
   * then on nothing.
   */
  lemma FreshConversionIsCharged(l: Ledger, taxYear: int, principal: real, later: int, withdrawal: real, age: nat)
    requires l.enabled && Consistent(l) && l.lots == [] && 0.0 <= principal && 0.0 <= withdrawal
    requires age < TRADITIONAL_PENALTY_AGE
    ensures ConversionPenalty(StartYear(Convert(l, taxYear, principal), age, later), withdrawal, age)
         == if later < taxYear + 5 then 0.1 * Min(Pos(withdrawal - l.regularPrincipal), principal) else 0.0
  {
    var lots := [Lot(taxYear, principal)];
    assert l.lots + lots == lots && lots[1..] == [] && lots[..1] == lots && lots[..1][1..] == [];
    assert SeasonedCount(lots, later) == if later < taxYear + 5 then 0 else 1;
  }

  // ---- The O(1) penalty is the statutory walk ------------------------------

  lemma {:induction false} WalkIsTotal(lots: seq<Lot>, remaining: real, taxYear: int)
    requires 0.0 <= remaining
    requires NonNegativeLots(lots) && forall i | 0 <= i < |lots| :: !Seasoned(lots[i], taxYear)
    ensures WalkLots(lots, remaining, taxYear) == Min(remaining, PrincipalOf(lots)) * EARLY_TRADITIONAL_PENALTY_RATE
  {
    if |lots| > 0 {
      assert forall i | 0 <= i < |lots[1..]| :: lots[1..][i] == lots[i + 1];
      PrincipalNonNegative(lots[1..]);
      WalkIsTotal(lots[1..], remaining - Min(remaining, lots[0].remainingPrincipal), taxYear);
    }
  }

  /** One subtraction and one minimum charge exactly what the oldest-first walk would. */
  lemma PenaltyIsWalk(l: Ledger, withdrawal: real, age: nat, taxYear: int, before: int)
    requires Consistent(l) && OnTheClock(l, taxYear, before)
    ensures ConversionPenalty(l, withdrawal, age) == WalkPenalty(l, withdrawal, age, taxYear)
  {
    if l.enabled && withdrawal > 0.0 && age < TRADITIONAL_PENALTY_AGE {
      WalkIsTotal(l.lots, Pos(withdrawal - l.regularPrincipal), taxYear);
    }
  }

  /** Another dollar drawn from Roth owes at most ten cents more, and never less. */
  lemma PenaltySlope(l: Ledger, w: real, w2: real, age: nat)
    requires Consistent(l) && 0.0 <= w <= w2
    ensures 0.0 <= ConversionPenalty(l, w, age) <= ConversionPenalty(l, w2, age)
         <= ConversionPenalty(l, w, age) + 0.1 * (w2 - w)
  {
    PrincipalNonNegative(l.lots);
  }

  // ---- Whole paths ---------------------------------------------------------

  /** What one modeled year does to the ledger. */
  datatype LedgerYear = LedgerYear(age: nat, retired: bool, withdrawal: real, deposit: real, converts: bool, conversion: real) {
    predicate Valid() {
      0.0 <= withdrawal && 0.0 <= deposit && 0.0 <= conversion
    }
  }

  /** The ledger as the year's solver sees it. */
  function Opened(l: Ledger, y: LedgerYear, taxYear: int): Ledger {
    StartYear(l, y.age, taxYear)
  }

  function WorkingLedger(l: Ledger, withdrawal: real, deposit: real): Ledger {
    if l.enabled then l.(regularPrincipal := Pos(l.regularPrincipal - withdrawal) + deposit) else l
  }

  function YearStep(l: Ledger, y: LedgerYear, taxYear: int): Ledger {
    var begun := Opened(l, y, taxYear);
    if !y.retired then WorkingLedger(begun, y.withdrawal, y.deposit)
    else
      var drawn := Withdraw(begun, y.withdrawal);
      if y.converts then Convert(drawn, taxYear, y.conversion) else drawn
  }

  function After(l: Ledger, years: seq<LedgerYear>, taxYear: int): Ledger
    decreases |years|
  {
    if |years| == 0 then l
    else YearStep(After(l, years[..|years| - 1], taxYear), years[|years| - 1], taxYear + |years| - 1)
  }

  lemma OpenedKeeps(l: Ledger, y: LedgerYear, taxYear: int)
    requires Reachable(l, taxYear)
    ensures Reachable(Opened(l, y, taxYear), taxYear) && OnTheClock(Opened(l, y, taxYear), taxYear, taxYear)
  {
    hide Season;
    SeasonKeeps(l, taxYear, taxYear);
    SeasonStaysOpen(l, taxYear);
  }

  lemma SeasonStaysOpen(l: Ledger, taxYear: int)
    ensures Season(l, taxYear).enabled == l.enabled
    ensures l.lots == [] ==> Season(l, taxYear).lots == []
  {
  }

  lemma YearKeeps(l: Ledger, y: LedgerYear, taxYear: int)
    requires Reachable(l, taxYear) && y.Valid()
    ensures Reachable(YearStep(l, y, taxYear), taxYear + 1)
  {
    hide Opened;
    hide Consume;
    OpenedKeeps(l, y, taxYear);
    var begun := Opened(l, y, taxYear);
    if y.retired {
      WithdrawKeeps(begun, y.withdrawal, taxYear, taxYear);
      ConsumeStaysOpen(begun, y.withdrawal);
      ConvertKeeps(Withdraw(begun, y.withdrawal), taxYear, y.conversion);
    }
  }

  lemma ConsumeStaysOpen(l: Ledger, withdrawal: real)
    ensures Consume(l, withdrawal).enabled == l.enabled
  {
  }

  lemma {:induction false} PathReachable(start: Ledger, years: seq<LedgerYear>, taxYear: int)
    requires Consistent(start) && start.lots == [] && forall i | 0 <= i < |years| :: years[i].Valid()
    ensures Reachable(After(start, years, taxYear), taxYear + |years|)
    decreases |years|
  {
    hide YearStep;
    if |years| > 0 {
      var n := |years| - 1;
      PathReachable(start, years[..n], taxYear);
      YearKeeps(After(start, years[..n], taxYear), years[n], taxYear + n);
    }
  }

  /**
   * Every ledger a path can reach, in every year: the cached total is the sum of
   * the lots, the lots are in year order and all inside their five-year windows,
   * and the O(1) penalty is the oldest-first walk for every withdrawal.
   */
  lemma EveryYearConsistent(start: Ledger, years: seq<LedgerYear>, taxYear: int, y: LedgerYear, w: real)
    requires Consistent(start) && start.lots == [] && forall i | 0 <= i < |years| :: years[i].Valid()
    ensures var now := taxYear + |years|;
            var seen := Opened(After(start, years, taxYear), y, now);
            && Consistent(seen) && OnTheClock(seen, now, now)
            && ConversionPenalty(seen, w, y.age) == WalkPenalty(seen, w, y.age, now)
  {
    hide Opened;
    hide After;
    PathReachable(start, years, taxYear);
    var now := taxYear + |years|;
    OpenedKeeps(After(start, years, taxYear), y, now);
    PenaltyIsWalk(Opened(After(start, years, taxYear), y, now), w, y.age, now, now);
  }

  // ---- No dollar is penalized twice ----------------------------------------

  /** Principal converted in tax year `c` that a year's withdrawal is charged for. */
  function ChargedFrom(l: Ledger, y: LedgerYear, taxYear: int, c: int): real {
    var begun := Opened(l, y, taxYear);
    if y.retired then PrincipalFrom(begun.lots, c) - PrincipalFrom(Withdraw(begun, y.withdrawal).lots, c) else 0.0
  }

  function ChargedOver(l: Ledger, years: seq<LedgerYear>, taxYear: int, c: int): real
    decreases |years|
  {
    if |years| == 0 then 0.0
    else
      var n := |years| - 1;
      ChargedOver(l, years[..n], taxYear, c) + ChargedFrom(After(l, years[..n], taxYear), years[n], taxYear + n, c)
  }

  /** What a path converts in tax year `c`. */
  function ConvertedIn(years: seq<LedgerYear>, taxYear: int, c: int): real {
    if taxYear <= c < taxYear + |years| && years[c - taxYear].retired && years[c - taxYear].converts
    then years[c - taxYear].conversion else 0.0
  }

  lemma {:induction false} FromIsPart(lots: seq<Lot>, c: int)
    requires NonNegativeLots(lots)
    ensures 0.0 <= PrincipalFrom(lots, c)
  {
    if |lots| > 0 {
      assert forall i | 0 <= i < |lots[1..]| :: lots[1..][i] == lots[i + 1];
      FromIsPart(lots[1..], c);
    }
  }

  lemma {:induction false} FromSplits(lots: seq<Lot>, n: nat, c: int)
    requires n <= |lots|
    ensures PrincipalFrom(lots, c) == PrincipalFrom(lots[..n], c) + PrincipalFrom(lots[n..], c)
  {
    if n > 0 {
      FromSplits(lots[1..], n - 1, c);
      assert lots[..n][1..] == lots[1..][..n - 1];
      assert lots[1..][n - 1..] == lots[n..];
    } else {
      assert lots[0..] == lots;
    }
  }

  lemma {:induction false} FromNone(lots: seq<Lot>, c: int)
    requires forall i | 0 <= i < |lots| :: lots[i].conversionYear != c
    ensures PrincipalFrom(lots, c) == 0.0
  {
    if |lots| > 0 {
      assert forall i | 0 <= i < |lots[1..]| :: lots[1..][i] == lots[i + 1];
      FromNone(lots[1..], c);
    }
  }

  /** While the ledger is open a conversion joins its own tax year's principal, and no other's. */
  lemma ConvertJoinsItsYear(l: Ledger, taxYear: int, principal: real, c: int)
    ensures PrincipalFrom(Convert(l, taxYear, principal).lots, c)
         == PrincipalFrom(l.lots, c) + if l.enabled && c == taxYear then principal else 0.0
  {
    var lot := Lot(taxYear, principal);
    var pushed := l.lots + [lot];
    FromSplits(pushed, |l.lots|, c);
    assert pushed[..|l.lots|] == l.lots && pushed[|l.lots|..] == [lot] && [lot][1..] == [];
  }

  lemma OpenedShrinks(l: Ledger, y: LedgerYear, taxYear: int, c: int)
    requires NonNegativeLots(l.lots)
    ensures PrincipalFrom(Opened(l, y, taxYear).lots, c) <= PrincipalFrom(l.lots, c)
  {
    var n := SeasonedCount(l.lots, taxYear);
    FromSplits(l.lots, n, c);
    FromIsPart(l.lots, c);
    FromIsPart(l.lots[..n], c);
  }

  lemma YearCharges(l: Ledger, y: LedgerYear, taxYear: int, c: int)
    requires Reachable(l, taxYear) && y.Valid()
    ensures ChargedFrom(l, y, taxYear, c) + PrincipalFrom(YearStep(l, y, taxYear).lots, c)
         <= PrincipalFrom(l.lots, c) + (if c == taxYear && y.retired && y.converts then y.conversion else 0.0)
  {
    OpenedShrinks(l, y, taxYear, c);
    var drawn := Withdraw(Opened(l, y, taxYear), y.withdrawal);
    if y.retired && y.converts && drawn.enabled {
      var n := |drawn.lots|;
      var pushed := drawn.lots + [Lot(taxYear, y.conversion)];
      FromSplits(pushed, n, c);
      assert pushed[..n] == drawn.lots && pushed[n..] == [Lot(taxYear, y.conversion)];
    }
  }

  /**
   * Over a whole path, whatever was converted in one tax year is charged for at
   * most once: all the penalized principal of that year's conversion, in every
   * later year together, plus what the ledger still holds of it, fits inside the
   * amount converted.
   */
  lemma {:induction false} NoDollarPenalizedTwice(start: Ledger, years: seq<LedgerYear>, taxYear: int, c: int)
    requires Consistent(start) && start.lots == [] && forall i | 0 <= i < |years| :: years[i].Valid()
    ensures ChargedOver(start, years, taxYear, c) + PrincipalFrom(After(start, years, taxYear).lots, c)
         <= ConvertedIn(years, taxYear, c)
    ensures ChargedOver(start, years, taxYear, c) <= ConvertedIn(years, taxYear, c)
    decreases |years|
  {
    hide YearStep;
    hide ChargedFrom;
    PathReachable(start, years, taxYear);
    FromIsPart(After(start, years, taxYear).lots, c);
    if |years| > 0 {
      var n := |years| - 1;
      NoDollarPenalizedTwice(start, years[..n], taxYear, c);
      PathReachable(start, years[..n], taxYear);
      YearCharges(After(start, years[..n], taxYear), years[n], taxYear + n, c);
    }
  }

  // ---- Every converted dollar is accounted for -------------------------------

  /** What a year's opening releases of tax year `c`'s conversion: all of it at five tax years, or at 60. */
  function ReleasedFrom(l: Ledger, y: LedgerYear, taxYear: int, c: int): real {
    if l.enabled && (y.age >= TRADITIONAL_PENALTY_AGE || taxYear >= c + 5) then PrincipalFrom(l.lots, c) else 0.0
  }

  function ReleasedOver(l: Ledger, years: seq<LedgerYear>, taxYear: int, c: int): real
    decreases |years|
  {
    if |years| == 0 then 0.0
    else
      var n := |years| - 1;
      ReleasedOver(l, years[..n], taxYear, c) + ReleasedFrom(After(l, years[..n], taxYear), years[n], taxYear + n, c)
  }

  /** What a path converts in tax year `c` while its ledger is open. */
  function ConvertedOpen(l: Ledger, years: seq<LedgerYear>, taxYear: int, c: int): real {
    if taxYear <= c < taxYear + |years| && years[c - taxYear].retired && years[c - taxYear].converts
       && Opened(After(l, years[..c - taxYear], taxYear), years[c - taxYear], c).enabled
    then years[c - taxYear].conversion else 0.0
  }

  /** Seasoned lots are a prefix, and between them hold all the principal five tax years old. */
  lemma {:induction false} SeasonedHoldsOld(lots: seq<Lot>, taxYear: int, c: int)
    requires InYearOrder(lots)
    ensures PrincipalFrom(lots[SeasonedCount(lots, taxYear)..], c)
         == if taxYear >= c + 5 then 0.0 else PrincipalFrom(lots, c)
  {
    if |lots| > 0 && Seasoned(lots[0], taxYear) {
      assert forall i | 0 <= i < |lots[1..]| :: lots[1..][i] == lots[i + 1];
      SeasonedHoldsOld(lots[1..], taxYear, c);
      assert lots[SeasonedCount(lots, taxYear)..] == lots[1..][SeasonedCount(lots[1..], taxYear)..];
    } else {
      assert lots[0..] == lots;
      if taxYear >= c + 5 {
        FromNone(lots, c);
      }
    }
  }

  lemma OpeningReleases(l: Ledger, y: LedgerYear, taxYear: int, c: int)
    requires Reachable(l, taxYear)
    ensures PrincipalFrom(Opened(l, y, taxYear).lots, c) == PrincipalFrom(l.lots, c) - ReleasedFrom(l, y, taxYear, c)
  {
    SeasonedHoldsOld(l.lots, taxYear, c);
    assert l.lots[0..] == l.lots;
  }

  lemma YearAccounts(l: Ledger, y: LedgerYear, taxYear: int, c: int)
    requires Reachable(l, taxYear) && y.Valid()
    ensures ChargedFrom(l, y, taxYear, c) + ReleasedFrom(l, y, taxYear, c) + PrincipalFrom(YearStep(l, y, taxYear).lots, c)
         == PrincipalFrom(l.lots, c)
            + (if c == taxYear && y.retired && y.converts && Opened(l, y, taxYear).enabled then y.conversion else 0.0)
  {
    OpeningReleases(l, y, taxYear, c);
    ConsumeStaysOpen(Opened(l, y, taxYear), y.withdrawal);
    hide Opened;
    hide ReleasedFrom;
    var drawn := Withdraw(Opened(l, y, taxYear), y.withdrawal);
    if y.retired && y.converts && drawn.enabled {
      var n := |drawn.lots|;
      var pushed := drawn.lots + [Lot(taxYear, y.conversion)];
      FromSplits(pushed, n, c);
      assert pushed[..n] == drawn.lots && pushed[n..] == [Lot(taxYear, y.conversion)];
    }
  }

  /**
   * Every dollar converted while the ledger is open is accounted for exactly, in
   * every path: what was charged for, what five years or age 60 released, and
   * what the ledger still holds add up to it.
   */
  lemma {:induction false} ConversionsAreAccounted(start: Ledger, years: seq<LedgerYear>, taxYear: int, c: int)
    requires Consistent(start) && start.lots == [] && forall i | 0 <= i < |years| :: years[i].Valid()
    ensures ChargedOver(start, years, taxYear, c) + ReleasedOver(start, years, taxYear, c)
            + PrincipalFrom(After(start, years, taxYear).lots, c)
         == ConvertedOpen(start, years, taxYear, c)
    decreases |years|
  {
    hide YearStep;
    hide ChargedFrom;
    hide ReleasedFrom;
    hide Opened;
    if |years| > 0 {
      var n := |years| - 1;
      ConversionsAreAccounted(start, years[..n], taxYear, c);
      PathReachable(start, years[..n], taxYear);
      YearAccounts(After(start, years[..n], taxYear), years[n], taxYear + n, c);
      if taxYear <= c < taxYear + n {
        assert years[..n][c - taxYear] == years[c - taxYear] && years[..n][..c - taxYear] == years[..c - taxYear];
      } else if c == taxYear + n {
        assert years[..c - taxYear] == years[..n];
      }
    }
  }

  /** The penalty of a withdrawal is a tenth of the principal it removes from the lots. */
  lemma PenaltyIsTenthOfConsumed(l: Ledger, withdrawal: real, age: nat, taxYear: int, before: int)
    requires Consistent(l) && OnTheClock(l, taxYear, before) && age < TRADITIONAL_PENALTY_AGE
    ensures ConversionPenalty(l, withdrawal, age)
         == (PrincipalOf(l.lots) - PrincipalOf(Withdraw(l, withdrawal).lots)) * EARLY_TRADITIONAL_PENALTY_RATE
  {
    if l.enabled && withdrawal > 0.0 {
      ConsumeLotsKeeps(l.lots, withdrawal - Min(withdrawal, l.regularPrincipal));
      RetainedKeeps(Consume(l, withdrawal).lots);
    }
  }

  // ---- The ledger as the source updates it ---------------------------------

  /** Oldest lot first, until the withdrawal is covered. */
  method DrainLots(lots: seq<Lot>, withdrawal: real) returns (left: seq<Lot>)
    ensures left == ConsumeLots(lots, withdrawal)
  {
    hide ConsumeLots;
    left := lots;
    var remaining := withdrawal;
    var i := 0;
    assert lots[0..] == lots;
    while i < |left| && remaining > 0.0
      invariant 0 <= i <= |lots| == |left|
      invariant left[i..] == lots[i..]
      invariant ConsumeLots(lots, withdrawal) == left[..i] + ConsumeLots(lots[i..], remaining)
    {
      assert left[i] == left[i..][0] == lots[i..][0] == lots[i];
      ConsumeSplits(lots, i, remaining);
      var used := Min(remaining, left[i].remainingPrincipal);
      left := left[i := Lot(left[i].conversionYear, left[i].remainingPrincipal - used)];
      remaining := remaining - used;
      i := i + 1;
      assert left[..i] == left[..i - 1] + [left[i - 1]];
    }
    ConsumeDone(lots[i..], remaining);
    assert left == left[..i] + left[i..];
  }

  lemma ConsumeSplits(lots: seq<Lot>, i: nat, remaining: real)
    requires i < |lots| && remaining > 0.0
    ensures var used := Min(remaining, lots[i].remainingPrincipal);
            ConsumeLots(lots[i..], remaining)
            == [Lot(lots[i].conversionYear, lots[i].remainingPrincipal - used)] + ConsumeLots(lots[i + 1..], remaining - used)
  {
    assert lots[i..][1..] == lots[i + 1..];
  }

  lemma ConsumeDone(lots: seq<Lot>, remaining: real)
    requires remaining <= 0.0 || |lots| == 0
    ensures ConsumeLots(lots, remaining) == lots
  {
  }

  class RothBasisState {
    var enabled: bool
    var regularPrincipal: real
    var conversionLots: seq<Lot>
    var unseasonedPrincipal: real

    function View(): Ledger
      reads this
    {
      Ledger(enabled, regularPrincipal, conversionLots, unseasonedPrincipal)
    }

    constructor (enabled: bool, rothBalance: real)
      ensures View() == Ledger(enabled, rothBalance, [], 0.0)
    {
      this.enabled := enabled;
      regularPrincipal := rothBalance;
      conversionLots := [];
      unseasonedPrincipal := 0.0;
    }

    /** Lots at the front that have seasoned become regular principal. */
    method SeasonRothConversions(taxYear: int)
      modifies this
      ensures View() == Season(old(View()), taxYear)
    {
      var seasonedCount := 0;
      var seasonedPrincipal := 0.0;
      assert conversionLots[0..] == conversionLots;
      while seasonedCount < |conversionLots| && Seasoned(conversionLots[seasonedCount], taxYear)
        invariant 0 <= seasonedCount <= |conversionLots|
        invariant SeasonedCount(conversionLots, taxYear) == seasonedCount + SeasonedCount(conversionLots[seasonedCount..], taxYear)
        invariant seasonedPrincipal == PrincipalOf(conversionLots[..seasonedCount])
        invariant View() == old(View())
      {
        assert conversionLots[seasonedCount..][1..] == conversionLots[seasonedCount + 1..];
        PrincipalAppends(conversionLots[..seasonedCount], conversionLots[seasonedCount]);
        assert conversionLots[..seasonedCount] + [conversionLots[seasonedCount]] == conversionLots[..seasonedCount + 1];
        seasonedPrincipal := seasonedPrincipal + conversionLots[seasonedCount].remainingPrincipal;
        seasonedCount := seasonedCount + 1;
      }
      assert seasonedCount < |conversionLots| ==> conversionLots[seasonedCount..][0] == conversionLots[seasonedCount];
      if seasonedCount == 0 {
        return;
      }
      unseasonedPrincipal := Pos(unseasonedPrincipal - seasonedPrincipal);
      regularPrincipal := regularPrincipal + seasonedPrincipal;
      conversionLots := conversionLots[seasonedCount..];
    }

    /** Commit the selected withdrawal, oldest lot first. */
    method ConsumeRothBasis(withdrawal: real)
      modifies this
      ensures View() == Consume(old(View()), withdrawal)
    {
      if !enabled || withdrawal <= 0.0 {
        return;
      }
      var remaining := withdrawal;
      var regularUsed := Min(remaining, regularPrincipal);
      regularPrincipal := regularPrincipal - regularUsed;
      remaining := remaining - regularUsed;
      var conversionPrincipalUsed := Min(remaining, unseasonedPrincipal);
      unseasonedPrincipal := Pos(unseasonedPrincipal - conversionPrincipalUsed);
      conversionLots := DrainLots(conversionLots, remaining);
    }

    /** A finished withdrawal: consume, then drop emptied lots. */
    method CommitWithdrawal(withdrawal: real)
      modifies this
      ensures View() == Withdraw(old(View()), withdrawal)
    {
      if enabled && withdrawal > 0.0 {
        ConsumeRothBasis(withdrawal);
        conversionLots := Retained(conversionLots);
      }
    }

    method RecordConversion(taxYear: int, principal: real)
      modifies this
      ensures View() == Convert(old(View()), taxYear, principal)
      ensures conversionLots == old(conversionLots) + (if enabled then [Lot(taxYear, principal)] else [])
    {
      if enabled {
        conversionLots := conversionLots + [Lot(taxYear, principal)];
        unseasonedPrincipal := unseasonedPrincipal + principal;
      }
    }

    /** The top of the year loop. */
    method OpenYear(age: nat, taxYear: int)
      modifies this
      ensures View() == StartYear(old(View()), age, taxYear)
    {
      if age >= TRADITIONAL_PENALTY_AGE && enabled {
        enabled := false;
        regularPrincipal := 0.0;
        conversionLots := [];
        unseasonedPrincipal := 0.0;
      } else if enabled {
        SeasonRothConversions(taxYear);
      }
    }

    /** A working year's Roth flows, taken before its deposit is added. */
    method RecordWorkingYear(withdrawal: real, deposit: real)
      modifies this
      ensures View() == WorkingLedger(old(View()), withdrawal, deposit)
    {
      if enabled {
        regularPrincipal := Pos(regularPrincipal - withdrawal);
        regularPrincipal := regularPrincipal + deposit;
      }
    }
  }
}
