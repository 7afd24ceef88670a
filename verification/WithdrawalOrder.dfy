// The withdrawal order: Taxable, then Traditional as far as the band allows,
// then Roth, then the rest of Traditional, and HSA last.
module WithdrawalOrder {
  import opened Domain
  import opened HealthcarePremiums
  import opened Options
  import opened Reals

  datatype OrderedWithdrawal = OrderedWithdrawal(
    taxable: real,
    traditional: real,
    roth: real,
    hsa: real,
    total: real,
    taxableGain: real)

  datatype MagiTarget = MagiTarget(
    healthcare: RetirementHealthcare,
    retirementAge: nat,
    filingStatus: FilingStatus,
    householdSize: nat,
    committedMagi: real)

  // ---- Specification: what one bucket gives up -----------------------------

  function Balances(accounts: seq<Account>): (b: seq<real>)
    ensures |b| == |accounts|
  {
    seq(|accounts|, i requires 0 <= i < |accounts| => accounts[i].balance)
  }

  /** What accounts of one type still hold. */
  function Available(accounts: seq<Account>, balances: seq<real>, ty: AccountType): (a: real)
    requires |accounts| == |balances|
    ensures 0.0 <= a
  {
    if |accounts| == 0 then 0.0
    else (if accounts[0].accountType == ty then Pos(balances[0]) else 0.0) + Available(accounts[1..], balances[1..], ty)
  }

  /** Balances after taking `remaining` from one type, first account first. */
  function DrawDown(accounts: seq<Account>, balances: seq<real>, ty: AccountType, remaining: real): (left: seq<real>)
    requires |accounts| == |balances|
    ensures |left| == |balances|
  {
    if |accounts| == 0 then []
    else if remaining <= 0.0 || accounts[0].accountType != ty || balances[0] <= 0.0 then
      [balances[0]] + DrawDown(accounts[1..], balances[1..], ty, remaining)
    else
      var withdrawal := Min(remaining, balances[0]);
      [balances[0] - withdrawal] + DrawDown(accounts[1..], balances[1..], ty, remaining - withdrawal)
  }

  /** How much a draw of at most `limit` raises. */
  function Drawn(accounts: seq<Account>, balances: seq<real>, ty: AccountType, limit: real): (d: real)
    requires |accounts| == |balances|
    ensures 0.0 <= d <= Pos(limit)
  {
    Min(Pos(limit), Available(accounts, balances, ty))
  }

  /** The gain a taxable draw realizes; surplus cash was never invested. */
  function GainDrawn(accounts: seq<Account>, balances: seq<real>, remaining: real, gainRatio: real): real
    requires |accounts| == |balances|
  {
    if |accounts| == 0 then 0.0
    else if remaining <= 0.0 || accounts[0].accountType != Taxable || balances[0] <= 0.0 then
      GainDrawn(accounts[1..], balances[1..], remaining, gainRatio)
    else
      var withdrawal := Min(remaining, balances[0]);
      (if accounts[0].isSurplusCash then 0.0 else Times(withdrawal, gainRatio))
      + GainDrawn(accounts[1..], balances[1..], remaining - withdrawal, gainRatio)
  }

  predicate NonNegative(balances: seq<real>) {
    forall i | 0 <= i < |balances| :: 0.0 <= balances[i]
  }

  function Total(balances: seq<real>): real {
    if |balances| == 0 then 0.0 else balances[0] + Total(balances[1..])
  }

  lemma {:induction false} DrawNothing(accounts: seq<Account>, balances: seq<real>, ty: AccountType, remaining: real)
    requires |accounts| == |balances| && remaining <= 0.0
    ensures DrawDown(accounts, balances, ty, remaining) == balances
  {
    if |accounts| > 0 {
      DrawNothing(accounts[1..], balances[1..], ty, remaining);
    }
  }

  /** A draw takes exactly what it raised out of its own bucket and nothing from any other. */
  lemma {:induction false} DrawEffect(accounts: seq<Account>, balances: seq<real>, ty: AccountType, limit: real, other: AccountType)
    requires |accounts| == |balances|
    ensures Available(accounts, DrawDown(accounts, balances, ty, limit), other)
         == Available(accounts, balances, other) - (if other == ty then Drawn(accounts, balances, ty, limit) else 0.0)
  {
    if |accounts| > 0 {
      var w := FirstDraw(accounts, balances, ty, limit);
      DrawEffect(accounts[1..], balances[1..], ty, limit - w, other);
      var left := DrawDown(accounts, balances, ty, limit);
      FirstLeft(accounts, balances, ty, limit);
      DrawnAfterFirst(accounts, balances, ty, limit);
      hide DrawDown;
      hide Drawn;
    }
  }

  /** The first account keeps what the draw did not take from it. */
  lemma FirstLeft(accounts: seq<Account>, balances: seq<real>, ty: AccountType, limit: real)
    requires |accounts| == |balances| > 0
    ensures var left := DrawDown(accounts, balances, ty, limit);
            var w := FirstDraw(accounts, balances, ty, limit);
            left[0] == balances[0] - w && left[1..] == DrawDown(accounts[1..], balances[1..], ty, limit - w)
  {
  }

  lemma DrawnAfterFirst(accounts: seq<Account>, balances: seq<real>, ty: AccountType, limit: real)
    requires |accounts| == |balances| > 0
    ensures var w := FirstDraw(accounts, balances, ty, limit);
            Drawn(accounts, balances, ty, limit) == w + Drawn(accounts[1..], balances[1..], ty, limit - w)
  {
  }

  /** The portfolio falls by what the draw raised. */
  lemma {:induction false} DrawTotal(accounts: seq<Account>, balances: seq<real>, ty: AccountType, limit: real)
    requires |accounts| == |balances|
    ensures Total(DrawDown(accounts, balances, ty, limit)) == Total(balances) - Drawn(accounts, balances, ty, limit)
  {
    if |accounts| > 0 {
      var w := FirstDraw(accounts, balances, ty, limit);
      DrawTotal(accounts[1..], balances[1..], ty, limit - w);
      FirstLeft(accounts, balances, ty, limit);
      DrawnAfterFirst(accounts, balances, ty, limit);
      hide DrawDown;
      hide Drawn;
    }
  }

  lemma {:induction false} DrawKeepsNonNegative(accounts: seq<Account>, balances: seq<real>, ty: AccountType, limit: real)
    requires |accounts| == |balances| && NonNegative(balances)
    ensures NonNegative(DrawDown(accounts, balances, ty, limit))
  {
    if |accounts| > 0 {
      var left := DrawDown(accounts, balances, ty, limit);
      var w := FirstDraw(accounts, balances, ty, limit);
      DrawKeepsNonNegative(accounts[1..], balances[1..], ty, limit - w);
      assert left == [balances[0] - w] + DrawDown(accounts[1..], balances[1..], ty, limit - w);
    }
  }

  function FirstDraw(accounts: seq<Account>, balances: seq<real>, ty: AccountType, remaining: real): real
    requires |accounts| == |balances| > 0
  {
    if remaining <= 0.0 || accounts[0].accountType != ty || balances[0] <= 0.0 then 0.0 else Min(remaining, balances[0])
  }

  /** A draw that touches an account has emptied every earlier one of its type. */
  lemma {:induction false} FirstAccountFirst(accounts: seq<Account>, balances: seq<real>, ty: AccountType, limit: real, i: nat, j: nat)
    requires |accounts| == |balances| && NonNegative(balances) && i < j < |accounts|
    requires accounts[i].accountType == accounts[j].accountType == ty
    ensures var left := DrawDown(accounts, balances, ty, limit);
            left[j] < balances[j] ==> left[i] == 0.0
    decreases j
  {
    var w := FirstDraw(accounts, balances, ty, limit);
    var left := DrawDown(accounts, balances, ty, limit);
    FirstLeft(accounts, balances, ty, limit);
    assert left[j] == left[1..][j - 1];
    if i > 0 {
      FirstAccountFirst(accounts[1..], balances[1..], ty, limit - w, i - 1, j - 1);
    } else if limit - w <= 0.0 {
      DrawNothing(accounts[1..], balances[1..], ty, limit - w);
    }
  }

  /** Invested money realizes its share of gain, to the dollar; cash that was never invested realizes none. */
  lemma {:induction false} GainIsShare(accounts: seq<Account>, balances: seq<real>, remaining: real, gainRatio: real)
    requires |accounts| == |balances|
    ensures (forall a | a in accounts && a.accountType == Taxable :: !a.isSurplusCash) ==>
              GainDrawn(accounts, balances, remaining, gainRatio)
              == Times(Drawn(accounts, balances, Taxable, remaining), gainRatio)
    ensures (forall a | a in accounts && a.accountType == Taxable :: a.isSurplusCash) ==>
              GainDrawn(accounts, balances, remaining, gainRatio) == 0.0
  {
    hide Times;
    TimesZero(gainRatio);
    if |accounts| > 0 {
      assert accounts[0] in accounts;
      if accounts[0].accountType != Taxable || balances[0] <= 0.0 {
        GainIsShare(accounts[1..], balances[1..], remaining, gainRatio);
      } else {
        var w := Min(Pos(remaining), balances[0]);
        GainIsShare(accounts[1..], balances[1..], remaining - w, gainRatio);
        FirstOfDraw(accounts, balances, remaining, gainRatio);
        hide Drawn;
        hide GainDrawn;
        TimesSum(gainRatio, w, Drawn(accounts[1..], balances[1..], Taxable, remaining - w));
      }
    }
  }

  /** Another dollar of taxable draw realizes at most a dollar of gain, and none once dry. */
  lemma {:induction false} GainSlope(accounts: seq<Account>, balances: seq<real>, r: real, r2: real, gainRatio: real)
    requires |accounts| == |balances| && r <= r2 && 0.0 <= gainRatio <= 1.0
    ensures 0.0 <= GainDrawn(accounts, balances, r2, gainRatio) - GainDrawn(accounts, balances, r, gainRatio)
         <= Times(Drawn(accounts, balances, Taxable, r2) - Drawn(accounts, balances, Taxable, r), gainRatio)
    ensures Drawn(accounts, balances, Taxable, r) <= Drawn(accounts, balances, Taxable, r2)
  {
    hide Times;
    if |accounts| == 0 {
      TimesZero(gainRatio);
    } else if accounts[0].accountType != Taxable || balances[0] <= 0.0 {
      GainSlope(accounts[1..], balances[1..], r, r2, gainRatio);
    } else {
      GainSlope(accounts[1..], balances[1..], r - Min(Pos(r), balances[0]), r2 - Min(Pos(r2), balances[0]), gainRatio);
      FirstGainSlope(accounts, balances, r, r2, gainRatio);
    }
  }

  /** What the first taxable account adds to the slope of the rest. */
  lemma FirstGainSlope(accounts: seq<Account>, balances: seq<real>, r: real, r2: real, gainRatio: real)
    requires |accounts| == |balances| > 0 && accounts[0].accountType == Taxable && 0.0 < balances[0]
    requires r <= r2 && 0.0 <= gainRatio <= 1.0
    requires var rest, kept := accounts[1..], balances[1..];
             var left, left2 := r - Min(Pos(r), balances[0]), r2 - Min(Pos(r2), balances[0]);
             && 0.0 <= GainDrawn(rest, kept, left2, gainRatio) - GainDrawn(rest, kept, left, gainRatio)
                <= Times(Drawn(rest, kept, Taxable, left2) - Drawn(rest, kept, Taxable, left), gainRatio)
             && Drawn(rest, kept, Taxable, left) <= Drawn(rest, kept, Taxable, left2)
    ensures 0.0 <= GainDrawn(accounts, balances, r2, gainRatio) - GainDrawn(accounts, balances, r, gainRatio)
         <= Times(Drawn(accounts, balances, Taxable, r2) - Drawn(accounts, balances, Taxable, r), gainRatio)
    ensures Drawn(accounts, balances, Taxable, r) <= Drawn(accounts, balances, Taxable, r2)
  {
    hide Times;
    hide Drawn;
    hide GainDrawn;
    var w, w2 := Min(Pos(r), balances[0]), Min(Pos(r2), balances[0]);
    FirstOfDraw(accounts, balances, r, gainRatio);
    FirstOfDraw(accounts, balances, r2, gainRatio);
    var more := Drawn(accounts[1..], balances[1..], Taxable, r2 - w2) - Drawn(accounts[1..], balances[1..], Taxable, r - w);
    ScaledRise(w, w2, more, gainRatio);
  }

  lemma ScaledRise(w: real, w2: real, more: real, gainRatio: real)
    requires w <= w2 && 0.0 <= gainRatio
    ensures 0.0 <= Times(w2, gainRatio) - Times(w, gainRatio)
    ensures Times(w2 - w + more, gainRatio) == Times(w2, gainRatio) - Times(w, gainRatio) + Times(more, gainRatio)
  {
    hide Times;
    TimesMono(gainRatio, w, w2);
    TimesSwap(gainRatio, w);
    TimesSwap(gainRatio, w2);
    TimesDiff(gainRatio, w2, w);
    TimesSum(gainRatio, w2 - w, more);
  }

  lemma FirstOfDraw(accounts: seq<Account>, balances: seq<real>, r: real, gainRatio: real)
    requires |accounts| == |balances| > 0 && accounts[0].accountType == Taxable && 0.0 < balances[0]
    ensures Drawn(accounts, balances, Taxable, r)
         == Min(Pos(r), balances[0]) + Drawn(accounts[1..], balances[1..], Taxable, r - Min(Pos(r), balances[0]))
    ensures GainDrawn(accounts, balances, r, gainRatio)
         == (if accounts[0].isSurplusCash then 0.0 else Times(Min(Pos(r), balances[0]), gainRatio))
            + GainDrawn(accounts[1..], balances[1..], r - Min(Pos(r), balances[0]), gainRatio)
  {
    TimesZero(gainRatio);
  }

  // ---- Specification: the whole order --------------------------------------

  /** Room left for ordinary income under the band's ceiling; none set means no limit. */
  function TraditionalHeadroom(target: Option<MagiTarget>, age: nat, taxable: real, gainRatio: real): (room: Option<real>)
    ensures room.Some? ==> 0.0 <= room.value
  {
    if target.None? then None
    else
      var t := target.value;
      var committed := t.committedMagi + Times(taxable, gainRatio);
      match MagiBandFor(age, t.retirementAge, t.filingStatus, t.householdSize, committed, t.healthcare)
      case None => None
      case Some(band) => Some(Pos(band.ceiling - committed))
  }

  function Capped(amount: real, room: Option<real>): real {
    if room.None? then amount else Min(amount, room.value)
  }

  /** One leg: what it raised and what it left behind. */
  datatype Leg = Leg(drawn: real, left: seq<real>)

  function DrawLeg(accounts: seq<Account>, balances: seq<real>, ty: AccountType, limit: real): (leg: Leg)
    requires |accounts| == |balances|
    ensures |leg.left| == |balances|
  {
    Leg(Drawn(accounts, balances, ty, limit), DrawDown(accounts, balances, ty, Pos(limit)))
  }

  lemma LegDraws(accounts: seq<Account>, balances: seq<real>, ty: AccountType, limit: real)
    requires |accounts| == |balances|
    ensures var leg := DrawLeg(accounts, balances, ty, limit);
            && leg.drawn == Min(Pos(limit), Available(accounts, balances, ty))
            && Available(accounts, leg.left, Traditional)
               == Available(accounts, balances, Traditional) - (if ty == Traditional then leg.drawn else 0.0)
            && Available(accounts, leg.left, Roth)
               == Available(accounts, balances, Roth) - (if ty == Roth then leg.drawn else 0.0)
            && Available(accounts, leg.left, Hsa)
               == Available(accounts, balances, Hsa) - (if ty == Hsa then leg.drawn else 0.0)
  {
    DrawEffect(accounts, balances, ty, Pos(limit), Traditional);
    DrawEffect(accounts, balances, ty, Pos(limit), Roth);
    DrawEffect(accounts, balances, ty, Pos(limit), Hsa);
  }

  lemma LegConserves(accounts: seq<Account>, balances: seq<real>, ty: AccountType, limit: real)
    requires |accounts| == |balances| && NonNegative(balances)
    ensures var leg := DrawLeg(accounts, balances, ty, limit);
            Total(leg.left) == Total(balances) - leg.drawn && NonNegative(leg.left)
  {
    DrawTotal(accounts, balances, ty, Pos(limit));
    DrawKeepsNonNegative(accounts, balances, ty, Pos(limit));
  }

  datatype OrderOutcome = OrderOutcome(drawn: OrderedWithdrawal, left: seq<real>)

  /** The order leg by leg: each leg draws from what the previous ones left. */
  function Order(accounts: seq<Account>, balances: seq<real>, amount: real, age: nat, gainRatio: real,
                 target: Option<MagiTarget>): (o: OrderOutcome)
    requires |accounts| == |balances|
    ensures |o.left| == |balances|
  {
    var taxable := DrawLeg(accounts, balances, Taxable, Pos(amount));
    FromTraditional(accounts, taxable, Pos(amount) - taxable.drawn,
                    TraditionalHeadroom(target, age, taxable.drawn, gainRatio),
                    GainDrawn(accounts, balances, Pos(amount), gainRatio))
  }

  function FromTraditional(accounts: seq<Account>, taxable: Leg, remaining: real, room: Option<real>, gain: real): (o: OrderOutcome)
    requires |accounts| == |taxable.left|
    ensures |o.left| == |accounts|
  {
    var capped := DrawLeg(accounts, taxable.left, Traditional, Capped(remaining, room));
    FromRoth(accounts, taxable.drawn, capped, remaining - capped.drawn, gain)
  }

  function FromRoth(accounts: seq<Account>, taxable: real, capped: Leg, remaining: real, gain: real): (o: OrderOutcome)
    requires |accounts| == |capped.left|
    ensures |o.left| == |accounts|
  {
    var roth := DrawLeg(accounts, capped.left, Roth, remaining);
    OverTheCeiling(accounts, taxable, capped.drawn, roth, remaining - roth.drawn, gain)
  }

  function OverTheCeiling(accounts: seq<Account>, taxable: real, capped: real, roth: Leg, remaining: real, gain: real): (o: OrderOutcome)
    requires |accounts| == |roth.left|
    ensures |o.left| == |accounts|
  {
    var over := DrawLeg(accounts, roth.left, Traditional, remaining);
    FromHsa(accounts, taxable, capped + over.drawn, roth.drawn, over.left, remaining - over.drawn, gain)
  }

  function FromHsa(accounts: seq<Account>, taxable: real, traditional: real, roth: real, balances: seq<real>, remaining: real, gain: real): (o: OrderOutcome)
    requires |accounts| == |balances|
    ensures |o.left| == |accounts|
  {
    var hsa := DrawLeg(accounts, balances, Hsa, remaining);
    OrderOutcome(OrderedWithdrawal(taxable, traditional, roth, hsa.drawn, taxable + traditional + roth + hsa.drawn, gain),
                 hsa.left)
  }

  /** The same five legs as amounts, from what each bucket holds. */
  function Legs(want: real, tx: real, tr: real, ro: real, hs: real, room: Option<real>, gain: real): OrderedWithdrawal {
    var taxable := Min(Pos(want), tx);
    LegsFromTraditional(taxable, want - taxable, tr, ro, hs, room, gain)
  }

  function LegsFromTraditional(taxable: real, remaining: real, tr: real, ro: real, hs: real, room: Option<real>, gain: real): OrderedWithdrawal {
    var capped := Min(Pos(Capped(remaining, room)), tr);
    LegsFromRoth(taxable, capped, remaining - capped, tr - capped, ro, hs, gain)
  }

  function LegsFromRoth(taxable: real, capped: real, remaining: real, tr: real, ro: real, hs: real, gain: real): OrderedWithdrawal {
    var roth := Min(Pos(remaining), ro);
    LegsOverTheCeiling(taxable, capped, roth, remaining - roth, tr, hs, gain)
  }

  function LegsOverTheCeiling(taxable: real, capped: real, roth: real, remaining: real, tr: real, hs: real, gain: real): OrderedWithdrawal {
    var over := Min(Pos(remaining), tr);
    var hsa := Min(Pos(remaining - over), hs);
    OrderedWithdrawal(taxable, capped + over, roth, hsa, taxable + (capped + over) + roth + hsa, gain)
  }

  lemma LastLegs(accounts: seq<Account>, taxable: real, capped: real, roth: Leg, remaining: real, gain: real)
    requires |accounts| == |roth.left|
    ensures OverTheCeiling(accounts, taxable, capped, roth, remaining, gain).drawn
         == LegsOverTheCeiling(taxable, capped, roth.drawn, remaining, Available(accounts, roth.left, Traditional),
                               Available(accounts, roth.left, Hsa), gain)
  {
    hide Available;
    hide DrawLeg;
    hide Min;
    hide Pos;
    LegDraws(accounts, roth.left, Traditional, remaining);
    var over := DrawLeg(accounts, roth.left, Traditional, remaining);
    LegDraws(accounts, over.left, Hsa, remaining - over.drawn);
  }

  lemma RothLegs(accounts: seq<Account>, taxable: real, capped: Leg, remaining: real, gain: real)
    requires |accounts| == |capped.left|
    ensures FromRoth(accounts, taxable, capped, remaining, gain).drawn
         == LegsFromRoth(taxable, capped.drawn, remaining, Available(accounts, capped.left, Traditional),
                         Available(accounts, capped.left, Roth), Available(accounts, capped.left, Hsa), gain)
  {
    hide Available;
    hide DrawLeg;
    hide OverTheCeiling;
    hide LegsOverTheCeiling;
    LegDraws(accounts, capped.left, Roth, remaining);
    var roth := DrawLeg(accounts, capped.left, Roth, remaining);
    LastLegs(accounts, taxable, capped.drawn, roth, remaining - roth.drawn, gain);
  }

  lemma CappedLegs(accounts: seq<Account>, taxable: Leg, remaining: real, room: Option<real>, gain: real)
    requires |accounts| == |taxable.left|
    ensures FromTraditional(accounts, taxable, remaining, room, gain).drawn
         == LegsFromTraditional(taxable.drawn, remaining, Available(accounts, taxable.left, Traditional),
                                Available(accounts, taxable.left, Roth), Available(accounts, taxable.left, Hsa), room, gain)
  {
    hide Available;
    hide DrawLeg;
    hide FromRoth;
    hide LegsFromRoth;
    hide Capped;
    hide Min;
    hide Pos;
    var cap := Capped(remaining, room);
    LegDraws(accounts, taxable.left, Traditional, cap);
    var capped := DrawLeg(accounts, taxable.left, Traditional, cap);
    RothLegs(accounts, taxable.drawn, capped, remaining - capped.drawn, gain);
  }

  /** Leg by leg over accounts is the same as leg by leg over bucket totals. */
  lemma OrderIsLegs(accounts: seq<Account>, balances: seq<real>, amount: real, age: nat, gainRatio: real,
                    target: Option<MagiTarget>)
    requires |accounts| == |balances|
    ensures var o := Order(accounts, balances, amount, age, gainRatio, target);
            o.drawn == Legs(Pos(amount),
                            Available(accounts, balances, Taxable), Available(accounts, balances, Traditional),
                            Available(accounts, balances, Roth), Available(accounts, balances, Hsa),
                            TraditionalHeadroom(target, age, o.drawn.taxable, gainRatio), o.drawn.taxableGain)
  {
    hide Available;
    hide DrawLeg;
    hide GainDrawn;
    hide TraditionalHeadroom;
    hide FromTraditional;
    hide LegsFromTraditional;
    var want := Pos(amount);
    assert Pos(want) == want;
    hide Min;
    hide Pos;
    LegDraws(accounts, balances, Taxable, want);
    var taxable := DrawLeg(accounts, balances, Taxable, want);
    var room := TraditionalHeadroom(target, age, taxable.drawn, gainRatio);
    var gain := GainDrawn(accounts, balances, want, gainRatio);
    CappedLegs(accounts, taxable, want - taxable.drawn, room, gain);
    CarriesThrough(accounts, taxable, want - taxable.drawn, room, gain);
  }

  lemma CarriesThrough(accounts: seq<Account>, taxable: Leg, remaining: real, room: Option<real>, gain: real)
    requires |accounts| == |taxable.left|
    ensures FromTraditional(accounts, taxable, remaining, room, gain).drawn.taxable == taxable.drawn
    ensures FromTraditional(accounts, taxable, remaining, room, gain).drawn.taxableGain == gain
  {
    hide DrawLeg;
  }

  /** What a draw raises is exactly what leaves the accounts, and none goes below zero. */
  lemma OrderConserves(accounts: seq<Account>, balances: seq<real>, amount: real, age: nat, gainRatio: real,
                       target: Option<MagiTarget>)
    requires |accounts| == |balances| && NonNegative(balances)
    ensures var o := Order(accounts, balances, amount, age, gainRatio, target);
            Total(o.left) == Total(balances) - o.drawn.total && NonNegative(o.left)
  {
    hide Total;
    hide DrawLeg;
    hide GainDrawn;
    hide TraditionalHeadroom;
    hide NonNegative;
    var first := DrawLeg(accounts, balances, Taxable, Pos(amount));
    LegConserves(accounts, balances, Taxable, Pos(amount));
    var rest1 := Pos(amount) - first.drawn;
    var cap := Capped(rest1, TraditionalHeadroom(target, age, first.drawn, gainRatio));
    var capped := DrawLeg(accounts, first.left, Traditional, cap);
    LegConserves(accounts, first.left, Traditional, cap);
    var rest2 := rest1 - capped.drawn;
    var roth := DrawLeg(accounts, capped.left, Roth, rest2);
    LegConserves(accounts, capped.left, Roth, rest2);
    var rest3 := rest2 - roth.drawn;
    var over := DrawLeg(accounts, roth.left, Traditional, rest3);
    LegConserves(accounts, roth.left, Traditional, rest3);
    LegConserves(accounts, over.left, Hsa, rest3 - over.drawn);
  }

  /** What a draw reports from one bucket. */
  function DrawnFromType(d: OrderedWithdrawal, ty: AccountType): real {
    match ty
    case Taxable => d.taxable
    case Traditional => d.traditional
    case Roth => d.roth
    case Hsa => d.hsa
  }

  /** Bucket by bucket, what the order reports as drawn is what the accounts of that type lost. */
  lemma OrderTakesWhatItReports(accounts: seq<Account>, balances: seq<real>, amount: real, age: nat, gainRatio: real,
                                target: Option<MagiTarget>, ty: AccountType)
    requires |accounts| == |balances|
    ensures var o := Order(accounts, balances, amount, age, gainRatio, target);
            Available(accounts, o.left, ty) == Available(accounts, balances, ty) - DrawnFromType(o.drawn, ty)
  {
    hide Available;
    hide GainDrawn;
    hide TraditionalHeadroom;
    hide Capped;
    hide DrawLeg;
    var first := DrawLeg(accounts, balances, Taxable, Pos(amount));
    LegLeaves(accounts, balances, Taxable, Pos(amount), ty);
    var rest1 := Pos(amount) - first.drawn;
    var cap := Capped(rest1, TraditionalHeadroom(target, age, first.drawn, gainRatio));
    var capped := DrawLeg(accounts, first.left, Traditional, cap);
    LegLeaves(accounts, first.left, Traditional, cap, ty);
    var rest2 := rest1 - capped.drawn;
    var roth := DrawLeg(accounts, capped.left, Roth, rest2);
    LegLeaves(accounts, capped.left, Roth, rest2, ty);
    var rest3 := rest2 - roth.drawn;
    var over := DrawLeg(accounts, roth.left, Traditional, rest3);
    LegLeaves(accounts, roth.left, Traditional, rest3, ty);
    LegLeaves(accounts, over.left, Hsa, rest3 - over.drawn, ty);
  }

  lemma LegLeaves(accounts: seq<Account>, balances: seq<real>, ty: AccountType, limit: real, other: AccountType)
    requires |accounts| == |balances|
    ensures var leg := DrawLeg(accounts, balances, ty, limit);
            Available(accounts, leg.left, other) == Available(accounts, balances, other) - if other == ty then leg.drawn else 0.0
  {
    DrawEffect(accounts, balances, ty, Pos(limit), other);
  }

  /** Nonnegative balances are worth exactly the sum of the four buckets. */
  lemma {:induction false} TotalIsByType(accounts: seq<Account>, balances: seq<real>)
    requires |accounts| == |balances| && NonNegative(balances)
    ensures Total(balances) == Available(accounts, balances, Taxable) + Available(accounts, balances, Traditional)
                               + Available(accounts, balances, Roth) + Available(accounts, balances, Hsa)
  {
    if |accounts| > 0 {
      TotalIsByType(accounts[1..], balances[1..]);
    }
  }

  // ---- What the order promises ---------------------------------------------

  /**
   * The ceiling is a preference, never a cap: with or without one, a draw raises
   * exactly the smaller of the amount asked for and what the portfolio holds.
   */
  lemma OrderRaisesWhatItCan(accounts: seq<Account>, balances: seq<real>, amount: real, age: nat, gainRatio: real,
                             target: Option<MagiTarget>)
    requires |accounts| == |balances| && NonNegative(balances)
    ensures Order(accounts, balances, amount, age, gainRatio, target).drawn.total == Min(Pos(amount), Total(balances))
  {
    hide Order;
    hide TraditionalHeadroom;
    OrderIsLegs(accounts, balances, amount, age, gainRatio, target);
    TotalIsByType(accounts, balances);
  }

  /** How much Traditional the order takes before it turns to Roth. */
  function UnderTheCeiling(tr: real, room: Option<real>): real {
    if room.None? then tr else Min(tr, room.value)
  }

  /**
   * The order as a reader would state it, with no legs: Taxable first;
   * Traditional up to the ceiling before any Roth; over the ceiling only once
   * Roth is dry; and HSA only once everything else is.
   */
  predicate InPriority(d: OrderedWithdrawal, want: real, tx: real, tr: real, ro: real, hs: real, room: Option<real>) {
    && 0.0 <= d.taxable <= tx && 0.0 <= d.traditional <= tr && 0.0 <= d.roth <= ro && 0.0 <= d.hsa <= hs
    && d.taxable + d.traditional + d.roth + d.hsa == Min(want, tx + tr + ro + hs)
    && (d.taxable < tx ==> d.traditional == 0.0 == d.roth && d.hsa == 0.0)
    && (d.traditional < UnderTheCeiling(tr, room) ==> d.roth == 0.0)
    && (d.traditional > UnderTheCeiling(tr, room) ==> d.roth == ro)
    && (d.traditional < tr || d.roth < ro ==> d.hsa == 0.0)
  }

  predicate SameAmounts(d: OrderedWithdrawal, e: OrderedWithdrawal) {
    d.taxable == e.taxable && d.traditional == e.traditional && d.roth == e.roth && d.hsa == e.hsa
  }

  lemma LegsInPriority(want: real, tx: real, tr: real, ro: real, hs: real, room: Option<real>, gain: real)
    requires 0.0 <= want && 0.0 <= tx && 0.0 <= tr && 0.0 <= ro && 0.0 <= hs
    requires room.Some? ==> 0.0 <= room.value
    ensures InPriority(Legs(want, tx, tr, ro, hs, room, gain), want, tx, tr, ro, hs, room)
  {
  }

  lemma OnePriorityDraw(d: OrderedWithdrawal, e: OrderedWithdrawal, want: real, tx: real, tr: real, ro: real, hs: real,
                        room: Option<real>)
    requires room.Some? ==> 0.0 <= room.value
    requires InPriority(d, want, tx, tr, ro, hs, room) && InPriority(e, want, tx, tr, ro, hs, room)
    ensures SameAmounts(d, e)
  {
  }

  /** The order draws the one combination in priority, whatever the ceiling: nothing else satisfies it. */
  lemma OrderIsThePriorityDraw(accounts: seq<Account>, balances: seq<real>, amount: real, age: nat, gainRatio: real,
                               target: Option<MagiTarget>, d: OrderedWithdrawal)
    requires |accounts| == |balances|
    ensures var o := Order(accounts, balances, amount, age, gainRatio, target).drawn;
            InPriority(d, Pos(amount), Available(accounts, balances, Taxable), Available(accounts, balances, Traditional),
                       Available(accounts, balances, Roth), Available(accounts, balances, Hsa),
                       TraditionalHeadroom(target, age, o.taxable, gainRatio))
            <==> SameAmounts(d, o)
  {
    hide Order;
    hide Legs;
    hide Available;
    hide TraditionalHeadroom;
    var o := Order(accounts, balances, amount, age, gainRatio, target).drawn;
    var room := TraditionalHeadroom(target, age, o.taxable, gainRatio);
    var tx, tr := Available(accounts, balances, Taxable), Available(accounts, balances, Traditional);
    var ro, hs := Available(accounts, balances, Roth), Available(accounts, balances, Hsa);
    OrderIsLegs(accounts, balances, amount, age, gainRatio, target);
    LegsInPriority(Pos(amount), tx, tr, ro, hs, room, o.taxableGain);
    if InPriority(d, Pos(amount), tx, tr, ro, hs, room) {
      OnePriorityDraw(d, o, Pos(amount), tx, tr, ro, hs, room);
    }
  }

  /** The band a target reads once the taxable leg's gain is settled. */
  function BandAfter(t: MagiTarget, age: nat, taxable: real, gainRatio: real): Option<MagiBand> {
    MagiBandFor(age, t.retirementAge, t.filingStatus, t.householdSize, t.committedMagi + Times(taxable, gainRatio), t.healthcare)
  }

  /**
   * Roth is drawn while Traditional is left only when a band exists and the
   * year's income has reached its ceiling; and income goes past the ceiling only
   * once Roth is dry. With no target Traditional always goes first.
   */
  lemma RothOnlyAtTheCeiling(accounts: seq<Account>, balances: seq<real>, amount: real, age: nat, gainRatio: real,
                             target: Option<MagiTarget>)
    requires |accounts| == |balances|
    ensures var drawn := Order(accounts, balances, amount, age, gainRatio, target).drawn;
            var traditionalLeft := drawn.traditional < Available(accounts, balances, Traditional);
            match target
            case None => drawn.roth > 0.0 ==> !traditionalLeft
            case Some(t) =>
              var band := BandAfter(t, age, drawn.taxable, gainRatio);
              && (drawn.roth > 0.0 && traditionalLeft ==> band.Some? && MagiAfter(t, drawn, gainRatio) >= band.value.ceiling)
              && (band.Some? && MagiAfter(t, drawn, gainRatio) > band.value.ceiling ==>
                    drawn.traditional == 0.0 || drawn.roth == Available(accounts, balances, Roth))
              && (band.None? && drawn.roth > 0.0 ==> !traditionalLeft)
  {
    hide Order;
    hide Legs;
    hide Available;
    hide MagiBandFor;
    hide Times;
    var o := Order(accounts, balances, amount, age, gainRatio, target).drawn;
    OrderIsThePriorityDraw(accounts, balances, amount, age, gainRatio, target, o);
  }

  /** Asked for more, no bucket gives less, and taxable gains never outrun the taxable draw. */
  lemma EveryLegRises(accounts: seq<Account>, balances: seq<real>, less: real, more: real, age: nat, gainRatio: real,
                      target: Option<MagiTarget>)
    requires |accounts| == |balances| && less <= more && 0.0 <= gainRatio <= 1.0
    ensures var a := Order(accounts, balances, less, age, gainRatio, target).drawn;
            var b := Order(accounts, balances, more, age, gainRatio, target).drawn;
            && 0.0 <= a.taxable <= b.taxable && 0.0 <= a.traditional <= b.traditional
            && 0.0 <= a.roth <= b.roth && 0.0 <= a.hsa <= b.hsa
            && 0.0 <= b.taxableGain - a.taxableGain <= b.taxable - a.taxable
  {
    hide TraditionalHeadroom;
    hide Order;
    hide Legs;
    hide Available;
    OrderIsLegs(accounts, balances, less, age, gainRatio, target);
    OrderIsLegs(accounts, balances, more, age, gainRatio, target);
    TaxableLegs(accounts, balances, less, more, age, gainRatio, target);
    var a := Order(accounts, balances, less, age, gainRatio, target).drawn;
    var b := Order(accounts, balances, more, age, gainRatio, target).drawn;
    var tx := Available(accounts, balances, Taxable);
    TaxableLeg(accounts, balances, less, age, gainRatio, target);
    TaxableLeg(accounts, balances, more, age, gainRatio, target);
    LegsRise(Pos(less), Pos(more), tx, Available(accounts, balances, Traditional),
             Available(accounts, balances, Roth), Available(accounts, balances, Hsa),
             TraditionalHeadroom(target, age, a.taxable, gainRatio), TraditionalHeadroom(target, age, b.taxable, gainRatio),
             a.taxableGain, b.taxableGain);
  }

  lemma TaxableLeg(accounts: seq<Account>, balances: seq<real>, amount: real, age: nat, gainRatio: real,
                   target: Option<MagiTarget>)
    requires |accounts| == |balances|
    ensures Order(accounts, balances, amount, age, gainRatio, target).drawn.taxable
         == Min(Pos(amount), Available(accounts, balances, Taxable))
  {
    hide TraditionalHeadroom;
    hide Order;
    OrderIsLegs(accounts, balances, amount, age, gainRatio, target);
  }

  /**
   * The ceiling is read after the taxable leg, so it is the same for any two
   * budgets that reach past Taxable; below that, no other bucket is touched.
   */
  lemma LegsRise(want: real, want2: real, tx: real, tr: real, ro: real, hs: real,
                 room: Option<real>, room2: Option<real>, gain: real, gain2: real)
    requires 0.0 <= want <= want2 && 0.0 <= tx && 0.0 <= tr && 0.0 <= ro && 0.0 <= hs
    requires tx <= want ==> room == room2
    requires room.Some? ==> 0.0 <= room.value
    requires room2.Some? ==> 0.0 <= room2.value
    ensures var a := Legs(want, tx, tr, ro, hs, room, gain);
            var b := Legs(want2, tx, tr, ro, hs, room2, gain2);
            && 0.0 <= a.taxable <= b.taxable && 0.0 <= a.traditional <= b.traditional
            && 0.0 <= a.roth <= b.roth && 0.0 <= a.hsa <= b.hsa
  {
    hide LegsFromRoth;
    var rest, rest2 := want - Min(want, tx), want2 - Min(want2, tx);
    var capped := Min(Pos(Capped(rest, room)), tr);
    var capped2 := Min(Pos(Capped(rest2, room2)), tr);
    RothLegsRise(Min(want, tx), Min(want2, tx), capped, capped2, rest - capped, rest2 - capped2, tr, ro, hs, gain, gain2);
  }

  lemma RothLegsRise(tax: real, tax2: real, capped: real, capped2: real, rest: real, rest2: real, tr: real, ro: real, hs: real,
                     gain: real, gain2: real)
    requires 0.0 <= capped <= capped2 <= tr && 0.0 <= rest <= rest2 && 0.0 <= ro && 0.0 <= hs
    ensures var a := LegsFromRoth(tax, capped, rest, tr - capped, ro, hs, gain);
            var b := LegsFromRoth(tax2, capped2, rest2, tr - capped2, ro, hs, gain2);
            && a.taxable == tax && b.taxable == tax2
            && 0.0 <= a.traditional <= b.traditional && 0.0 <= a.roth <= b.roth && 0.0 <= a.hsa <= b.hsa
  {
  }

  lemma TaxableLegs(accounts: seq<Account>, balances: seq<real>, less: real, more: real, age: nat, gainRatio: real,
                    target: Option<MagiTarget>)
    requires |accounts| == |balances| && less <= more && 0.0 <= gainRatio <= 1.0
    ensures var a := Order(accounts, balances, less, age, gainRatio, target).drawn;
            var b := Order(accounts, balances, more, age, gainRatio, target).drawn;
            0.0 <= b.taxableGain - a.taxableGain <= b.taxable - a.taxable
  {
    hide Available;
    hide DrawDown;
    hide GainDrawn;
    hide TraditionalHeadroom;
    hide Times;
    GainSlope(accounts, balances, Pos(less), Pos(more), gainRatio);
    TimesShare(Drawn(accounts, balances, Taxable, Pos(more)) - Drawn(accounts, balances, Taxable, Pos(less)), gainRatio);
  }

  /** The gain is between nothing and the whole taxable draw. */
  lemma GainWithinDraw(accounts: seq<Account>, balances: seq<real>, amount: real, age: nat, gainRatio: real,
                       target: Option<MagiTarget>)
    requires |accounts| == |balances| && 0.0 <= gainRatio <= 1.0
    ensures var a := Order(accounts, balances, amount, age, gainRatio, target).drawn;
            0.0 <= a.taxableGain <= Times(a.taxable, gainRatio) <= a.taxable
  {
    hide Available;
    hide DrawDown;
    hide GainDrawn;
    hide TraditionalHeadroom;
    hide Times;
    GainSlope(accounts, balances, 0.0, Pos(amount), gainRatio);
    TimesShare(Drawn(accounts, balances, Taxable, Pos(amount)), gainRatio);
    NoGain(accounts, balances, gainRatio);
  }

  lemma {:induction false} NoGain(accounts: seq<Account>, balances: seq<real>, gainRatio: real)
    requires |accounts| == |balances|
    ensures GainDrawn(accounts, balances, 0.0, gainRatio) == 0.0
  {
    if |accounts| > 0 {
      NoGain(accounts[1..], balances[1..], gainRatio);
    }
  }

  /** Draining everything leaves nothing for the ceiling to decide. */
  lemma FullDrainIgnoresCeiling(accounts: seq<Account>, balances: seq<real>, amount: real, age: nat, gainRatio: real,
                                target: Option<MagiTarget>)
    requires |accounts| == |balances| && NonNegative(balances) && Total(balances) <= amount
    ensures Order(accounts, balances, amount, age, gainRatio, target).drawn
         == Order(accounts, balances, amount, age, gainRatio, None).drawn
  {
    hide Order;
    hide TraditionalHeadroom;
    OrderIsLegs(accounts, balances, amount, age, gainRatio, target);
    OrderIsLegs(accounts, balances, amount, age, gainRatio, None);
    TotalIsByType(accounts, balances);
    SameTaxableLeg(accounts, balances, amount, age, gainRatio, target);
  }

  lemma SameTaxableLeg(accounts: seq<Account>, balances: seq<real>, amount: real, age: nat, gainRatio: real,
                       target: Option<MagiTarget>)
    requires |accounts| == |balances|
    ensures var a := Order(accounts, balances, amount, age, gainRatio, target).drawn;
            var b := Order(accounts, balances, amount, age, gainRatio, None).drawn;
            a.taxable == b.taxable && a.taxableGain == b.taxableGain
  {
  }

  /** Income the year reports after a draw, as the later premium tests will read it. */
  function MagiAfter(target: MagiTarget, drawn: OrderedWithdrawal, gainRatio: real): real {
    target.committedMagi + drawn.traditional + Times(drawn.taxable, gainRatio)
  }

  /**
   * Where Roth money covers what the capped leg leaves, the draw crosses neither
   * premium cliff: whatever surcharge and credit the committed income and the
   * realized gain already implied still hold for the year's final figure.
   */
  lemma CoveredDrawCrossesNeitherCliff(accounts: seq<Account>, balances: seq<real>, amount: real, age: nat, gainRatio: real,
                                       target: MagiTarget, people: nat)
    requires |accounts| == |balances| && 0.0 <= gainRatio <= 1.0
    requires var tx := Min(Pos(amount), Available(accounts, balances, Taxable));
             var room := TraditionalHeadroom(Some(target), age, tx, gainRatio);
             Pos(amount) - tx - Min(Capped(Pos(amount) - tx, room), Available(accounts, balances, Traditional))
             <= Available(accounts, balances, Roth)
    ensures var drawn := Order(accounts, balances, amount, age, gainRatio, Some(target)).drawn;
            var committed := target.committedMagi + Times(drawn.taxable, gainRatio);
            var magi := MagiAfter(target, drawn, gainRatio);
            && committed <= magi
            && (IrmaaApplies(age, target.retirementAge, target.healthcare) ==>
                  IrmaaAnnualSurcharge(magi, target.filingStatus, people)
                  == IrmaaAnnualSurcharge(committed, target.filingStatus, people))
            && (MarketplaceApplies(age, target.retirementAge, target.healthcare)
                && ExpectedContribution(committed, target.householdSize).Some? ==>
                  ExpectedContribution(magi, target.householdSize).Some?)
  {
    hide Order;
    hide Times;
    hide Available;
    hide MagiBandFor;
    hide IrmaaAnnualSurcharge;
    hide ExpectedContribution;
    OrderIsLegs(accounts, balances, amount, age, gainRatio, Some(target));
    var drawn := Order(accounts, balances, amount, age, gainRatio, Some(target)).drawn;
    var committed := target.committedMagi + Times(drawn.taxable, gainRatio);
    CoveredLegs(Pos(amount), Available(accounts, balances, Taxable), Available(accounts, balances, Traditional),
                Available(accounts, balances, Roth), Available(accounts, balances, Hsa),
                TraditionalHeadroom(Some(target), age, drawn.taxable, gainRatio), drawn.taxableGain);
    hide Legs;
    hide Capped;
    BandHoldsCommitted(age, target.retirementAge, target.filingStatus, target.householdSize, committed, target.healthcare);
    BandCrossesNeitherCliff(age, target.retirementAge, target.filingStatus, target.householdSize, committed,
                            target.healthcare, MagiAfter(target, drawn, gainRatio), people);
  }

  /** With enough Roth, nothing is drawn over the ceiling. */
  lemma CoveredLegs(want: real, tx: real, tr: real, ro: real, hs: real, room: Option<real>, gain: real)
    requires 0.0 <= want && 0.0 <= tx && 0.0 <= tr && 0.0 <= ro
    requires var rest := want - Min(want, tx); rest - Min(Capped(rest, room), tr) <= ro
    requires room.Some? ==> 0.0 <= room.value
    ensures var drawn := Legs(want, tx, tr, ro, hs, room, gain);
            && drawn.taxable == Min(want, tx) && 0.0 <= drawn.traditional
            && (room.Some? ==> drawn.traditional <= room.value)
  {
  }

  // ---- The loops -----------------------------------------------------------

  lemma AvailableSplits(accounts: seq<Account>, balances: seq<real>, i: nat, ty: AccountType)
    requires |accounts| == |balances| && i < |accounts|
    ensures Available(accounts[i..], balances[i..], ty)
         == (if accounts[i].accountType == ty then Pos(balances[i]) else 0.0)
            + Available(accounts[i + 1..], balances[i + 1..], ty)
  {
    assert accounts[i..][1..] == accounts[i + 1..];
    assert balances[i..][1..] == balances[i + 1..];
  }

  /** One account further along, the accounts behind it are settled. */
  lemma DrawDownSplits(accounts: seq<Account>, balances: seq<real>, i: nat, ty: AccountType, remaining: real,
                       settled: seq<real>, whole: seq<real>)
    requires |accounts| == |balances| && i < |accounts|
    requires whole == settled + DrawDown(accounts[i..], balances[i..], ty, remaining)
    ensures var w := if remaining <= 0.0 || accounts[i].accountType != ty || balances[i] <= 0.0 then 0.0
                     else Min(remaining, balances[i]);
            whole == (settled + [balances[i] - w]) + DrawDown(accounts[i + 1..], balances[i + 1..], ty, remaining - w)
  {
    assert accounts[i..][1..] == accounts[i + 1..];
    assert balances[i..][1..] == balances[i + 1..];
  }

  lemma GainSplits(accounts: seq<Account>, balances: seq<real>, i: nat, remaining: real, gainRatio: real)
    requires |accounts| == |balances| && i < |accounts|
    ensures var w := if remaining <= 0.0 || accounts[i].accountType != Taxable || balances[i] <= 0.0 then 0.0
                     else Min(remaining, balances[i]);
            GainDrawn(accounts[i..], balances[i..], remaining, gainRatio)
            == (if accounts[i].isSurplusCash then 0.0 else Times(w, gainRatio))
               + GainDrawn(accounts[i + 1..], balances[i + 1..], remaining - w, gainRatio)
  {
    assert accounts[i..][1..] == accounts[i + 1..];
    assert balances[i..][1..] == balances[i + 1..];
  }

  lemma {:induction false} GainOfNothing(accounts: seq<Account>, balances: seq<real>, remaining: real, gainRatio: real)
    requires |accounts| == |balances| && remaining <= 0.0
    ensures GainDrawn(accounts, balances, remaining, gainRatio) == 0.0
  {
    if |accounts| > 0 {
      GainOfNothing(accounts[1..], balances[1..], remaining, gainRatio);
    }
  }

  /** Draw one type's accounts in turn, on the caller's scratch copy of the balances. */
  method DrawBucketBalances(accounts: seq<Account>, balances: array<real>, ty: AccountType, limit: real)
    returns (drawn: real)
    requires balances.Length == |accounts|
    modifies balances
    ensures balances[..] == DrawDown(accounts, old(balances[..]), ty, Pos(limit))
    ensures drawn == Drawn(accounts, old(balances[..]), ty, limit)
  {
    hide Available;
    hide DrawDown;
    ghost var was := balances[..];
    var remaining := Pos(limit);
    drawn := 0.0;
    var i := 0;
    assert accounts[0..] == accounts && was[0..] == was;
    while i < |accounts| && remaining > 0.0
      invariant 0 <= i <= |accounts| && 0.0 <= remaining && drawn == Pos(limit) - remaining
      invariant forall k | i <= k < |was| :: balances[k] == was[k]
      invariant DrawDown(accounts, was, ty, Pos(limit))
             == balances[..i] + DrawDown(accounts[i..], was[i..], ty, remaining)
      invariant Drawn(accounts, was, ty, limit) == drawn + Drawn(accounts[i..], was[i..], ty, remaining)
    {
      AvailableSplits(accounts, was, i, ty);
      ghost var settled := balances[..i];
      DrawDownSplits(accounts, was, i, ty, remaining, settled, DrawDown(accounts, was, ty, Pos(limit)));
      if accounts[i].accountType == ty && balances[i] > 0.0 {
        var withdrawal := Min(remaining, balances[i]);
        balances[i] := balances[i] - withdrawal;
        remaining := remaining - withdrawal;
        drawn := drawn + withdrawal;
      }
      assert balances[..i + 1] == settled + [balances[i]];
      i := i + 1;
    }
    if remaining <= 0.0 {
      DrawNothing(accounts[i..], was[i..], ty, remaining);
    } else {
      NoneLeft(ty, remaining);
    }
    assert balances[i..] == was[i..];
    assert balances[..] == balances[..i] + balances[i..];
  }

  lemma NoneLeft(ty: AccountType, remaining: real)
    ensures DrawDown([], [], ty, remaining) == [] && Available([], [], ty) == 0.0
  {
  }

  /** The five legs in order, on one set of shadow balances. */
  method ApplyWithdrawalOrder(accounts: seq<Account>, balances: array<real>, amount: real, age: nat, gainRatio: real,
                              target: Option<MagiTarget>)
    returns (drawn: OrderedWithdrawal)
    requires balances.Length == |accounts|
    modifies balances
    ensures drawn == Order(accounts, old(balances[..]), amount, age, gainRatio, target).drawn
    ensures balances[..] == Order(accounts, old(balances[..]), amount, age, gainRatio, target).left
  {
    hide Available;
    hide DrawDown;
    hide GainDrawn;
    hide TraditionalHeadroom;
    var taxable, taxableGain := DrawTaxable(accounts, balances, amount, gainRatio);
    var remaining := Pos(amount) - taxable;
    var headroom := TraditionalHeadroom(target, age, taxable, gainRatio);
    var capped := DrawBucketBalances(accounts, balances, Traditional, Capped(remaining, headroom));
    remaining := remaining - capped;
    var roth := DrawBucketBalances(accounts, balances, Roth, remaining);
    remaining := remaining - roth;
    var overTheCeiling := DrawBucketBalances(accounts, balances, Traditional, remaining);
    remaining := remaining - overTheCeiling;
    var hsa := DrawBucketBalances(accounts, balances, Hsa, remaining);
    var traditional := capped + overTheCeiling;
    drawn := OrderedWithdrawal(taxable, traditional, roth, hsa, taxable + traditional + roth + hsa, taxableGain);
  }

  /** The taxable leg, which also adds up the gain it realizes. */
  method DrawTaxable(accounts: seq<Account>, balances: array<real>, amount: real, gainRatio: real)
    returns (taxable: real, taxableGain: real)
    requires balances.Length == |accounts|
    modifies balances
    ensures balances[..] == DrawDown(accounts, old(balances[..]), Taxable, Pos(amount))
    ensures taxable == Drawn(accounts, old(balances[..]), Taxable, Pos(amount))
    ensures taxableGain == GainDrawn(accounts, old(balances[..]), Pos(amount), gainRatio)
  {
    hide Available;
    hide DrawDown;
    hide GainDrawn;
    hide Times;
    ghost var was := balances[..];
    var remaining := Pos(amount);
    taxable, taxableGain := 0.0, 0.0;
    var i := 0;
    assert accounts[0..] == accounts && was[0..] == was;
    while i < |accounts| && remaining > 0.0
      invariant 0 <= i <= |accounts| && 0.0 <= remaining && taxable == Pos(amount) - remaining
      invariant forall k | i <= k < |was| :: balances[k] == was[k]
      invariant DrawDown(accounts, was, Taxable, Pos(amount))
             == balances[..i] + DrawDown(accounts[i..], was[i..], Taxable, remaining)
      invariant Drawn(accounts, was, Taxable, Pos(amount)) == taxable + Drawn(accounts[i..], was[i..], Taxable, remaining)
      invariant GainDrawn(accounts, was, Pos(amount), gainRatio)
             == taxableGain + GainDrawn(accounts[i..], was[i..], remaining, gainRatio)
    {
      AvailableSplits(accounts, was, i, Taxable);
      ghost var settled := balances[..i];
      DrawDownSplits(accounts, was, i, Taxable, remaining, settled, DrawDown(accounts, was, Taxable, Pos(amount)));
      GainSplits(accounts, was, i, remaining, gainRatio);
      TimesZero(gainRatio);
      if accounts[i].accountType == Taxable && balances[i] > 0.0 {
        var withdrawal := Min(remaining, balances[i]);
        balances[i] := balances[i] - withdrawal;
        remaining := remaining - withdrawal;
        taxable := taxable + withdrawal;
        if !accounts[i].isSurplusCash {
          taxableGain := taxableGain + Times(withdrawal, gainRatio);
        }
      }
      assert balances[..i + 1] == settled + [balances[i]];
      i := i + 1;
    }
    if remaining <= 0.0 {
      DrawNothing(accounts[i..], was[i..], Taxable, remaining);
      GainOfNothing(accounts[i..], was[i..], remaining, gainRatio);
    } else {
      NoneLeft(Taxable, remaining);
      NoGain([], [], gainRatio);
      GainOfNone(remaining, gainRatio);
    }
    assert balances[i..] == was[i..];
    assert balances[..] == balances[..i] + balances[i..];
  }

  lemma GainOfNone(remaining: real, gainRatio: real)
    ensures GainDrawn([], [], remaining, gainRatio) == 0.0
  {
  }
}
