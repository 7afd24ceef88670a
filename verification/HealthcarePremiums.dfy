// Income-tested healthcare premiums: the marketplace credit before Medicare, the
// IRMAA surcharge after it, and the band of income that crosses neither cliff.
module HealthcarePremiums {
  import opened Domain
  import opened Options
  import opened Reals

  const SUBSIDY_FLOOR_FPL_RATIO := 1.0
  const SUBSIDY_CLIFF_FPL_RATIO := 4.0
  const CEILING_MARGIN := 1.0

  /** The premiums a plan prices; growth and out-of-pocket cost are read elsewhere. */
  datatype RetirementHealthcare = RetirementHealthcare(preMedicarePremium: real, medicarePremium: real)

  function FederalPovertyLevel(householdSize: nat): (level: real)
    ensures 15650.0 <= level
  {
    var people := if householdSize < 1 then 1 else householdSize;
    15650.0 + (people - 1) as real * 5500.0
  }

  // ---- The marketplace credit ----------------------------------------------

  datatype PercentageBand = PercentageBand(upper: real, start: real, end: real)

  const APPLICABLE_PERCENTAGE_BANDS: seq<PercentageBand> := [
    PercentageBand(1.33, 0.0210, 0.0210),
    PercentageBand(1.5, 0.0314, 0.0419),
    PercentageBand(2.0, 0.0419, 0.0660),
    PercentageBand(2.5, 0.0660, 0.0844),
    PercentageBand(3.0, 0.0844, 0.0996),
    PercentageBand(4.0, 0.0996, 0.0996)
  ]

  /** The share of income a band asks for, interpolated from where the last one ended. */
  function Interpolated(band: PercentageBand, lower: real, ratio: real): real {
    var span := band.upper - lower;
    var position := if span > 0.0 then Clamp((ratio - lower) / span, 0.0, 1.0) else 0.0;
    band.start + Times(band.end - band.start, position)
  }

  /** The first band that reaches `ratio` sets the percentage; none means no credit. */
  function PercentFor(bands: seq<PercentageBand>, lower: real, ratio: real): Option<real> {
    if |bands| == 0 then None
    else if ratio <= bands[0].upper then Some(Interpolated(bands[0], lower, ratio))
    else PercentFor(bands[1..], bands[0].upper, ratio)
  }

  function ExpectedContribution(magi: real, householdSize: nat): Option<real> {
    var ratio := magi / FederalPovertyLevel(householdSize);
    if !(SUBSIDY_FLOOR_FPL_RATIO <= ratio <= SUBSIDY_CLIFF_FPL_RATIO) then None
    else
      match PercentFor(APPLICABLE_PERCENTAGE_BANDS, 0.0, ratio)
      case None => None
      case Some(percent) => Some(Times(Pos(magi), percent))
  }

  /** The loop over bands, with its running lower ratio. */
  method ExpectedPremiumContribution(magi: real, householdSize: nat) returns (expected: Option<real>)
    ensures expected == ExpectedContribution(magi, householdSize)
  {
    var fplRatio := magi / FederalPovertyLevel(householdSize);
    if !(SUBSIDY_FLOOR_FPL_RATIO <= fplRatio <= SUBSIDY_CLIFF_FPL_RATIO) {
      return None;
    }
    var bands := APPLICABLE_PERCENTAGE_BANDS;
    var lowerRatio := 0.0;
    assert bands[0..] == bands;
    for i := 0 to |bands|
      invariant PercentFor(bands[i..], lowerRatio, fplRatio) == PercentFor(bands, 0.0, fplRatio)
    {
      assert bands[i..][1..] == bands[i + 1..];
      if fplRatio <= bands[i].upper {
        return Some(Times(Pos(magi), Interpolated(bands[i], lowerRatio, fplRatio)));
      }
      lowerRatio := bands[i].upper;
    }
    expected := None;
  }

  /** Bands rise: each starts no lower than the one before it ended. */
  predicate Rising(bands: seq<PercentageBand>, lower: real, floor: real) {
    |bands| == 0
    || (lower < bands[0].upper && floor <= bands[0].start <= bands[0].end
        && Rising(bands[1..], bands[0].upper, bands[0].end))
  }

  lemma InterpolationRises(band: PercentageBand, lower: real, r: real, r2: real)
    requires lower < band.upper && band.start <= band.end && r <= r2
    ensures band.start <= Interpolated(band, lower, r) <= Interpolated(band, lower, r2) <= band.end
  {
    var span := band.upper - lower;
    var p, p2 := Clamp((r - lower) / span, 0.0, 1.0), Clamp((r2 - lower) / span, 0.0, 1.0);
    assert (r - lower) / span <= (r2 - lower) / span;
    var rise := band.end - band.start;
    TimesZero(rise);
    TimesMono(rise, 0.0, p);
    TimesMono(rise, p, p2);
    TimesMono(rise, p2, 1.0);
  }

  lemma {:induction false} PercentRises(bands: seq<PercentageBand>, lower: real, floor: real, r: real, r2: real)
    requires Rising(bands, lower, floor) && r <= r2
    requires PercentFor(bands, lower, r2).Some?
    ensures PercentFor(bands, lower, r).Some?
    ensures floor <= PercentFor(bands, lower, r).value <= PercentFor(bands, lower, r2).value
  {
    hide Interpolated;
    var band := bands[0];
    if r2 <= band.upper {
      InterpolationRises(band, lower, r, r2);
    } else if r <= band.upper {
      InterpolationRises(band, lower, r, r);
      PercentRises(bands[1..], band.upper, band.end, r2, r2);
    } else {
      PercentRises(bands[1..], band.upper, band.end, r, r2);
    }
  }

  lemma BandsRise()
    ensures Rising(APPLICABLE_PERCENTAGE_BANDS, 0.0, 0.021)
  {
    var b := APPLICABLE_PERCENTAGE_BANDS;
    assert Rising(b[6..], 4.0, 0.0996);
    assert b[5..][1..] == b[6..] && Rising(b[5..], 3.0, 0.0996);
    assert b[4..][1..] == b[5..] && Rising(b[4..], 2.5, 0.0844);
    assert b[3..][1..] == b[4..] && Rising(b[3..], 2.0, 0.0660);
    assert b[2..][1..] == b[3..] && Rising(b[2..], 1.5, 0.0419);
    assert b[1..][1..] == b[2..] && Rising(b[1..], 1.33, 0.0210);
  }

  lemma {:induction false} ReachedByLast(bands: seq<PercentageBand>, lower: real, ratio: real)
    requires |bands| > 0 && ratio <= bands[|bands| - 1].upper
    ensures PercentFor(bands, lower, ratio).Some?
  {
    if bands[0].upper < ratio {
      ReachedByLast(bands[1..], bands[0].upper, ratio);
    }
  }

  /** The credit reaches a household exactly from one to four poverty levels. */
  lemma CreditReaches(magi: real, householdSize: nat)
    ensures ExpectedContribution(magi, householdSize).Some?
        <==> FederalPovertyLevel(householdSize) <= magi <= 4.0 * FederalPovertyLevel(householdSize)
  {
    hide PercentFor;
    hide FederalPovertyLevel;
    var level := FederalPovertyLevel(householdSize);
    assert magi == (magi / level) * level;
    assert 1.0 <= magi / level <==> level <= magi;
    assert magi / level <= 4.0 <==> magi <= 4.0 * level;
    if 1.0 <= magi / level <= 4.0 {
      ReachedByLast(APPLICABLE_PERCENTAGE_BANDS, 0.0, magi / level);
    }
  }

  /** While the credit lasts, more income never lowers what the household pays. */
  lemma ContributionRises(magi: real, more: real, householdSize: nat)
    requires magi <= more
    requires ExpectedContribution(magi, householdSize).Some? && ExpectedContribution(more, householdSize).Some?
    ensures 0.0 <= ExpectedContribution(magi, householdSize).value <= ExpectedContribution(more, householdSize).value
  {
    hide PercentFor;
    hide FederalPovertyLevel;
    hide Times;
    var level := FederalPovertyLevel(householdSize);
    var r, r2 := magi / level, more / level;
    assert r <= r2;
    BandsRise();
    PercentRises(APPLICABLE_PERCENTAGE_BANDS, 0.0, 0.021, r, r2);
    var p := PercentFor(APPLICABLE_PERCENTAGE_BANDS, 0.0, r).value;
    var p2 := PercentFor(APPLICABLE_PERCENTAGE_BANDS, 0.0, r2).value;
    TimesZero(Pos(magi));
    TimesMono(Pos(magi), 0.0, p);
    TimesMono(Pos(magi), p, p2);
    TimesMono(p2, Pos(magi), Pos(more));
    TimesSwap(p2, Pos(magi));
    TimesSwap(p2, Pos(more));
  }

  // ---- The IRMAA surcharge -------------------------------------------------

  /** A tier's top, absent for the last one, and its monthly surcharge. */
  datatype SurchargeTier = SurchargeTier(bound: Option<real>, surcharge: real)

  const IRMAA_TIERS_2026: seq<SurchargeTier> := [
    SurchargeTier(Some(109000.0), 0.0),
    SurchargeTier(Some(137000.0), 95.70),
    SurchargeTier(Some(171000.0), 240.40),
    SurchargeTier(Some(205000.0), 385.00),
    SurchargeTier(Some(500000.0), 529.70),
    SurchargeTier(None, 578.00)
  ]

  const SEPARATE_LOWER := 109000.0
  const SEPARATE_UPPER := 391000.0

  function Scale(fs: FilingStatus): real {
    if fs.MarriedFilingJointly? then 2.0 else 1.0
  }

  /** The first tier whose top reaches `magi`. */
  function TierOf(tiers: seq<SurchargeTier>, magi: real, scale: real): Option<SurchargeTier> {
    if |tiers| == 0 then None
    else if tiers[0].bound.None? || magi <= tiers[0].bound.value * scale then Some(tiers[0])
    else TierOf(tiers[1..], magi, scale)
  }

  function IrmaaFreeMagiCeiling(fs: FilingStatus): real {
    match fs
    case MarriedFilingSeparately => SEPARATE_LOWER
    case MarriedFilingJointly => 109000.0 * 2.0
    case _ => 109000.0
  }

  function IrmaaCeilingAbove(magi: real, fs: FilingStatus): Option<real> {
    if fs.MarriedFilingSeparately? then
      if magi <= SEPARATE_LOWER then Some(SEPARATE_LOWER)
      else if magi <= SEPARATE_UPPER then Some(SEPARATE_UPPER)
      else None
    else
      match TierOf(IRMAA_TIERS_2026, magi, Scale(fs))
      case Some(tier) => if tier.bound.Some? then Some(tier.bound.value * Scale(fs)) else None
      case None => None
  }

  function MonthlySurcharge(magi: real, fs: FilingStatus): real {
    if fs.MarriedFilingSeparately? then
      if magi <= SEPARATE_LOWER then 0.0
      else if magi < SEPARATE_UPPER then 529.70
      else 578.00
    else
      match TierOf(IRMAA_TIERS_2026, magi, Scale(fs))
      case Some(tier) => tier.surcharge
      case None => 578.00
  }

  function IrmaaAnnualSurcharge(magi: real, fs: FilingStatus, peopleOnMedicare: nat): real {
    MonthlySurcharge(magi, fs) * 12.0 * peopleOnMedicare as real
  }

  // ---- The band ------------------------------------------------------------

  datatype MagiBand = MagiBand(floor: real, ceiling: real)

  /** Next year's premium is a marketplace one, and it is priced. */
  predicate MarketplaceApplies(age: nat, retirementAge: nat, healthcare: RetirementHealthcare) {
    age + 1 < MEDICARE_AGE && age + 1 >= retirementAge && healthcare.preMedicarePremium > 0.0
  }

  /** The year after next pays a Medicare premium, and it is priced. */
  predicate IrmaaApplies(age: nat, retirementAge: nat, healthcare: RetirementHealthcare) {
    age + 2 >= MEDICARE_AGE && age + 2 >= retirementAge && healthcare.medicarePremium > 0.0
  }

  function MagiBandFor(age: nat, retirementAge: nat, fs: FilingStatus, householdSize: nat,
                       committedMagi: real, healthcare: RetirementHealthcare): Option<MagiBand> {
    var povertyLevel := FederalPovertyLevel(householdSize);
    var cliff := SUBSIDY_CLIFF_FPL_RATIO * povertyLevel;
    var marketplaceCeiling :=
      if MarketplaceApplies(age, retirementAge, healthcare) && committedMagi <= cliff then Some(cliff) else None;
    var irmaaCeiling :=
      if IrmaaApplies(age, retirementAge, healthcare) then IrmaaCeilingAbove(committedMagi, fs) else None;
    if marketplaceCeiling.None? && irmaaCeiling.None? then None
    else
      var ceiling := if irmaaCeiling.None? then marketplaceCeiling.value
                     else if marketplaceCeiling.None? then irmaaCeiling.value
                     else Min(marketplaceCeiling.value, irmaaCeiling.value);
      Some(MagiBand(if marketplaceCeiling.Some? then SUBSIDY_FLOOR_FPL_RATIO * povertyLevel else 0.0,
                    Max(ceiling - CEILING_MARGIN, committedMagi)))
  }

  /** Between an income and its own tier's top, the tier does not change. */
  lemma {:induction false} SameTier(tiers: seq<SurchargeTier>, magi: real, more: real, scale: real)
    requires magi <= more && TierOf(tiers, magi, scale).Some?
    requires TierOf(tiers, magi, scale).value.bound.Some? ==> more <= TierOf(tiers, magi, scale).value.bound.value * scale
    requires forall i, j | 0 <= i < j < |tiers| && tiers[j].bound.Some? ::
               tiers[i].bound.Some? && tiers[i].bound.value * scale <= tiers[j].bound.value * scale
    ensures TierOf(tiers, more, scale) == TierOf(tiers, magi, scale)
  {
    if !(tiers[0].bound.None? || magi <= tiers[0].bound.value * scale) {
      forall i, j | 0 <= i < j < |tiers[1..]| && tiers[1..][j].bound.Some?
        ensures tiers[1..][i].bound.Some? && tiers[1..][i].bound.value * scale <= tiers[1..][j].bound.value * scale
      {
        assert tiers[1..][i] == tiers[i + 1] && tiers[1..][j] == tiers[j + 1];
      }
      SameTier(tiers[1..], magi, more, scale);
    }
  }

  lemma SomeTier(magi: real, scale: real)
    ensures TierOf(IRMAA_TIERS_2026, magi, scale).Some?
  {
    AnyTier(IRMAA_TIERS_2026, magi, scale);
  }

  lemma {:induction false} AnyTier(tiers: seq<SurchargeTier>, magi: real, scale: real)
    requires |tiers| > 0 && tiers[|tiers| - 1].bound.None?
    ensures TierOf(tiers, magi, scale).Some?
  {
    if !(tiers[0].bound.None? || magi <= tiers[0].bound.value * scale) {
      AnyTier(tiers[1..], magi, scale);
    }
  }

  /** Under the next threshold up, the surcharge is the one already owed. */
  lemma SurchargeHolds(magi: real, more: real, fs: FilingStatus, people: nat)
    requires magi <= more
    requires IrmaaCeilingAbove(magi, fs).Some? ==> more < IrmaaCeilingAbove(magi, fs).value || more <= magi
    ensures IrmaaAnnualSurcharge(more, fs, people) == IrmaaAnnualSurcharge(magi, fs, people)
  {
    if !fs.MarriedFilingSeparately? {
      hide TierOf;
      SomeTier(magi, Scale(fs));
      var tier := TierOf(IRMAA_TIERS_2026, magi, Scale(fs)).value;
      TierReaches(IRMAA_TIERS_2026, magi, Scale(fs));
      SameTier(IRMAA_TIERS_2026, magi, more, Scale(fs));
    }
  }

  lemma {:induction false} TierReaches(tiers: seq<SurchargeTier>, magi: real, scale: real)
    requires TierOf(tiers, magi, scale).Some?
    ensures TierOf(tiers, magi, scale).value.bound.Some? ==> magi <= TierOf(tiers, magi, scale).value.bound.value * scale
  {
    if !(tiers[0].bound.None? || magi <= tiers[0].bound.value * scale) {
      TierReaches(tiers[1..], magi, scale);
    }
  }

  /** No income above what is committed crosses either cliff while it stays in the band. */
  predicate InBand(band: Option<MagiBand>, magi: real) {
    band.Some? ==> magi <= band.value.ceiling
  }

  /**
   * The band keeps its promise for every filing status: income that stays in it
   * owes the surcharge it already owed, and never loses a live credit. Where
   * there is no band there was nothing left to protect.
   */
  lemma BandCrossesNeitherCliff(age: nat, retirementAge: nat, fs: FilingStatus, householdSize: nat,
                                committed: real, healthcare: RetirementHealthcare, magi: real, people: nat)
    requires committed <= magi
    requires InBand(MagiBandFor(age, retirementAge, fs, householdSize, committed, healthcare), magi)
    ensures IrmaaApplies(age, retirementAge, healthcare) ==>
              IrmaaAnnualSurcharge(magi, fs, people) == IrmaaAnnualSurcharge(committed, fs, people)
    ensures MarketplaceApplies(age, retirementAge, healthcare)
            && ExpectedContribution(committed, householdSize).Some? ==>
              ExpectedContribution(magi, householdSize).Some?
  {
    hide IrmaaAnnualSurcharge;
    hide IrmaaCeilingAbove;
    hide ExpectedContribution;
    hide FederalPovertyLevel;
    CreditReaches(committed, householdSize);
    CreditReaches(magi, householdSize);
    if IrmaaApplies(age, retirementAge, healthcare) {
      SurchargeHolds(committed, magi, fs, people);
    }
  }

  /** The band is never narrower than what is already committed. */
  lemma BandHoldsCommitted(age: nat, retirementAge: nat, fs: FilingStatus, householdSize: nat,
                           committed: real, healthcare: RetirementHealthcare)
    ensures InBand(MagiBandFor(age, retirementAge, fs, householdSize, committed, healthcare), committed)
  {
  }

  // ---- What the premium tests mean ---------------------------------------------

  /** A household of nobody is priced as one person, and each further person adds the same amount. */
  lemma PovertyLevelPerPerson(people: nat)
    ensures FederalPovertyLevel(0) == FederalPovertyLevel(1) == 15650.0
    ensures people >= 1 ==> FederalPovertyLevel(people + 1) == FederalPovertyLevel(people) + 5500.0
  {
  }

  /** Reading a table at the top of one of its bands gives that band's final percentage. */
  lemma {:induction false} PercentAtTop(bands: seq<PercentageBand>, lower: real, floor: real, i: nat)
    requires Rising(bands, lower, floor) && i < |bands|
    ensures PercentFor(bands, lower, bands[i].upper) == Some(bands[i].end)
    decreases i
  {
    if i == 0 {
      var band := bands[0];
      assert (band.upper - lower) / (band.upper - lower) == 1.0;
      assert Times(band.end - band.start, 1.0) == band.end - band.start;
    } else {
      BandTopsRise(bands, lower, floor, i);
      PercentAtTop(bands[1..], bands[0].upper, bands[0].end, i - 1);
    }
  }

  lemma {:induction false} BandTopsRise(bands: seq<PercentageBand>, lower: real, floor: real, i: nat)
    requires Rising(bands, lower, floor) && 0 < i < |bands|
    ensures bands[0].upper < bands[i].upper
    decreases i
  {
    if i > 1 {
      BandTopsRise(bands[1..], bands[0].upper, bands[0].end, i - 1);
    }
  }

  /**
   * At the top of every band a household is expected to pay exactly that band's
   * final share of its income, and in between never outside 2.1% and 9.96% of it.
   */
  lemma ContributionShares(magi: real, householdSize: nat, i: nat)
    requires i < |APPLICABLE_PERCENTAGE_BANDS| && 0.0 <= magi
    ensures ExpectedContribution(magi, householdSize).Some? ==>
              0.021 * magi <= ExpectedContribution(magi, householdSize).value <= 0.0996 * magi
    ensures var band := APPLICABLE_PERCENTAGE_BANDS[i];
            magi == band.upper * FederalPovertyLevel(householdSize) ==>
              ExpectedContribution(magi, householdSize) == Some(Times(magi, band.end))
  {
    hide PercentFor;
    hide FederalPovertyLevel;
    hide Times;
    var level := FederalPovertyLevel(householdSize);
    var ratio := magi / level;
    var bands := APPLICABLE_PERCENTAGE_BANDS;
    BandsRise();
    TopsWithinReach(i);
    if ExpectedContribution(magi, householdSize).Some? {
      ReachedByLast(bands, 0.0, 4.0);
      PercentRises(bands, 0.0, 0.021, ratio, 4.0);
      PercentAtTop(bands, 0.0, 0.021, 5);
      var percent := PercentFor(bands, 0.0, ratio).value;
      TimesMono(magi, 0.021, percent);
      TimesMono(magi, percent, 0.0996);
      Scaled(magi);
    }
    if magi == bands[i].upper * level {
      Quotient(bands[i].upper, level);
      PercentAtTop(bands, 0.0, 0.021, i);
    }
  }

  lemma Quotient(k: real, level: real)
    requires 0.0 < level
    ensures k * level / level == k
  {
  }

  lemma TopsWithinReach(i: nat)
    requires i < |APPLICABLE_PERCENTAGE_BANDS|
    ensures 1.0 <= APPLICABLE_PERCENTAGE_BANDS[i].upper <= 4.0
    ensures APPLICABLE_PERCENTAGE_BANDS[5].upper == 4.0 && APPLICABLE_PERCENTAGE_BANDS[5].end == 0.0996
  {
  }

  lemma Scaled(x: real)
    ensures Times(x, 0.021) == 0.021 * x && Times(x, 0.0996) == 0.0996 * x
  {
  }

  /** Each tier charges more than the one before. */
  predicate Dearer(tiers: seq<SurchargeTier>) {
    forall i | 0 <= i < |tiers| - 1 :: tiers[i].surcharge < tiers[i + 1].surcharge
  }

  lemma {:induction false} FirstIsCheapest(tiers: seq<SurchargeTier>, i: nat)
    requires Dearer(tiers) && 0 < i < |tiers|
    ensures tiers[0].surcharge < tiers[i].surcharge
    decreases i
  {
    assert tiers[i - 1].surcharge < tiers[i - 1 + 1].surcharge;
    if i > 1 {
      FirstIsCheapest(tiers, i - 1);
    }
  }

  /** Past its own tier's top, income falls in a dearer one. */
  lemma {:induction false} NextTierIsDearer(tiers: seq<SurchargeTier>, magi: real, more: real, scale: real)
    requires Dearer(tiers) && 0.0 < scale && magi <= more
    requires TierOf(tiers, magi, scale).Some? && TierOf(tiers, more, scale).Some?
    ensures TierOf(tiers, magi, scale).value.surcharge <= TierOf(tiers, more, scale).value.surcharge
    ensures var tier := TierOf(tiers, magi, scale).value;
            tier.bound.Some? && tier.bound.value * scale < more ==>
              tier.surcharge < TierOf(tiers, more, scale).value.surcharge
  {
    if tiers[0].bound.None? || magi <= tiers[0].bound.value * scale {
      TierIsMember(tiers, more, scale);
      forall i | 1 <= i < |tiers|
        ensures tiers[0].surcharge < tiers[i].surcharge
      {
        FirstIsCheapest(tiers, i);
      }
    } else {
      TailDearer(tiers);
      NextTierIsDearer(tiers[1..], magi, more, scale);
    }
  }

  lemma {:induction false} TierIsMember(tiers: seq<SurchargeTier>, magi: real, scale: real)
    requires TierOf(tiers, magi, scale).Some?
    ensures exists i | 0 <= i < |tiers| :: TierOf(tiers, magi, scale) == Some(tiers[i])
    ensures TierOf(tiers, magi, scale).value == tiers[0]
            || exists i | 1 <= i < |tiers| :: TierOf(tiers, magi, scale) == Some(tiers[i])
    ensures tiers[0].bound.Some? && tiers[0].bound.value * scale < magi ==>
              exists i | 1 <= i < |tiers| :: TierOf(tiers, magi, scale) == Some(tiers[i])
  {
    if tiers[0].bound.Some? && tiers[0].bound.value * scale < magi {
      TierIsMember(tiers[1..], magi, scale);
      var i :| 0 <= i < |tiers[1..]| && TierOf(tiers[1..], magi, scale) == Some(tiers[1..][i]);
      assert tiers[1..][i] == tiers[i + 1];
    }
  }

  lemma TailDearer(tiers: seq<SurchargeTier>)
    requires Dearer(tiers) && |tiers| > 0
    ensures Dearer(tiers[1..])
  {
    forall i | 0 <= i < |tiers[1..]| - 1
      ensures tiers[1..][i].surcharge < tiers[1..][i + 1].surcharge
    {
      assert tiers[1..][i] == tiers[i + 1] && tiers[1..][i + 1] == tiers[i + 1 + 1];
    }
  }

  lemma TiersAreDearer()
    ensures Dearer(IRMAA_TIERS_2026)
  {
  }

  /** More income never owes a smaller surcharge, and past the next threshold up it owes a larger one. */
  lemma SurchargeRises(magi: real, more: real, fs: FilingStatus, people: nat)
    requires magi <= more && people > 0
    ensures IrmaaAnnualSurcharge(magi, fs, people) <= IrmaaAnnualSurcharge(more, fs, people)
    ensures IrmaaCeilingAbove(magi, fs).Some? && IrmaaCeilingAbove(magi, fs).value < more
            && !(fs.MarriedFilingSeparately? && magi == SEPARATE_UPPER) ==>
              IrmaaAnnualSurcharge(magi, fs, people) < IrmaaAnnualSurcharge(more, fs, people)
  {
    hide MonthlySurcharge;
    hide IrmaaCeilingAbove;
    MonthlyRises(magi, more, fs);
    PerPerson(MonthlySurcharge(magi, fs), MonthlySurcharge(more, fs), people);
  }

  lemma MonthlyRises(magi: real, more: real, fs: FilingStatus)
    requires magi <= more
    ensures MonthlySurcharge(magi, fs) <= MonthlySurcharge(more, fs)
    ensures IrmaaCeilingAbove(magi, fs).Some? && IrmaaCeilingAbove(magi, fs).value < more
            && !(fs.MarriedFilingSeparately? && magi == SEPARATE_UPPER) ==>
              MonthlySurcharge(magi, fs) < MonthlySurcharge(more, fs)
  {
    if !fs.MarriedFilingSeparately? {
      hide TierOf;
      hide Dearer;
      SomeTier(magi, Scale(fs));
      SomeTier(more, Scale(fs));
      TiersAreDearer();
      NextTierIsDearer(IRMAA_TIERS_2026, magi, more, Scale(fs));
      hide Scale;
    }
  }

  lemma PerPerson(x: real, y: real, people: nat)
    requires people > 0
    ensures x <= y ==> x * 12.0 * people as real <= y * 12.0 * people as real
    ensures x < y ==> x * 12.0 * people as real < y * 12.0 * people as real
  {
  }

  /** Nothing is added to the premium exactly up to the ceiling a conversion may be aimed at. */
  lemma SurchargeFreeExactly(magi: real, fs: FilingStatus, people: nat)
    requires people > 0
    ensures IrmaaAnnualSurcharge(magi, fs, people) == 0.0 <==> magi <= IrmaaFreeMagiCeiling(fs)
  {
    if !fs.MarriedFilingSeparately? {
      var tiers := IRMAA_TIERS_2026;
      assert tiers[0].bound == Some(109000.0) && tiers[0].surcharge == 0.0;
      if magi > IrmaaFreeMagiCeiling(fs) {
        SomeTier(magi, Scale(fs));
        TiersAreDearer();
        NextTierIsDearer(tiers, 0.0, magi, Scale(fs));
        assert TierOf(tiers, 0.0, Scale(fs)) == Some(tiers[0]);
        hide TierOf;
        hide Dearer;
      }
    }
  }

  /** The marketplace test looks one year ahead and the surcharge two, so both can bind only at 63. */
  lemma BothTestsOnlyAtSixtyThree(age: nat, retirementAge: nat, healthcare: RetirementHealthcare)
    ensures MarketplaceApplies(age, retirementAge, healthcare) ==> age < 64
    ensures IrmaaApplies(age, retirementAge, healthcare) ==> age >= 63
    ensures MarketplaceApplies(age, retirementAge, healthcare) && IrmaaApplies(age, retirementAge, healthcare) ==> age == 63
    ensures age == 63 && retirementAge <= 64 && 0.0 < healthcare.preMedicarePremium && 0.0 < healthcare.medicarePremium ==>
              MarketplaceApplies(age, retirementAge, healthcare) && IrmaaApplies(age, retirementAge, healthcare)
    ensures age < 63 && retirementAge <= age + 1 && 0.0 < healthcare.preMedicarePremium ==>
              MarketplaceApplies(age, retirementAge, healthcare)
    ensures age > 63 && retirementAge <= age + 2 && 0.0 < healthcare.medicarePremium ==>
              IrmaaApplies(age, retirementAge, healthcare)
  {
  }

  /** Income that crosses a cliff committed income had not: a live credit lost, or a surcharge raised. */
  predicate CrossesACliff(age: nat, retirementAge: nat, fs: FilingStatus, householdSize: nat,
                          committed: real, healthcare: RetirementHealthcare, magi: real, people: nat) {
    || (MarketplaceApplies(age, retirementAge, healthcare)
        && committed <= 4.0 * FederalPovertyLevel(householdSize) < magi)
    || (IrmaaApplies(age, retirementAge, healthcare)
        && IrmaaAnnualSurcharge(committed, fs, people) < IrmaaAnnualSurcharge(magi, fs, people))
  }

  /**
   * The band wastes nothing: income past its ceiling by more than a dollar
   * crosses a cliff. The one exception is a separate filer committed to exactly
   * the upper threshold, whose surcharge is already the highest.
   */
  lemma BandIsTight(age: nat, retirementAge: nat, fs: FilingStatus, householdSize: nat,
                    committed: real, healthcare: RetirementHealthcare, magi: real, people: nat)
    requires people > 0 && !(fs.MarriedFilingSeparately? && committed == SEPARATE_UPPER)
    requires var band := MagiBandFor(age, retirementAge, fs, householdSize, committed, healthcare);
             band.Some? && committed <= magi && band.value.ceiling + 1.0 < magi
    ensures CrossesACliff(age, retirementAge, fs, householdSize, committed, healthcare, magi, people)
  {
    hide IrmaaAnnualSurcharge;
    hide FederalPovertyLevel;
    hide IrmaaCeilingAbove;
    SurchargeRises(committed, magi, fs, people);
  }

  /** ... and a band with room left in it stops a full dollar short: nothing less past its ceiling crosses one. */
  lemma BandStopsADollarShort(age: nat, retirementAge: nat, fs: FilingStatus, householdSize: nat,
                              committed: real, healthcare: RetirementHealthcare, magi: real, people: nat)
    requires var band := MagiBandFor(age, retirementAge, fs, householdSize, committed, healthcare);
             band.Some? && committed < band.value.ceiling && committed <= magi < band.value.ceiling + 1.0
    ensures !CrossesACliff(age, retirementAge, fs, householdSize, committed, healthcare, magi, people)
  {
    hide IrmaaAnnualSurcharge;
    hide FederalPovertyLevel;
    hide IrmaaCeilingAbove;
    if IrmaaApplies(age, retirementAge, healthcare) {
      SurchargeHolds(committed, magi, fs, people);
    }
  }
}
