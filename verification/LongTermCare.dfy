// One path's long-term care episode: drawn at the start, priced once the
// household's income quintile is known, and charged at the end of the horizon.
module LongTermCare {
  import opened Options
  import opened Reals

  const OBSERVATION_AGE: nat := 65

  datatype Quintile = Lowest | Second | Middle | Fourth | Highest

  /** A sampled lifetime episode. */
  datatype Episode = Episode(lifetimeCost: real, years: real)

  /** The inverse-distribution table, as an arbitrary function of the quintile. */
  type EpisodeTable = Quintile -> Option<Episode>

  /** The episodes a plan could draw, whatever income it turns out to have. */
  predicate Priced(table: EpisodeTable) {
    forall q :: table(q).Some? ==> 0.0 <= table(q).value.lifetimeCost && 0.0 < table(q).value.years
  }

  // ---- Specification -------------------------------------------------------

  /** The last years of the horizon an episode can cover. */
  function Duration(episode: Episode, totalYears: nat, maximumYears: nat): real {
    Min(Min(episode.years, totalYears as real), maximumYears as real)
  }

  /** The part of modeled year `year` that falls inside the last `duration` years. */
  function YearOverlap(year: nat, totalYears: nat, duration: real): real {
    var horizonEnd := totalYears as real;
    var episodeStart := horizonEnd - duration;
    Clamp(Min(year as real + 1.0, horizonEnd) - Max(year as real, episodeStart), 0.0, 1.0)
  }

  function Installment(episode: Episode, priceScale: real, year: nat, totalYears: nat, maximumYears: nat): real {
    var duration := Duration(episode, totalYears, maximumYears);
    if duration <= 0.0 then 0.0
    else Times(Times(episode.lifetimeCost, priceScale), YearOverlap(year, totalYears, duration)) / duration
  }

  function CostForYear(quintile: Option<Quintile>, table: EpisodeTable, priceScale: real, year: nat, totalYears: nat,
                       maximumYears: nat): real {
    match quintile
    case None => 0.0
    case Some(q) =>
      match table(q)
      case None => 0.0
      case Some(episode) => Installment(episode, priceScale, year, totalYears, maximumYears)
  }

  /** How long before death care may start: after the age-65 observation, and after the plan starts. */
  function MaximumYears(startAge: nat, lifeExpectancy: nat): nat {
    var from := if startAge < OBSERVATION_AGE then OBSERVATION_AGE else startAge;
    if lifeExpectancy < from then 0 else lifeExpectancy - from
  }

  /** Current age through life expectancy, inclusive. */
  function TotalYears(startAge: nat, lifeExpectancy: nat): nat
    requires startAge <= lifeExpectancy
  {
    lifeExpectancy - startAge + 1
  }

  /** The modeled year whose end fixes the quintile: the first at or past 65. */
  function ObservedYear(startAge: nat): nat {
    if startAge < OBSERVATION_AGE then OBSERVATION_AGE - startAge else 0
  }

  // ---- Installments add up -----------------------------------------------------

  function OverlapTotal(years: nat, totalYears: nat, duration: real): real {
    if years == 0 then 0.0 else OverlapTotal(years - 1, totalYears, duration) + YearOverlap(years - 1, totalYears, duration)
  }

  /** The overlaps of the first `years` years are exactly the part of the episode they contain. */
  lemma {:induction false} OverlapsTelescope(years: nat, totalYears: nat, duration: real)
    requires years <= totalYears && 0.0 <= duration <= totalYears as real
    ensures OverlapTotal(years, totalYears, duration) == Pos(years as real - (totalYears as real - duration))
  {
    if years > 0 {
      OverlapsTelescope(years - 1, totalYears, duration);
    }
  }

  /** What the years from `first` on are charged for an episode, of all the years. */
  function ChargedFrom(episode: Episode, priceScale: real, first: nat, years: nat, totalYears: nat, maximumYears: nat): real {
    if years <= first then 0.0
    else ChargedFrom(episode, priceScale, first, years - 1, totalYears, maximumYears)
         + Installment(episode, priceScale, years - 1, totalYears, maximumYears)
  }

  lemma {:induction false} ChargedIsShare(episode: Episode, priceScale: real, first: nat, years: nat, totalYears: nat, maximumYears: nat)
    requires first <= years <= totalYears && 0.0 < Duration(episode, totalYears, maximumYears)
    ensures var duration := Duration(episode, totalYears, maximumYears);
            ChargedFrom(episode, priceScale, first, years, totalYears, maximumYears)
            == Times(Times(episode.lifetimeCost, priceScale),
                     OverlapTotal(years, totalYears, duration) - OverlapTotal(first, totalYears, duration)) / duration
  {
    hide Times;
    hide YearOverlap;
    hide Duration;
    var duration := Duration(episode, totalYears, maximumYears);
    var cost := Times(episode.lifetimeCost, priceScale);
    if years == first {
      TimesZero(cost);
    } else {
      ChargedIsShare(episode, priceScale, first, years - 1, totalYears, maximumYears);
      var before := OverlapTotal(years - 1, totalYears, duration) - OverlapTotal(first, totalYears, duration);
      TimesSum(cost, before, YearOverlap(years - 1, totalYears, duration));
      SumOverDuration(Times(cost, before), Times(cost, YearOverlap(years - 1, totalYears, duration)), duration);
    }
  }

  lemma SumOverDuration(a: real, b: real, duration: real)
    requires 0.0 < duration
    ensures a / duration + b / duration == (a + b) / duration
  {
  }

  /**
   * Charged from year `first` on, an episode is paid for in full when none of it
   * falls before, and short by exactly the share that does.
   */
  lemma ChargedShare(episode: Episode, priceScale: real, first: nat, totalYears: nat, maximumYears: nat)
    requires first <= totalYears && 0.0 < Duration(episode, totalYears, maximumYears)
    ensures var duration := Duration(episode, totalYears, maximumYears);
            var cost := Times(episode.lifetimeCost, priceScale);
            var missed := Pos(first as real - (totalYears as real - duration));
            && ChargedFrom(episode, priceScale, first, totalYears, totalYears, maximumYears) == cost - Times(cost, missed) / duration
            && (missed == 0.0 ==> ChargedFrom(episode, priceScale, first, totalYears, totalYears, maximumYears) == cost)
            && (0.0 < cost && 0.0 < missed ==> ChargedFrom(episode, priceScale, first, totalYears, totalYears, maximumYears) < cost)
  {
    hide Times;
    var duration := Duration(episode, totalYears, maximumYears);
    var cost := Times(episode.lifetimeCost, priceScale);
    var missed := Pos(first as real - (totalYears as real - duration));
    ChargedIsShare(episode, priceScale, first, totalYears, totalYears, maximumYears);
    OverlapsTelescope(totalYears, totalYears, duration);
    OverlapsTelescope(first, totalYears, duration);
    assert OverlapTotal(totalYears, totalYears, duration) - OverlapTotal(first, totalYears, duration) == duration - missed;
    WholeLessShare(cost, missed, duration);
  }

  lemma WholeLessShare(cost: real, missed: real, duration: real)
    requires 0.0 < duration && 0.0 <= missed
    ensures Times(cost, duration - missed) / duration == cost - Times(cost, missed) / duration
    ensures missed == 0.0 ==> Times(cost, missed) / duration == 0.0
    ensures 0.0 < cost && 0.0 < missed ==> 0.0 < Times(cost, missed) / duration
  {
    assert cost * (duration - missed) == cost * duration - cost * missed;
    assert (cost * duration) / duration == cost;
    if 0.0 < cost && 0.0 < missed {
      assert cost * missed > 0.0;
    }
  }

  // ---- The observation always comes first ---------------------------------------

  /** Nothing is charged through the year whose end fixes the quintile. */
  lemma NothingBeforeObservation(episode: Episode, priceScale: real, startAge: nat, lifeExpectancy: nat, year: nat)
    requires startAge <= lifeExpectancy && OBSERVATION_AGE < lifeExpectancy && year <= ObservedYear(startAge)
    ensures Installment(episode, priceScale, year, TotalYears(startAge, lifeExpectancy), MaximumYears(startAge, lifeExpectancy)) == 0.0
  {
    var duration := Duration(episode, TotalYears(startAge, lifeExpectancy), MaximumYears(startAge, lifeExpectancy));
    if duration > 0.0 {
      TimesZero(Times(episode.lifetimeCost, priceScale));
      assert YearOverlap(year, TotalYears(startAge, lifeExpectancy), duration) == 0.0;
    }
  }

  /**
   * Care fills the end of the horizon: its sampled years, or all those after the
   * observation if it has more. A year is charged exactly when care reaches into
   * it, and a year of nothing but care pays its even share of the whole price.
   */
  lemma CareFillsTheEnd(episode: Episode, priceScale: real, startAge: nat, lifeExpectancy: nat, year: nat)
    requires startAge < lifeExpectancy && OBSERVATION_AGE < lifeExpectancy && year < TotalYears(startAge, lifeExpectancy)
    requires 0.0 < episode.years && 0.0 < Times(episode.lifetimeCost, priceScale)
    ensures var observed := if startAge < 65 then 65 else startAge;
            var care := Min(episode.years, (lifeExpectancy - observed) as real);
            var left := (lifeExpectancy + 1 - startAge - year) as real;
            var charged := Installment(episode, priceScale, year, TotalYears(startAge, lifeExpectancy),
                                       MaximumYears(startAge, lifeExpectancy));
            && (charged > 0.0 <==> left - 1.0 < care)
            && (left <= care ==> charged == Times(episode.lifetimeCost, priceScale) / care)
  {
    var total, most := TotalYears(startAge, lifeExpectancy), MaximumYears(startAge, lifeExpectancy);
    var duration := Duration(episode, total, most);
    var cost := Times(episode.lifetimeCost, priceScale);
    hide Times;
    var overlap := YearOverlap(year, total, duration);
    PartOfCost(cost, overlap, duration);
    TimesZero(cost);
    TimesOne(cost);
  }

  lemma PartOfCost(cost: real, overlap: real, duration: real)
    requires 0.0 < cost && 0.0 <= overlap && 0.0 < duration
    ensures Times(cost, overlap) / duration > 0.0 <==> overlap > 0.0
  {
    if overlap > 0.0 {
      assert cost * overlap > 0.0;
    }
  }

  lemma TimesOne(x: real)
    ensures Times(x, 1.0) == x
  {
  }

  // ---- The draw as the source updates it ------------------------------------------

  class LongTermCareDraw {
    const table: EpisodeTable
    const priceScale: real
    const maximumYears: nat
    const povertyLevel: real
    const annuityFactor: real
    var quintile: Option<Quintile>

    constructor (table: EpisodeTable, priceScale: real, startAge: nat, lifeExpectancy: nat, povertyLevel: real, annuityFactor: real)
      ensures quintile == None && this.table == table && this.priceScale == priceScale
      ensures maximumYears == MaximumYears(startAge, lifeExpectancy)
    {
      this.table := table;
      this.priceScale := priceScale;
      maximumYears := MaximumYears(startAge, lifeExpectancy);
      this.povertyLevel := povertyLevel;
      this.annuityFactor := annuityFactor;
      quintile := None;
    }

    /** The first year seen from 65 on decides the quintile; no later one changes it. */
    method Observe(currentAge: nat, portfolioValue: real, annualIncome: real, quintileFor: real -> Quintile)
      requires 0.0 < povertyLevel
      modifies this
      ensures quintile == if old(quintile).Some? || currentAge < OBSERVATION_AGE then old(quintile)
                          else Some(quintileFor((Times(annuityFactor, Pos(portfolioValue)) + Pos(annualIncome)) / povertyLevel))
    {
      if quintile.Some? || currentAge < OBSERVATION_AGE {
        return;
      }
      var income := Times(annuityFactor, Pos(portfolioValue)) + Pos(annualIncome);
      quintile := Some(quintileFor(income / povertyLevel));
    }

    function Cost(year: nat, totalYears: nat): real
      reads this
    {
      CostForYear(quintile, table, priceScale, year, totalYears, maximumYears)
    }
  }

  /**
   * A whole path of care. The household is observed at the end of each year and
   * charged at the start of each retired one. Whatever it earned, the quintile is
   * settled before the first charged year, so what it pays over the path is the
   * price of one episode: all of it when the household is retired from the first
   * charged year on, and exactly the working years' share less otherwise.
   */
  method ChargePath(draw: LongTermCareDraw, startAge: nat, lifeExpectancy: nat, retirementAge: nat,
                    portfolioValues: seq<real>, incomes: seq<real>, quintileFor: real -> Quintile)
    returns (charged: real)
    requires startAge <= lifeExpectancy && OBSERVATION_AGE < lifeExpectancy
    requires draw.quintile == None && draw.maximumYears == MaximumYears(startAge, lifeExpectancy)
    requires Priced(draw.table) && 0.0 < draw.povertyLevel
    requires |portfolioValues| == |incomes| == TotalYears(startAge, lifeExpectancy)
    modifies draw
    ensures draw.quintile.Some?
    ensures draw.table(draw.quintile.value).None? ==> charged == 0.0
    ensures startAge == lifeExpectancy ==> charged == 0.0
    ensures startAge < lifeExpectancy && draw.table(draw.quintile.value).Some? ==>
              var episode := draw.table(draw.quintile.value).value;
              var total := TotalYears(startAge, lifeExpectancy);
              var duration := Duration(episode, total, draw.maximumYears);
              var cost := Times(episode.lifetimeCost, draw.priceScale);
              var firstRetired := if retirementAge <= startAge then 0 else retirementAge - startAge;
              && 0.0 < duration
              && (firstRetired as real <= total as real - duration ==> charged == cost)
              && (0.0 < cost ==> (charged == cost <==> firstRetired as real <= total as real - duration))
  {
    hide Installment;
    hide Duration;
    var totalYears := TotalYears(startAge, lifeExpectancy);
    ghost var firstRetired := if retirementAge <= startAge then 0 else retirementAge - startAge;
    charged := 0.0;
    ghost var unobserved := draw.quintile;
    for year := 0 to totalYears
      invariant draw.quintile.Some? <==> year > ObservedYear(startAge)
      invariant draw.quintile.None? ==> charged == 0.0
      invariant draw.quintile.Some? ==>
                  match draw.table(draw.quintile.value)
                  case None => charged == 0.0
                  case Some(episode) =>
                    charged == ChargedFrom(episode, draw.priceScale, firstRetired, year, totalYears, draw.maximumYears)
    {
      var currentAge := startAge + year;
      if currentAge >= retirementAge {
        charged := charged + draw.Cost(year, totalYears);
      }
      draw.Observe(currentAge, portfolioValues[year], incomes[year], quintileFor);
      if year == ObservedYear(startAge) && draw.table(draw.quintile.value).Some? {
        NothingYet(draw.table(draw.quintile.value).value, draw.priceScale, firstRetired, startAge, lifeExpectancy, year + 1);
      }
    }
    if startAge == lifeExpectancy && draw.table(draw.quintile.value).Some? {
      NothingYet(draw.table(draw.quintile.value).value, draw.priceScale, firstRetired, startAge, lifeExpectancy, 1);
    } else if draw.table(draw.quintile.value).Some? {
      var episode := draw.table(draw.quintile.value).value;
      DurationPositive(episode, startAge, lifeExpectancy);
      if firstRetired <= totalYears {
        ChargedShare(episode, draw.priceScale, firstRetired, totalYears, draw.maximumYears);
      } else {
        NeverRetires(episode, draw.priceScale, firstRetired, totalYears, draw.maximumYears);
      }
    }
  }

  lemma DurationPositive(episode: Episode, startAge: nat, lifeExpectancy: nat)
    requires startAge < lifeExpectancy && OBSERVATION_AGE < lifeExpectancy && 0.0 < episode.years
    ensures 0.0 < Duration(episode, TotalYears(startAge, lifeExpectancy), MaximumYears(startAge, lifeExpectancy))
         <= TotalYears(startAge, lifeExpectancy) as real
  {
  }

  lemma {:induction false} NothingYet(episode: Episode, priceScale: real, first: nat, startAge: nat, lifeExpectancy: nat, years: nat)
    requires startAge <= lifeExpectancy && OBSERVATION_AGE < lifeExpectancy && years <= ObservedYear(startAge) + 1
    ensures ChargedFrom(episode, priceScale, first, years, TotalYears(startAge, lifeExpectancy),
                        MaximumYears(startAge, lifeExpectancy)) == 0.0
  {
    hide Installment;
    if years > first {
      NothingYet(episode, priceScale, first, startAge, lifeExpectancy, years - 1);
      NothingBeforeObservation(episode, priceScale, startAge, lifeExpectancy, years - 1);
    }
  }

  lemma NeverRetires(episode: Episode, priceScale: real, first: nat, years: nat, maximumYears: nat)
    requires years < first
    ensures ChargedFrom(episode, priceScale, first, years, years, maximumYears) == 0.0
  {
  }
}
