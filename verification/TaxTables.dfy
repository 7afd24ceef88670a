// The 2025 federal, capital-gain and California tables, as the source states them.
module TaxTables {
  import opened BracketTables
  import opened Domain
  import opened Options

  function FederalBrackets(filingStatus: FilingStatus): seq<Bracket> {
    match filingStatus
    case Single => [
      Bracket(0.0, Some(11925.0), 0.10),
      Bracket(11925.0, Some(48475.0), 0.12),
      Bracket(48475.0, Some(103350.0), 0.22),
      Bracket(103350.0, Some(197300.0), 0.24),
      Bracket(197300.0, Some(250525.0), 0.32),
      Bracket(250525.0, Some(626350.0), 0.35),
      Bracket(626350.0, None, 0.37)
    ]
    case MarriedFilingJointly => [
      Bracket(0.0, Some(23850.0), 0.10),
      Bracket(23850.0, Some(96950.0), 0.12),
      Bracket(96950.0, Some(206700.0), 0.22),
      Bracket(206700.0, Some(394600.0), 0.24),
      Bracket(394600.0, Some(501050.0), 0.32),
      Bracket(501050.0, Some(751600.0), 0.35),
      Bracket(751600.0, None, 0.37)
    ]
    case MarriedFilingSeparately => [
      Bracket(0.0, Some(11925.0), 0.10),
      Bracket(11925.0, Some(48475.0), 0.12),
      Bracket(48475.0, Some(103350.0), 0.22),
      Bracket(103350.0, Some(197300.0), 0.24),
      Bracket(197300.0, Some(250525.0), 0.32),
      Bracket(250525.0, Some(375800.0), 0.35),
      Bracket(375800.0, None, 0.37)
    ]
    case HeadOfHousehold => [
      Bracket(0.0, Some(17000.0), 0.10),
      Bracket(17000.0, Some(64850.0), 0.12),
      Bracket(64850.0, Some(103350.0), 0.22),
      Bracket(103350.0, Some(197300.0), 0.24),
      Bracket(197300.0, Some(250525.0), 0.32),
      Bracket(250525.0, Some(626350.0), 0.35),
      Bracket(626350.0, None, 0.37)
    ]
  }

  function GainsBrackets(filingStatus: FilingStatus): seq<Bracket> {
    match filingStatus
    case Single => [
      Bracket(0.0, Some(48450.0), 0.00),
      Bracket(48450.0, Some(533400.0), 0.15),
      Bracket(533400.0, None, 0.20)
    ]
    case MarriedFilingJointly => [
      Bracket(0.0, Some(96900.0), 0.00),
      Bracket(96900.0, Some(600050.0), 0.15),
      Bracket(600050.0, None, 0.20)
    ]
    case MarriedFilingSeparately => [
      Bracket(0.0, Some(48450.0), 0.00),
      Bracket(48450.0, Some(300025.0), 0.15),
      Bracket(300025.0, None, 0.20)
    ]
    case HeadOfHousehold => [
      Bracket(0.0, Some(65250.0), 0.00),
      Bracket(65250.0, Some(566700.0), 0.15),
      Bracket(566700.0, None, 0.20)
    ]
  }

  function CaliforniaBrackets(filingStatus: FilingStatus): seq<Bracket> {
    match filingStatus
    case Single => [
      Bracket(0.0, Some(11079.0), 0.01),
      Bracket(11079.0, Some(26264.0), 0.02),
      Bracket(26264.0, Some(41452.0), 0.04),
      Bracket(41452.0, Some(57542.0), 0.06),
      Bracket(57542.0, Some(72724.0), 0.08),
      Bracket(72724.0, Some(371479.0), 0.093),
      Bracket(371479.0, Some(445771.0), 0.103),
      Bracket(445771.0, Some(742953.0), 0.113),
      Bracket(742953.0, Some(1000000.0), 0.123),
      Bracket(1000000.0, None, 0.133)
    ]
    case MarriedFilingJointly => [
      Bracket(0.0, Some(22158.0), 0.01),
      Bracket(22158.0, Some(52528.0), 0.02),
      Bracket(52528.0, Some(82904.0), 0.04),
      Bracket(82904.0, Some(115084.0), 0.06),
      Bracket(115084.0, Some(145448.0), 0.08),
      Bracket(145448.0, Some(742958.0), 0.093),
      Bracket(742958.0, Some(891542.0), 0.103),
      Bracket(891542.0, Some(1000000.0), 0.113),
      Bracket(1000000.0, Some(1485906.0), 0.123),
      Bracket(1485906.0, None, 0.133)
    ]
    case MarriedFilingSeparately => [
      Bracket(0.0, Some(11079.0), 0.01),
      Bracket(11079.0, Some(26264.0), 0.02),
      Bracket(26264.0, Some(41452.0), 0.04),
      Bracket(41452.0, Some(57542.0), 0.06),
      Bracket(57542.0, Some(72724.0), 0.08),
      Bracket(72724.0, Some(371479.0), 0.093),
      Bracket(371479.0, Some(445771.0), 0.103),
      Bracket(445771.0, Some(742953.0), 0.113),
      Bracket(742953.0, Some(1000000.0), 0.123),
      Bracket(1000000.0, None, 0.133)
    ]
    case HeadOfHousehold => [
      Bracket(0.0, Some(22173.0), 0.01),
      Bracket(22173.0, Some(52530.0), 0.02),
      Bracket(52530.0, Some(67716.0), 0.04),
      Bracket(67716.0, Some(83805.0), 0.06),
      Bracket(83805.0, Some(98990.0), 0.08),
      Bracket(98990.0, Some(505208.0), 0.093),
      Bracket(505208.0, Some(606251.0), 0.103),
      Bracket(606251.0, Some(1000000.0), 0.113),
      Bracket(1000000.0, Some(1010417.0), 0.123),
      Bracket(1010417.0, None, 0.133)
    ]
  }

  function StateBrackets(state: State, filingStatus: FilingStatus): Option<seq<Bracket>> {
    match state
    case CA => Some(CaliforniaBrackets(filingStatus))
    case _ => None
  }

  function StateStandardDeduction(state: State, filingStatus: FilingStatus): Option<real> {
    match state
    case CA => Some(match filingStatus
                    case Single => 5706.0
                    case MarriedFilingJointly => 11412.0
                    case MarriedFilingSeparately => 5706.0
                    case HeadOfHousehold => 11412.0)
    case _ => None
  }

  lemma FederalTable(fs: FilingStatus)
    ensures WellFormed(FederalBrackets(fs)) && Progressive(FederalBrackets(fs))
    ensures forall i | 0 <= i < |FederalBrackets(fs)| :: FederalBrackets(fs)[i].rate <= 0.37
  {
    FederalIsChained(fs);
    FederalRates(fs);
    hide FederalBrackets;
  }

  lemma FederalIsChained(fs: FilingStatus)
    ensures Chained(FederalBrackets(fs)) && FederalBrackets(fs)[0].min == 0.0
  {
  }

  lemma FederalRates(fs: FilingStatus)
    ensures var rates := [0.10, 0.12, 0.22, 0.24, 0.32, 0.35, 0.37];
            && |FederalBrackets(fs)| == |rates|
            && forall i | 0 <= i < |rates| :: FederalBrackets(fs)[i].rate == rates[i]
  {
  }

  /** Only the highest gains bracket, far above any phaseout, charges 20%. */
  lemma GainsTable(fs: FilingStatus)
    ensures WellFormed(GainsBrackets(fs)) && Progressive(GainsBrackets(fs))
    ensures forall i | 0 <= i < |GainsBrackets(fs)| :: GainsBrackets(fs)[i].rate <= 0.20
    ensures fs != MarriedFilingSeparately ==>
              forall i | 0 <= i < |GainsBrackets(fs)| ::
                GainsBrackets(fs)[i].min < 350000.0 ==> GainsBrackets(fs)[i].rate <= 0.15
  {
  }

  lemma CaliforniaTable(fs: FilingStatus)
    ensures WellFormed(CaliforniaBrackets(fs)) && Progressive(CaliforniaBrackets(fs))
    ensures forall i | 0 <= i < |CaliforniaBrackets(fs)| :: CaliforniaBrackets(fs)[i].rate <= 0.133
  {
    CaliforniaIsChained(fs);
    CaliforniaRates(fs);
    hide CaliforniaBrackets;
  }

  lemma CaliforniaIsChained(fs: FilingStatus)
    ensures Chained(CaliforniaBrackets(fs)) && CaliforniaBrackets(fs)[0].min == 0.0
  {
  }

  lemma CaliforniaRates(fs: FilingStatus)
    ensures var rates := [0.01, 0.02, 0.04, 0.06, 0.08, 0.093, 0.103, 0.113, 0.123, 0.133];
            && |CaliforniaBrackets(fs)| == |rates|
            && forall i | 0 <= i < |rates| :: CaliforniaBrackets(fs)[i].rate == rates[i]
  {
  }

  /**
   * Wherever the two tables meet, an ordinary dollar costs at most 22 cents more
   * than a gain at the same height: 20 cents, except for the sliver of the head
   * of household tables where 22% has begun and the gains rate is still zero.
   */
  lemma OrdinaryOverGains(fs: FilingStatus)
    ensures DearerByAtMost(FederalBrackets(fs), GainsBrackets(fs), 0.22)
  {
  }

  /** Filing separately, every federal and gains bracket is half as wide as on a joint return. */
  lemma SeparateIsHalfOfJoint(i: nat)
    ensures i < 7 ==>
              2.0 * FederalBrackets(MarriedFilingSeparately)[i].min == FederalBrackets(MarriedFilingJointly)[i].min
    ensures i < 3 ==>
              2.0 * GainsBrackets(MarriedFilingSeparately)[i].min == GainsBrackets(MarriedFilingJointly)[i].min
  {
    FederalRates(MarriedFilingSeparately);
    FederalRates(MarriedFilingJointly);
  }

  /** California doubles a single filer's brackets for a joint return up to the first million, where a surtax is inserted. */
  lemma CaliforniaJointIsDouble(i: nat)
    ensures i < 8 ==> CaliforniaBrackets(MarriedFilingJointly)[i].min == 2.0 * CaliforniaBrackets(Single)[i].min
    ensures CaliforniaBrackets(MarriedFilingSeparately) == CaliforniaBrackets(Single)
    ensures exists j | 0 <= j < |CaliforniaBrackets(MarriedFilingJointly)| ::
              CaliforniaBrackets(MarriedFilingJointly)[j].min == 1000000.0
  {
    assert CaliforniaBrackets(MarriedFilingJointly)[8].min == 1000000.0;
  }
}
