// The vocabulary the projection shares: accounts, filing statuses, households.
module Domain {

  datatype AccountType = Taxable | Traditional | Roth | Hsa

  datatype FilingStatus = Single | MarriedFilingJointly | MarriedFilingSeparately | HeadOfHousehold

  datatype State = CA | TX | FL | NY | WA | Other

  datatype AssetWeights = AssetWeights(stocks: real, bonds: real)

  datatype Account = Account(
    accountType: AccountType,
    balance: real,
    assetWeights: AssetWeights,
    isSurplusCash: bool)

  predicate Solvent(accounts: seq<Account>) {
    forall i | 0 <= i < |accounts| :: 0.0 <= accounts[i].balance
  }

  const MEDICARE_AGE: nat := 65

  /** Whoever the return covers: a primary person first, and at most one other. */
  datatype Household = Household(filingStatus: FilingStatus, ages: seq<nat>) {
    predicate Valid() {
      |ages| <= 2
    }

    function PrimaryAge(): nat {
      if |ages| == 0 then 0 else ages[0]
    }

    function Seniors(): nat {
      CountSeniors(ages)
    }
  }

  function CountSeniors(ages: seq<nat>): (n: nat)
    ensures n <= |ages|
  {
    if |ages| == 0 then 0
    else (if ages[0] >= 65 then 1 else 0) + CountSeniors(ages[1..])
  }

  /** A lone person counts as a senior exactly from 65, and a second person adds to the first. */
  lemma SeniorsFromSixtyFive(fs: FilingStatus, age: nat, other: nat)
    ensures Household(fs, [age]).Seniors() == if age >= 65 then 1 else 0
    ensures Household(fs, [age, other]).Seniors() == Household(fs, [age]).Seniors() + Household(fs, [other]).Seniors()
  {
    assert [age, other][1..] == [other] && [age][1..] == [] && [other][1..] == [];
  }

  /**
   * A tax year, with the factor that erodes a threshold Congress never indexed:
   * one through 2025, and compounded inflation's reciprocal after it.
   */
  datatype TaxYear = TaxYear(year: int, frozenScale: real) {
    predicate Valid() {
      0.0 < frozenScale <= 1.0
    }
  }
}
