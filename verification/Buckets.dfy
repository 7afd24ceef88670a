// One bucket per account type: collapsing a plan's accounts, and the deposits
// and draws that move money between buckets afterwards.
module Buckets {
  import opened Domain
  import opened Reals
  import opened Sequences

  const BUCKET_ORDER: seq<AccountType> := [Taxable, Traditional, Roth, Hsa]

  // ---- Specification -------------------------------------------------------

  /** What one type's accounts add up to. */
  datatype Pool = Pool(balance: real, weighted: real, stocks: real, count: nat)

  function Share(a: Account, ty: AccountType): Pool {
    if a.accountType == ty
    then Pool(a.balance, Times(a.balance, a.assetWeights.stocks), a.assetWeights.stocks, 1)
    else Pool(0.0, 0.0, 0.0, 0)
  }

  function Add(a: Pool, b: Pool): Pool {
    Pool(a.balance + b.balance, a.weighted + b.weighted, a.stocks + b.stocks, a.count + b.count)
  }

  function PoolOf(accounts: seq<Account>, ty: AccountType): Pool {
    if |accounts| == 0 then Pool(0.0, 0.0, 0.0, 0) else Add(Share(accounts[0], ty), PoolOf(accounts[1..], ty))
  }

  /** Balance-weighted when there is a balance, the plain average when there is not. */
  function Bucket(ty: AccountType, pool: Pool): Account
    requires pool.count > 0
  {
    var stocks := if pool.balance > 0.0 then pool.weighted / pool.balance else pool.stocks / pool.count as real;
    Account(ty, pool.balance, AssetWeights(stocks, 1.0 - stocks), false)
  }

  function BucketsFor(order: seq<AccountType>, accounts: seq<Account>): seq<Account> {
    if |order| == 0 then []
    else
      var pool := PoolOf(accounts, order[0]);
      (if pool.count == 0 then [] else [Bucket(order[0], pool)]) + BucketsFor(order[1..], accounts)
  }

  function ToBuckets(accounts: seq<Account>): seq<Account> {
    BucketsFor(BUCKET_ORDER, accounts)
  }

  function Worth(accounts: seq<Account>): real {
    if |accounts| == 0 then 0.0 else accounts[0].balance + Worth(accounts[1..])
  }

  predicate OnePerType(accounts: seq<Account>) {
    forall i, j | 0 <= i < j < |accounts| :: accounts[i].accountType != accounts[j].accountType
  }

  /** The first account of a type, or the length when there is none. */
  function Find(accounts: seq<Account>, ty: AccountType): (i: nat)
    ensures i <= |accounts|
    ensures i < |accounts| ==> accounts[i].accountType == ty
    ensures forall j | 0 <= j < i :: accounts[j].accountType != ty
  {
    if |accounts| == 0 || accounts[0].accountType == ty then 0 else 1 + Find(accounts[1..], ty)
  }

  function BalanceOf(accounts: seq<Account>, ty: AccountType): real {
    PoolOf(accounts, ty).balance
  }

  function Credit(accounts: seq<Account>, i: nat, amount: real): seq<Account>
    requires i < |accounts|
  {
    accounts[i := accounts[i].(balance := accounts[i].balance + amount)]
  }

  /** A new bucket inherits the portfolio's blend, or stays in cash when there is none. */
  function NewBucket(accounts: seq<Account>, ty: AccountType, amount: real): Account {
    var total := Worth(accounts);
    var stocks := if total > 0.0 then WeightedWorth(accounts) / total else 0.0;
    Account(ty, amount, AssetWeights(stocks, if total > 0.0 then 1.0 - stocks else 0.0), total == 0.0)
  }

  function WeightedWorth(accounts: seq<Account>): real {
    if |accounts| == 0 then 0.0
    else Times(accounts[0].balance, accounts[0].assetWeights.stocks) + WeightedWorth(accounts[1..])
  }

  function Deposit(accounts: seq<Account>, ty: AccountType, amount: real): seq<Account> {
    if amount <= 0.0 then accounts
    else
      var i := Find(accounts, ty);
      if i < |accounts| then Credit(accounts, i, amount) else accounts + [NewBucket(accounts, ty, amount)]
  }

  function DrawnFrom(accounts: seq<Account>, ty: AccountType, amount: real): real {
    var i := Find(accounts, ty);
    if amount <= 0.0 || i == |accounts| then 0.0 else Min(amount, accounts[i].balance)
  }

  function Draw(accounts: seq<Account>, ty: AccountType, amount: real): seq<Account> {
    var i := Find(accounts, ty);
    if amount <= 0.0 || i == |accounts| then accounts else Credit(accounts, i, -DrawnFrom(accounts, ty, amount))
  }

  // ---- Collapsing does not see how accounts are arranged ---------------------

  lemma {:induction false} PoolJoins(a: seq<Account>, b: seq<Account>, ty: AccountType)
    ensures PoolOf(a + b, ty) == Add(PoolOf(a, ty), PoolOf(b, ty))
  {
    hide Share;
    if |a| == 0 {
      assert a + b == b;
    } else {
      assert (a + b)[1..] == a[1..] + b;
      PoolJoins(a[1..], b, ty);
    }
  }

  lemma PoolTakesOut(a: seq<Account>, i: nat, ty: AccountType)
    requires i < |a|
    ensures PoolOf(a, ty) == Add(Share(a[i], ty), PoolOf(a[..i] + a[i + 1..], ty))
  {
    hide Share;
    assert a == a[..i] + ([a[i]] + a[i + 1..]);
    PoolJoins(a[..i], [a[i]] + a[i + 1..], ty);
    PoolJoins([a[i]], a[i + 1..], ty);
    PoolJoins(a[..i], a[i + 1..], ty);
    assert PoolOf([a[i]], ty) == Add(Share(a[i], ty), PoolOf([], ty)) by {
      assert [a[i]][1..] == [];
    }
  }

  lemma {:induction false} PoolIgnoresOrder(a: seq<Account>, b: seq<Account>, ty: AccountType)
    requires multiset(a) == multiset(b)
    ensures PoolOf(a, ty) == PoolOf(b, ty)
  {
    hide Share;
    hide Add;
    if |a| == 0 {
      assert |multiset(b)| == 0;
    } else {
      var i := FirstIsSomewhere(a, b);
      PoolIgnoresOrder(a[1..], b[..i] + b[i + 1..], ty);
      PoolTakesOut(b, i, ty);
    }
  }

  /** Listing the same accounts in another order gives the same buckets. */
  lemma PermutingAccounts(a: seq<Account>, b: seq<Account>)
    requires multiset(a) == multiset(b)
    ensures ToBuckets(a) == ToBuckets(b)
  {
    forall ty
      ensures PoolOf(a, ty) == PoolOf(b, ty)
    {
      PoolIgnoresOrder(a, b, ty);
    }
    SamePoolsSameBuckets(BUCKET_ORDER, a, b);
  }

  /** Two pools that collapse to the same bucket. */
  predicate Alike(p: Pool, q: Pool) {
    || p == q
    || (p.count > 0 && q.count > 0 && p.balance == q.balance > 0.0 && p.weighted == q.weighted)
  }

  lemma {:induction false} SamePoolsSameBuckets(order: seq<AccountType>, a: seq<Account>, b: seq<Account>)
    requires forall ty :: Alike(PoolOf(a, ty), PoolOf(b, ty))
    ensures BucketsFor(order, a) == BucketsFor(order, b)
  {
    if |order| > 0 {
      assert Alike(PoolOf(a, order[0]), PoolOf(b, order[0]));
      SamePoolsSameBuckets(order[1..], a, b);
    }
  }

  /**
   * Splitting a positive balance across two accounts of its type, at the same
   * balance-weighted allocation, gives the same buckets, and so the same path.
   */
  lemma SplittingAccounts(a: seq<Account>, i: nat, first: Account, second: Account)
    requires i < |a| && Solvent(a) && 0.0 < a[i].balance
    requires first.accountType == second.accountType == a[i].accountType
    requires first.balance + second.balance == a[i].balance
    requires Times(first.balance, first.assetWeights.stocks) + Times(second.balance, second.assetWeights.stocks)
             == Times(a[i].balance, a[i].assetWeights.stocks)
    ensures ToBuckets(a[..i] + [first, second] + a[i + 1..]) == ToBuckets(a)
  {
    var b := a[..i] + [first, second] + a[i + 1..];
    forall ty
      ensures Alike(PoolOf(b, ty), PoolOf(a, ty))
    {
      hide Times;
      PoolTakesOut(a, i, ty);
      PoolTakesOut(b, i, ty);
      var c := b[..i] + b[i + 1..];
      PoolTakesOut(c, i, ty);
      assert c[..i] + c[i + 1..] == a[..i] + a[i + 1..];
      PoolNonNegative(a[..i] + a[i + 1..], ty);
    }
    SamePoolsSameBuckets(BUCKET_ORDER, b, a);
  }

  lemma TailNonNegative(a: seq<Account>)
    requires |a| > 0 && Solvent(a)
    ensures 0.0 <= a[0].balance && Solvent(a[1..])
  {
    assert forall j | 0 <= j < |a[1..]| :: a[1..][j] == a[j + 1];
  }

  lemma {:induction false} PoolNonNegative(a: seq<Account>, ty: AccountType)
    requires Solvent(a)
    ensures 0.0 <= PoolOf(a, ty).balance
  {
    hide Times;
    if |a| > 0 {
      TailNonNegative(a);
      hide Solvent;
      PoolNonNegative(a[1..], ty);
    }
  }

  /** A year's market gain on one account, before the floor at zero. */
  function MarketGain(a: Account, stockReturn: real, bondReturn: real, fee: real): real {
    Times(a.balance, Times(a.assetWeights.stocks, stockReturn) + Times(a.assetWeights.bonds, bondReturn) - fee)
  }

  function GainOfType(accounts: seq<Account>, ty: AccountType, stockReturn: real, bondReturn: real, fee: real): real {
    if |accounts| == 0 then 0.0
    else (if accounts[0].accountType == ty then MarketGain(accounts[0], stockReturn, bondReturn, fee) else 0.0)
         + GainOfType(accounts[1..], ty, stockReturn, bondReturn, fee)
  }

  /** Weights that sum to one. */
  predicate FullyInvested(accounts: seq<Account>) {
    forall i | 0 <= i < |accounts| :: accounts[i].assetWeights.bonds == 1.0 - accounts[i].assetWeights.stocks
  }

  lemma TailInvested(a: seq<Account>)
    requires |a| > 0 && FullyInvested(a)
    ensures a[0].assetWeights.bonds == 1.0 - a[0].assetWeights.stocks && FullyInvested(a[1..])
  {
    assert forall j | 0 <= j < |a[1..]| :: a[1..][j] == a[j + 1];
  }

  lemma AccountGain(a: Account, s: real, b: real, fee: real)
    requires a.assetWeights.bonds == 1.0 - a.assetWeights.stocks
    ensures MarketGain(a, s, b, fee)
         == Times(Times(a.balance, a.assetWeights.stocks), s - b) + Times(a.balance, b - fee)
  {
  }

  lemma {:induction false} MembersGain(accounts: seq<Account>, ty: AccountType, s: real, b: real, fee: real)
    requires FullyInvested(accounts)
    ensures GainOfType(accounts, ty, s, b, fee)
         == Times(PoolOf(accounts, ty).weighted, s - b) + Times(PoolOf(accounts, ty).balance, b - fee)
  {
    hide Times;
    TimesZero(s - b);
    TimesZero(b - fee);
    if |accounts| > 0 {
      var a, rest := accounts[0], PoolOf(accounts[1..], ty);
      TailInvested(accounts);
      hide FullyInvested;
      MembersGain(accounts[1..], ty, s, b, fee);
      AccountGain(a, s, b, fee);
      hide MarketGain;
      TimesSum(s - b, Share(a, ty).weighted, rest.weighted);
      TimesSum(b - fee, Share(a, ty).balance, rest.balance);
    }
  }

  /** With weights that sum to one, a bucket earns exactly what its members would have. */
  lemma BucketEarnsWhatMembersEarn(accounts: seq<Account>, ty: AccountType, s: real, b: real, fee: real)
    requires PoolOf(accounts, ty).count > 0 && 0.0 < PoolOf(accounts, ty).balance
    requires FullyInvested(accounts)
    ensures MarketGain(Bucket(ty, PoolOf(accounts, ty)), s, b, fee) == GainOfType(accounts, ty, s, b, fee)
  {
    hide MarketGain;
    MembersGain(accounts, ty, s, b, fee);
    var pool := PoolOf(accounts, ty);
    AccountGain(Bucket(ty, pool), s, b, fee);
    assert Times(pool.balance, pool.weighted / pool.balance) == pool.weighted;
  }

  // ---- Buckets stay one per type, nonnegative, and conserved -----------------

  lemma {:induction false} BucketsAreOnePerType(order: seq<AccountType>, accounts: seq<Account>)
    requires forall i, j | 0 <= i < j < |order| :: order[i] != order[j]
    requires Solvent(accounts)
    ensures var b := BucketsFor(order, accounts);
            OnePerType(b) && Solvent(b) && forall i | 0 <= i < |b| :: b[i].accountType in order
  {
    if |order| > 0 {
      var rest := order[1..];
      assert forall i | 0 <= i < |rest| :: rest[i] == order[i + 1];
      BucketsAreOnePerType(rest, accounts);
      PoolNonNegative(accounts, order[0]);
      NextBucket(order, accounts, BucketsFor(rest, accounts));
    }
  }

  lemma NextBucket(order: seq<AccountType>, accounts: seq<Account>, tail: seq<Account>)
    requires |order| > 0 && tail == BucketsFor(order[1..], accounts) && 0.0 <= PoolOf(accounts, order[0]).balance
    requires OnePerType(tail) && Solvent(tail)
    requires forall i | 0 <= i < |tail| :: tail[i].accountType in order[1..] && tail[i].accountType != order[0]
    ensures var b := BucketsFor(order, accounts);
            OnePerType(b) && Solvent(b) && forall i | 0 <= i < |b| :: b[i].accountType in order
  {
    hide PoolOf;
    var pool := PoolOf(accounts, order[0]);
    if pool.count > 0 {
      var head := Bucket(order[0], pool);
      assert head.accountType == order[0] && 0.0 <= head.balance;
      hide Bucket;
      PrependKeeps(head, tail);
      var b := BucketsFor(order, accounts);
      hide OnePerType;
      hide Solvent;
      assert b == [head] + tail;
      assert forall i | 0 < i < |b| :: b[i] == tail[i - 1];
    }
  }

  lemma PrependKeeps(head: Account, tail: seq<Account>)
    requires OnePerType(tail) && Solvent(tail) && 0.0 <= head.balance
    requires forall i | 0 <= i < |tail| :: tail[i].accountType != head.accountType
    ensures OnePerType([head] + tail) && Solvent([head] + tail)
  {
  }

  lemma BucketsStartOnePerType(accounts: seq<Account>)
    requires Solvent(accounts)
    ensures OnePerType(ToBuckets(accounts)) && Solvent(ToBuckets(accounts))
  {
    BucketsAreOnePerType(BUCKET_ORDER, accounts);
  }

  /** What the types in `order` hold between them. */
  function HeldBy(order: seq<AccountType>, accounts: seq<Account>): real {
    if |order| == 0 then 0.0 else BalanceOf(accounts, order[0]) + HeldBy(order[1..], accounts)
  }

  lemma {:induction false} EmptyPool(accounts: seq<Account>, ty: AccountType)
    ensures PoolOf(accounts, ty).count == 0 ==> PoolOf(accounts, ty).balance == 0.0
  {
    if |accounts| > 0 {
      EmptyPool(accounts[1..], ty);
    }
  }

  lemma {:induction false} BucketsHold(order: seq<AccountType>, accounts: seq<Account>)
    ensures Worth(BucketsFor(order, accounts)) == HeldBy(order, accounts)
  {
    if |order| > 0 {
      BucketsHold(order[1..], accounts);
      EmptyPool(accounts, order[0]);
      var pool := PoolOf(accounts, order[0]);
      hide PoolOf;
      if pool.count > 0 {
        assert BucketsFor(order, accounts)[1..] == BucketsFor(order[1..], accounts);
      } else {
        assert BucketsFor(order, accounts) == BucketsFor(order[1..], accounts);
      }
    }
  }

  lemma AllTypes(accounts: seq<Account>)
    ensures HeldBy(BUCKET_ORDER, accounts)
         == BalanceOf(accounts, Taxable) + BalanceOf(accounts, Traditional) + BalanceOf(accounts, Roth) + BalanceOf(accounts, Hsa)
  {
    hide BalanceOf;
    var order := BUCKET_ORDER;
    var rest, last, none := order[1..], order[1..][1..][1..], order[1..][1..][1..][1..];
    assert HeldBy(none, accounts) == 0.0;
    assert HeldBy(last, accounts) == BalanceOf(accounts, Hsa);
    assert HeldBy(rest[1..], accounts) == BalanceOf(accounts, Roth) + BalanceOf(accounts, Hsa);
  }

  lemma {:induction false} WorthByType(accounts: seq<Account>)
    ensures Worth(accounts)
         == BalanceOf(accounts, Taxable) + BalanceOf(accounts, Traditional) + BalanceOf(accounts, Roth) + BalanceOf(accounts, Hsa)
  {
    if |accounts| > 0 {
      WorthByType(accounts[1..]);
      FirstBalance(accounts, Taxable);
      FirstBalance(accounts, Traditional);
      FirstBalance(accounts, Roth);
      FirstBalance(accounts, Hsa);
      hide BalanceOf;
    } else {
      NoneOfType(accounts, Taxable);
      NoneOfType(accounts, Traditional);
      NoneOfType(accounts, Roth);
      NoneOfType(accounts, Hsa);
    }
  }

  lemma FirstBalance(accounts: seq<Account>, ty: AccountType)
    requires |accounts| > 0
    ensures BalanceOf(accounts, ty)
         == (if accounts[0].accountType == ty then accounts[0].balance else 0.0) + BalanceOf(accounts[1..], ty)
  {
  }

  /** Collapsing moves no money. */
  lemma CollapsingConserves(accounts: seq<Account>)
    ensures Worth(ToBuckets(accounts)) == Worth(accounts)
  {
    BucketsHold(BUCKET_ORDER, accounts);
    AllTypes(accounts);
    WorthByType(accounts);
  }

  /** Opening a bucket for a deposit leaves the portfolio's share in stocks where it was. */
  lemma NewBucketKeepsBlend(accounts: seq<Account>, ty: AccountType, amount: real)
    requires Find(accounts, ty) == |accounts| && 0.0 < amount && 0.0 < Worth(accounts)
    ensures var after := Deposit(accounts, ty, amount);
            Worth(after) > 0.0 && WeightedWorth(after) / Worth(after) == WeightedWorth(accounts) / Worth(accounts)
  {
    var bucket := NewBucket(accounts, ty, amount);
    AppendWorth(accounts, bucket);
    AppendWeighted(accounts, bucket);
    var w, t := WeightedWorth(accounts), Worth(accounts);
    hide WeightedWorth;
    hide Worth;
    SameShare(w, t, amount);
  }

  /**
   * Money put into an empty portfolio is surplus cash, in neither stocks nor
   * bonds; into any other it is invested whole. Collapsed buckets never are surplus.
   */
  lemma SurplusExactlyWhenEmpty(accounts: seq<Account>, ty: AccountType, amount: real)
    ensures var a := NewBucket(accounts, ty, amount);
            && (Worth(accounts) == 0.0 ==> a.isSurplusCash && a.assetWeights == AssetWeights(0.0, 0.0))
            && (Worth(accounts) > 0.0 ==> !a.isSurplusCash && a.assetWeights.stocks + a.assetWeights.bonds == 1.0)
    ensures forall b | b in ToBuckets(accounts) :: !b.isSurplusCash && b.assetWeights.bonds == 1.0 - b.assetWeights.stocks
  {
    CollapsedAreInvested(BUCKET_ORDER, accounts);
  }

  lemma {:induction false} CollapsedAreInvested(order: seq<AccountType>, accounts: seq<Account>)
    ensures forall b | b in BucketsFor(order, accounts) :: !b.isSurplusCash && b.assetWeights.bonds == 1.0 - b.assetWeights.stocks
  {
    hide PoolOf;
    if |order| > 0 {
      CollapsedAreInvested(order[1..], accounts);
    }
  }

  lemma SameShare(w: real, t: real, amount: real)
    requires 0.0 < t && 0.0 < amount
    ensures (w + Times(amount, w / t)) / (t + amount) == w / t
  {
    var s := w / t;
    assert w == s * t;
    assert w + amount * s == s * (t + amount);
    assert s * (t + amount) / (t + amount) == s;
  }

  lemma {:induction false} AppendWeighted(accounts: seq<Account>, a: Account)
    ensures WeightedWorth(accounts + [a]) == WeightedWorth(accounts) + Times(a.balance, a.assetWeights.stocks)
  {
    hide Times;
    if |accounts| > 0 {
      assert (accounts + [a])[1..] == accounts[1..] + [a];
      AppendWeighted(accounts[1..], a);
    } else {
      assert (accounts + [a])[1..] == [];
    }
  }

  lemma {:induction false} CreditWorth(accounts: seq<Account>, i: nat, amount: real)
    requires i < |accounts|
    ensures Worth(Credit(accounts, i, amount)) == Worth(accounts) + amount
  {
    if i > 0 {
      assert Credit(accounts, i, amount)[1..] == Credit(accounts[1..], i - 1, amount);
      CreditWorth(accounts[1..], i - 1, amount);
    } else {
      assert Credit(accounts, i, amount)[1..] == accounts[1..];
    }
  }

  lemma {:induction false} AppendWorth(accounts: seq<Account>, a: Account)
    ensures Worth(accounts + [a]) == Worth(accounts) + a.balance
  {
    if |accounts| > 0 {
      assert (accounts + [a])[1..] == accounts[1..] + [a];
      AppendWorth(accounts[1..], a);
    } else {
      assert (accounts + [a])[1..] == [];
    }
  }

  /** A deposit adds exactly its amount, opening a bucket only where there was none. */
  lemma DepositConserves(accounts: seq<Account>, ty: AccountType, amount: real)
    requires OnePerType(accounts) && Solvent(accounts)
    ensures var after := Deposit(accounts, ty, amount);
            Worth(after) == Worth(accounts) + Pos(amount) && OnePerType(after) && Solvent(after)
  {
    if amount > 0.0 {
      var i := Find(accounts, ty);
      if i < |accounts| {
        CreditWorth(accounts, i, amount);
      } else {
        AppendWorth(accounts, NewBucket(accounts, ty, amount));
      }
    }
  }

  /** In a one-per-type portfolio the first account of a type is all of it. */
  lemma {:induction false} FoundIsAll(accounts: seq<Account>, ty: AccountType)
    requires OnePerType(accounts)
    ensures var i := Find(accounts, ty);
            BalanceOf(accounts, ty) == if i < |accounts| then accounts[i].balance else 0.0
  {
    hide Times;
    if |accounts| > 0 {
      assert forall j | 0 <= j < |accounts[1..]| :: accounts[1..][j] == accounts[j + 1];
      if accounts[0].accountType == ty {
        NoneOfType(accounts[1..], ty);
      } else {
        FoundIsAll(accounts[1..], ty);
      }
    }
  }

  lemma {:induction false} NoneOfType(accounts: seq<Account>, ty: AccountType)
    requires forall j | 0 <= j < |accounts| :: accounts[j].accountType != ty
    ensures BalanceOf(accounts, ty) == 0.0
  {
    if |accounts| > 0 {
      assert forall j | 0 <= j < |accounts[1..]| :: accounts[1..][j] == accounts[j + 1];
      NoneOfType(accounts[1..], ty);
    }
  }

  /** A draw takes what was asked, up to what the bucket holds, and nothing from any other. */
  lemma DrawConserves(accounts: seq<Account>, ty: AccountType, amount: real)
    requires OnePerType(accounts) && Solvent(accounts)
    ensures var after := Draw(accounts, ty, amount);
            && Worth(after) == Worth(accounts) - DrawnFrom(accounts, ty, amount)
            && OnePerType(after) && Solvent(after)
            && DrawnFrom(accounts, ty, amount) == Min(Pos(amount), BalanceOf(accounts, ty))
            && (forall other :: other != ty ==> BalanceOf(after, other) == BalanceOf(accounts, other))
  {
    FoundIsAll(accounts, ty);
    var i := Find(accounts, ty);
    if amount > 0.0 && i < |accounts| {
      CreditWorth(accounts, i, -DrawnFrom(accounts, ty, amount));
      var after := Draw(accounts, ty, amount);
      forall other | other != ty
        ensures BalanceOf(after, other) == BalanceOf(accounts, other)
      {
        PoolTakesOut(accounts, i, other);
        PoolTakesOut(after, i, other);
        assert after[..i] + after[i + 1..] == accounts[..i] + accounts[i + 1..];
      }
    }
  }

  lemma CreditReaches(accounts: seq<Account>, i: nat, amount: real, ty: AccountType)
    requires i < |accounts|
    ensures BalanceOf(Credit(accounts, i, amount), ty)
         == BalanceOf(accounts, ty) + if accounts[i].accountType == ty then amount else 0.0
  {
    var after := Credit(accounts, i, amount);
    PoolTakesOut(accounts, i, ty);
    PoolTakesOut(after, i, ty);
    assert after[..i] + after[i + 1..] == accounts[..i] + accounts[i + 1..];
    hide PoolOf;
  }

  lemma {:induction false} AppendReaches(accounts: seq<Account>, a: Account, ty: AccountType)
    ensures BalanceOf(accounts + [a], ty) == BalanceOf(accounts, ty) + if a.accountType == ty then a.balance else 0.0
  {
    PoolJoins(accounts, [a], ty);
    PoolOfOne(a, ty);
    hide PoolOf;
  }

  lemma PoolOfOne(a: Account, ty: AccountType)
    ensures PoolOf([a], ty) == Share(a, ty)
  {
    assert [a][1..] == [];
    assert PoolOf([], ty) == Pool(0.0, 0.0, 0.0, 0);
  }

  /** A deposit reaches its own bucket, whole, and no other. */
  lemma DepositReaches(accounts: seq<Account>, ty: AccountType, amount: real, other: AccountType)
    ensures BalanceOf(Deposit(accounts, ty, amount), other)
         == BalanceOf(accounts, other) + if other == ty then Pos(amount) else 0.0
  {
    hide BalanceOf;
    hide Credit;
    hide WeightedWorth;
    hide Worth;
    var i := Find(accounts, ty);
    if amount > 0.0 {
      if i < |accounts| {
        CreditReaches(accounts, i, amount, other);
      } else {
        AppendReaches(accounts, NewBucket(accounts, ty, amount), other);
      }
    }
  }

  /** A draw leaves its own bucket, as far as that reaches, and no other. */
  lemma DrawReaches(accounts: seq<Account>, ty: AccountType, amount: real, other: AccountType)
    requires OnePerType(accounts) && Solvent(accounts)
    ensures BalanceOf(Draw(accounts, ty, amount), other)
         == BalanceOf(accounts, other) - if other == ty then Min(Pos(amount), BalanceOf(accounts, ty)) else 0.0
  {
    var i := Find(accounts, ty);
    FoundIsAll(accounts, ty);
    if amount > 0.0 && i < |accounts| {
      CreditReaches(accounts, i, -DrawnFrom(accounts, ty, amount), other);
    }
    hide PoolOf;
  }

  // ---- The collapse as a loop ------------------------------------------------

  /** One bucket per type that has members, in the fixed order. */
  method CollapseAccounts(accounts: seq<Account>) returns (buckets: seq<Account>)
    ensures buckets == ToBuckets(accounts)
  {
    hide PoolOf;
    hide Bucket;
    hide BucketsFor;
    var order := BUCKET_ORDER;
    buckets := [];
    assert order[0..] == order && order[|order|..] == [];
    NoBuckets(accounts);
    assert ToBuckets(accounts) == BucketsFor(order, accounts);
    for i := 0 to |order|
      invariant BucketsFor(order, accounts) == buckets + BucketsFor(order[i..], accounts)
    {
      BucketsSplit(order, i, accounts);
      var pool := PoolOf(accounts, order[i]);
      if pool.count > 0 {
        buckets := buckets + [Bucket(order[i], pool)];
      }
    }
  }

  lemma NoBuckets(accounts: seq<Account>)
    ensures BucketsFor([], accounts) == []
  {
  }

  lemma BucketsSplit(order: seq<AccountType>, i: nat, accounts: seq<Account>)
    requires i < |order|
    ensures var pool := PoolOf(accounts, order[i]);
            BucketsFor(order[i..], accounts)
            == (if pool.count == 0 then [] else [Bucket(order[i], pool)]) + BucketsFor(order[i + 1..], accounts)
  {
    hide PoolOf;
    hide Bucket;
    assert order[i..][1..] == order[i + 1..];
  }
}
