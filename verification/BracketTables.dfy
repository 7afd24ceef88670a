// Bracket tables, the two loops that read them, and what the loops compute: the
// area under the marginal-rate step function.
module BracketTables {
  import opened Options
  import opened Reals

  datatype Bracket = Bracket(min: real, max: Option<real>, rate: real)

  /** Each bracket starts where the previous one ends; only the last is open. */
  predicate Chained(t: seq<Bracket>) {
    && |t| > 0
    && t[|t| - 1].max == None
    && forall i | 0 <= i < |t| - 1 :: Abut(t[i], t[i + 1])
  }

  predicate Abut(lower: Bracket, upper: Bracket) {
    lower.max == Some(upper.min) && lower.min < upper.min
  }

  predicate WellFormed(t: seq<Bracket>) {
    && Chained(t)
    && t[0].min == 0.0
    && (forall i | 0 <= i < |t| :: 0.0 <= t[i].rate)
  }

  predicate Progressive(t: seq<Bracket>) {
    forall i | 0 <= i < |t| - 1 :: t[i].rate <= t[i + 1].rate
  }

  /** How much of a bracket lies below `x`. */
  function Covered(b: Bracket, x: real): real {
    Pos((if b.max.Some? then Min(b.max.value, x) else x) - b.min)
  }

  /** The integral of the marginal rates from the bottom of the table up to `x`. */
  function TaxBelow(t: seq<Bracket>, x: real): real {
    if |t| == 0 then 0.0 else Times(t[0].rate, Covered(t[0], x)) + TaxBelow(t[1..], x)
  }

  lemma ChainedTail(t: seq<Bracket>)
    requires Chained(t) && |t| > 1
    ensures Chained(t[1..])
  {
    var u := t[1..];
    forall i | 0 <= i < |u| - 1
      ensures Abut(u[i], u[i + 1])
    {
      assert u[i] == t[i + 1] && u[i + 1] == t[i + 2];
    }
  }

  /** Nothing at or under the bottom of a table is taxed. */
  lemma {:induction false} NothingBelow(t: seq<Bracket>, x: real)
    requires Chained(t) && x <= t[0].min
    ensures TaxBelow(t, x) == 0.0
  {
    hide Times;
    TimesZero(t[0].rate);
    if |t| > 1 {
      ChainedTail(t);
      assert Abut(t[0], t[1]);
      NothingBelow(t[1..], x);
    }
  }

  /** Inside its bottom bracket a table is linear. */
  lemma WithinBottom(t: seq<Bracket>, x: real)
    requires Chained(t) && t[0].min <= x && (t[0].max.Some? ==> x <= t[0].max.value)
    ensures TaxBelow(t, x) == Times(t[0].rate, x - t[0].min)
  {
    hide Times;
    TimesZero(t[0].rate);
    if |t| > 1 {
      ChainedTail(t);
      assert Abut(t[0], t[1]);
      NothingBelow(t[1..], x);
    }
  }

  /** Inside bracket `i` the tax moves at bracket `i`'s rate. */
  lemma {:induction false} WithinBracket(t: seq<Bracket>, i: nat, a: real, b: real)
    requires Chained(t) && i < |t|
    requires t[i].min <= a <= b && (t[i].max.Some? ==> b <= t[i].max.value)
    ensures TaxBelow(t, b) - TaxBelow(t, a) == Times(t[i].rate, b - a)
    decreases i
  {
    hide Times;
    if i == 0 {
      WithinBottom(t, a);
      WithinBottom(t, b);
      TimesDiff(t[0].rate, b - t[0].min, a - t[0].min);
    } else {
      ChainedTail(t);
      BottomIsLowest(t, i);
      WithinBracket(t[1..], i - 1, a, b);
    }
  }

  /** Bracket bottoms rise, so a later bracket starts past the first one's top. */
  lemma {:induction false} BottomIsLowest(t: seq<Bracket>, i: nat)
    requires Chained(t) && 0 < i < |t|
    ensures t[0].min < t[i].min && t[0].max.Some? && t[0].max.value <= t[i].min
    decreases i
  {
    assert Abut(t[i - 1], t[i]);
    if i > 1 {
      BottomIsLowest(t, i - 1);
    }
  }

  // ---- Slopes --------------------------------------------------------------

  /** No interval is taxed at more than the highest rate that starts below it. */
  lemma {:induction false} SlopeAtMost(t: seq<Bracket>, x: real, y: real, hi: real)
    requires Chained(t) && x <= y && 0.0 <= hi
    requires forall i | 0 <= i < |t| :: t[i].min < y ==> 0.0 <= t[i].rate <= hi
    ensures TaxBelow(t, y) - TaxBelow(t, x) <= Times(hi, Pos(y - t[0].min) - Pos(x - t[0].min))
  {
    hide Times;
    var bottom := Pos(y - t[0].min) - Pos(x - t[0].min);
    if |t| == 1 {
      RiseAtMost(t[0].rate, hi, Covered(t[0], x), Covered(t[0], y), bottom, 0.0);
    } else {
      ChainedTail(t);
      assert forall i | 0 <= i < |t[1..]| :: t[1..][i] == t[i + 1];
      SlopeAtMost(t[1..], x, y, hi);
      RiseAtMost(t[0].rate, hi, Covered(t[0], x), Covered(t[0], y),
                 bottom, Pos(y - t[1].min) - Pos(x - t[1].min));
    }
  }

  lemma RiseAtMost(rate: real, hi: real, below: real, above: real, bottom: real, rest: real)
    requires below <= above && above - below == bottom - rest
    requires below < above ==> 0.0 <= rate <= hi
    ensures Times(rate, above) - Times(rate, below) <= Times(hi, bottom) - Times(hi, rest)
    ensures Times(hi, 0.0) == 0.0
  {
    hide Times;
    TimesDiff(rate, above, below);
    TimesDiff(hi, bottom, rest);
    TimesZero(hi);
    TimesZero(rate);
    if below < above {
      TimesMono(above - below, rate, hi);
      TimesSwap(above - below, rate);
      TimesSwap(above - below, hi);
    }
  }

  /** The tax on more income is at least the tax on less. */
  lemma {:induction false} NeverFalls(t: seq<Bracket>, x: real, y: real)
    requires x <= y && forall i | 0 <= i < |t| :: 0.0 <= t[i].rate
    ensures TaxBelow(t, x) <= TaxBelow(t, y)
  {
    if |t| > 0 {
      hide Times;
      TimesMono(t[0].rate, Covered(t[0], x), Covered(t[0], y));
      assert forall i | 0 <= i < |t[1..]| :: t[1..][i] == t[i + 1];
      NeverFalls(t[1..], x, y);
    }
  }

  /** A table whose bottom rate is positive taxes exactly the incomes above its bottom. */
  lemma TaxedExactlyAboveBottom(t: seq<Bracket>, x: real)
    requires WellFormed(t) && 0.0 < t[0].rate
    ensures TaxBelow(t, x) > 0.0 <==> x > 0.0
  {
    if x <= 0.0 {
      NothingBelow(t, x);
    } else {
      var top := if |t| > 1 then t[1].min else x;
      assert |t| > 1 ==> Abut(t[0], t[1]);
      var low := Min(x, top);
      WithinBottom(t, low);
      NeverFalls(t, low, x);
      assert 0.0 < t[0].rate * low;
      hide TaxBelow;
    }
  }

  /** The same integral as hinges: `rate - below` switched on at each bottom. */
  function Hinges(t: seq<Bracket>, below: real, x: real): real {
    if |t| == 0 then 0.0
    else Times(t[0].rate - below, Pos(x - t[0].min)) + Hinges(t[1..], t[0].rate, x)
  }

  lemma {:induction false} AreaIsHinges(t: seq<Bracket>, below: real, x: real)
    requires Chained(t)
    ensures TaxBelow(t, x) == Hinges(t, below, x) + Times(below, Pos(x - t[0].min))
  {
    hide Times;
    TimesDiff(Pos(x - t[0].min), t[0].rate, below);
    if |t| > 1 {
      ChainedTail(t);
      AreaIsHinges(t[1..], t[0].rate, x);
      TimesDiff(t[0].rate, Pos(x - t[0].min), Pos(x - t[1].min));
      assert Abut(t[0], t[1]);
    }
  }

  lemma {:induction false} HingesConvex(t: seq<Bracket>, below: real, x: real, u: real, d: real)
    requires Progressive(t) && (|t| > 0 ==> below <= t[0].rate)
    requires x <= u && 0.0 <= d
    ensures Hinges(t, below, x + d) - Hinges(t, below, x) <= Hinges(t, below, u + d) - Hinges(t, below, u)
  {
    if |t| > 0 {
      hide Times;
      var k := t[0].rate - below;
      HingeConvex(k, Pos(x + d - t[0].min), Pos(x - t[0].min), Pos(u + d - t[0].min), Pos(u - t[0].min));
      forall i | 0 <= i < |t[1..]| - 1
        ensures t[1..][i].rate <= t[1..][i + 1].rate
      {
        assert t[1..][i] == t[i + 1] && t[1..][i + 1] == t[i + 2];
      }
      HingesConvex(t[1..], t[0].rate, x, u, d);
    }
  }

  lemma HingeConvex(k: real, xd: real, x: real, ud: real, u: real)
    requires 0.0 <= k && xd - x <= ud - u
    ensures Times(k, xd) - Times(k, x) <= Times(k, ud) - Times(k, u)
  {
    TimesMono(k, xd - x, ud - u);
    TimesDiff(k, xd, x);
    TimesDiff(k, ud, u);
  }

  /** In a progressive table the same raise costs at least as much higher up. */
  lemma Convex(t: seq<Bracket>, x: real, u: real, d: real)
    requires WellFormed(t) && Progressive(t) && x <= u && 0.0 <= d
    ensures TaxBelow(t, x + d) - TaxBelow(t, x) <= TaxBelow(t, u + d) - TaxBelow(t, u)
  {
    hide Times;
    TimesZero(Pos(x - t[0].min));
    TimesZero(Pos(x + d - t[0].min));
    TimesZero(Pos(u - t[0].min));
    TimesZero(Pos(u + d - t[0].min));
    AreaIsHinges(t, 0.0, x);
    AreaIsHinges(t, 0.0, x + d);
    AreaIsHinges(t, 0.0, u);
    AreaIsHinges(t, 0.0, u + d);
    HingesConvex(t, 0.0, x, u, d);
  }

  // ---- One table against another -------------------------------------------

  /** Two brackets share an interval of positive length. */
  predicate Overlap(a: Bracket, b: Bracket) {
    && (a.max.Some? ==> b.min < a.max.value)
    && (b.max.Some? ==> a.min < b.max.value)
  }

  /** Wherever a bracket of `p` meets one of `g`, it is at most `k` dearer. */
  predicate DearerByAtMost(p: seq<Bracket>, g: seq<Bracket>, k: real) {
    forall i, j | 0 <= i < |p| && 0 <= j < |g| && Overlap(p[i], g[j]) :: p[i].rate - g[j].rate <= k
  }

  /**
   * Walking both tables together, cell by cell: the tax in `p` outgrows the tax
   * in `g` by at most `k` on the dollar.
   */
  lemma {:induction false} OutgrowsByAtMost(p: seq<Bracket>, g: seq<Bracket>, k: real, x: real, y: real)
    requires Chained(p) && Chained(g) && DearerByAtMost(p, g, k)
    requires p[0].min <= x && g[0].min <= x && x <= y
    ensures (TaxBelow(p, y) - TaxBelow(p, x)) - (TaxBelow(g, y) - TaxBelow(g, x)) <= Times(k, y - x)
    decreases |p| + |g|
  {
    hide Times;
    assert |p| > 1 ==> Abut(p[0], p[1]);
    assert |g| > 1 ==> Abut(g[0], g[1]);
    if |p| > 1 && p[0].max.value <= x {
      DropBottom(p, x, y);
      DearerTail(p, g, k);
      OutgrowsByAtMost(p[1..], g, k, x, y);
    } else if |g| > 1 && g[0].max.value <= x {
      DropBottom(g, x, y);
      DearerTail(p, g, k);
      OutgrowsByAtMost(p, g[1..], k, x, y);
    } else {
      var e := Min(y, Min(Top(p, y), Top(g, y)));
      OneCell(p, g, k, x, e);
      if e < y {
        DearerTail(p, g, k);
        if |p| > 1 && e == p[0].max.value {
          DropBottom(p, e, y);
          OutgrowsByAtMost(p[1..], g, k, e, y);
        } else {
          DropBottom(g, e, y);
          OutgrowsByAtMost(p, g[1..], k, e, y);
        }
        TimesSum(k, e - x, y - e);
      }
    }
  }

  function Top(t: seq<Bracket>, y: real): real
    requires |t| > 0
  {
    if t[0].max.Some? then t[0].max.value else y
  }

  /** One cell where both tables stay in their bottom bracket. */
  lemma OneCell(p: seq<Bracket>, g: seq<Bracket>, k: real, x: real, e: real)
    requires Chained(p) && Chained(g) && DearerByAtMost(p, g, k)
    requires p[0].min <= x <= e && g[0].min <= x
    requires p[0].max.Some? ==> x < p[0].max.value && e <= p[0].max.value
    requires g[0].max.Some? ==> x < g[0].max.value && e <= g[0].max.value
    ensures (TaxBelow(p, e) - TaxBelow(p, x)) - (TaxBelow(g, e) - TaxBelow(g, x)) <= Times(k, e - x)
  {
    hide Times;
    WithinBracket(p, 0, x, e);
    WithinBracket(g, 0, x, e);
    assert Overlap(p[0], g[0]);
    RateGap(e - x, p[0].rate, g[0].rate, k);
  }

  lemma RateGap(d: real, p: real, g: real, k: real)
    requires 0.0 <= d && p - g <= k
    ensures Times(p, d) - Times(g, d) <= Times(k, d)
  {
    TimesMono(d, p - g, k);
  }

  lemma DropBottom(t: seq<Bracket>, x: real, y: real)
    requires Chained(t) && |t| > 1 && t[1].min <= x <= y
    ensures Chained(t[1..]) && t[1..][0].min <= x
    ensures TaxBelow(t, y) - TaxBelow(t, x) == TaxBelow(t[1..], y) - TaxBelow(t[1..], x)
  {
    hide Times;
    assert Abut(t[0], t[1]);
    ChainedTail(t);
  }

  lemma DearerTail(p: seq<Bracket>, g: seq<Bracket>, k: real)
    requires DearerByAtMost(p, g, k)
    ensures |p| > 0 ==> DearerByAtMost(p[1..], g, k)
    ensures |g| > 0 ==> DearerByAtMost(p, g[1..], k)
  {
    if |p| > 0 {
      forall i, j | 0 <= i < |p[1..]| && 0 <= j < |g| && Overlap(p[1..][i], g[j])
        ensures p[1..][i].rate - g[j].rate <= k
      {
        assert p[1..][i] == p[i + 1];
      }
    }
    if |g| > 0 {
      forall i, j | 0 <= i < |p| && 0 <= j < |g[1..]| && Overlap(p[i], g[1..][j])
        ensures p[i].rate - g[1..][j].rate <= k
      {
        assert g[1..][j] == g[j + 1];
      }
    }
  }

  // ---- The two loops -------------------------------------------------------

  lemma {:induction false} TaxSplits(t: seq<Bracket>, i: nat, x: real)
    requires i < |t|
    ensures TaxBelow(t[i..], x) == Times(t[i].rate, Covered(t[i], x)) + TaxBelow(t[i + 1..], x)
  {
    assert t[i..][1..] == t[i + 1..];
  }

  lemma {:induction false} ChainedFrom(t: seq<Bracket>, i: nat)
    requires Chained(t) && i < |t|
    ensures Chained(t[i..])
  {
    if i == 0 {
      assert t[0..] == t;
    } else {
      ChainedFrom(t, i - 1);
      ChainedTail(t[i - 1..]);
      assert t[i - 1..][1..] == t[i..];
    }
  }

  /** Fill brackets from the bottom until the income runs out. */
  method CalculateProgressiveTax(income: real, brackets: seq<Bracket>) returns (tax: real)
    requires WellFormed(brackets)
    ensures tax == TaxBelow(brackets, income)
  {
    hide Times;
    tax := 0.0;
    var remainingIncome := income;
    if income <= 0.0 {
      NothingBelow(brackets, income);
    }
    assert brackets[0..] == brackets;
    var i := 0;
    while i < |brackets| && remainingIncome > 0.0
      invariant 0 <= i <= |brackets|
      invariant tax + TaxBelow(brackets[i..], income) == TaxBelow(brackets, income)
      invariant remainingIncome > 0.0 && i < |brackets| ==> remainingIncome == income - brackets[i].min
      invariant remainingIncome <= 0.0 || i == |brackets| ==> TaxBelow(brackets[i..], income) == 0.0
    {
      var bracket := brackets[i];
      TaxSplits(brackets, i, income);
      var taxableInBracket := if bracket.max.Some? then Min(remainingIncome, bracket.max.value - bracket.min)
                              else remainingIncome;
      if taxableInBracket > 0.0 {
        tax := tax + Times(bracket.rate, taxableInBracket);
        remainingIncome := remainingIncome - taxableInBracket;
      }
      i := i + 1;
      if i < |brackets| && remainingIncome <= 0.0 {
        ChainedFrom(brackets, i);
        NothingBelow(brackets[i..], income);
      }
    }
  }

  /** Stack a gain on top of ordinary income and fill what is left of each bracket. */
  method CalculateLtcgTax(ordinaryTaxableIncome: real, ltcgIncome: real, brackets: seq<Bracket>)
    returns (tax: real)
    requires WellFormed(brackets) && 0.0 <= ordinaryTaxableIncome
    ensures tax == TaxBelow(brackets, ordinaryTaxableIncome + Pos(ltcgIncome)) - TaxBelow(brackets, ordinaryTaxableIncome)
  {
    if ltcgIncome <= 0.0 {
      return 0.0;
    }
    hide Times;
    tax := 0.0;
    var remainingLtcg := ltcgIncome;
    var currentThreshold := ordinaryTaxableIncome;
    var i := 0;
    while i < |brackets| && remainingLtcg > 0.0
      invariant 0 <= i <= |brackets|
      invariant 0.0 <= remainingLtcg && currentThreshold + remainingLtcg == ordinaryTaxableIncome + ltcgIncome
      invariant tax == TaxBelow(brackets, currentThreshold) - TaxBelow(brackets, ordinaryTaxableIncome)
      invariant remainingLtcg > 0.0 ==> i < |brackets| && brackets[i].min <= currentThreshold
    {
      var bracket := brackets[i];
      if bracket.max.None? || currentThreshold < bracket.max.value {
        var applicable := if bracket.max.Some?
                          then Min(remainingLtcg, bracket.max.value - Max(currentThreshold, bracket.min))
                          else remainingLtcg;
        if applicable > 0.0 {
          WithinBracket(brackets, i, currentThreshold, currentThreshold + applicable);
          tax := tax + Times(bracket.rate, applicable);
          remainingLtcg := remainingLtcg - applicable;
          currentThreshold := currentThreshold + applicable;
        }
      }
      i := i + 1;
    }
  }
}
