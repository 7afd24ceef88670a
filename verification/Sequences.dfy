// What a rearranged sequence keeps.
module Sequences {

  /** Two arrangements of the same elements stay so when the same element leaves both. */
  lemma SameWithout<T>(a: seq<T>, b: seq<T>, k: nat)
    requires |a| > 0 && k < |b| && a[0] == b[k] && multiset(a) == multiset(b)
    ensures multiset(a[1..]) == multiset(b[..k] + b[k + 1..])
  {
    assert a == [a[0]] + a[1..];
    assert b == b[..k] + [b[k]] + b[k + 1..];
    assert multiset(a[1..]) == multiset(a) - multiset{a[0]};
    assert multiset(b[..k] + b[k + 1..]) == multiset(b) - multiset{a[0]};
  }

  /** The first element of one arrangement is somewhere in the other. */
  lemma FirstIsSomewhere<T>(a: seq<T>, b: seq<T>) returns (k: nat)
    requires |a| > 0 && multiset(a) == multiset(b)
    ensures k < |b| && b[k] == a[0] && multiset(a[1..]) == multiset(b[..k] + b[k + 1..])
  {
    assert a[0] in multiset(b);
    k :| 0 <= k < |b| && b[k] == a[0];
    SameWithout(a, b, k);
  }
}
