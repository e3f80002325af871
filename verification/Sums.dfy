/** Sums of a measure over the elements of a sequence. */
module Sums {

  function Sum<T>(s: seq<T>, f: T -> int): int {
    if s == [] then 0 else Sum(s[..|s| - 1], f) + f(s[|s| - 1])
  }

  lemma {:induction false} SumUpdate<T>(s: seq<T>, i: nat, x: T, f: T -> int)
    requires i < |s|
    ensures Sum(s[i := x], f) == Sum(s, f) - f(s[i]) + f(x)
  {
    var k := |s| - 1;
    if i == k {
      assert s[i := x][..k] == s[..k];
    } else {
      assert s[i := x][..k] == s[..k][i := x];
      SumUpdate(s[..k], i, x, f);
    }
  }

  lemma {:induction false} SumBelow<T>(a: seq<T>, f: T -> int, b: seq<T>, g: T -> int)
    requires |a| == |b| && forall i :: 0 <= i < |a| ==> f(a[i]) <= g(b[i])
    ensures Sum(a, f) <= Sum(b, g)
  {
    if a != [] {
      SumBelow(a[..|a| - 1], f, b[..|b| - 1], g);
    }
  }

  lemma {:induction false} SumStrictlyBelow<T>(s: seq<T>, f: T -> int, g: T -> int, i: nat)
    requires i < |s| && f(s[i]) < g(s[i])
    requires forall j :: 0 <= j < |s| ==> f(s[j]) <= g(s[j])
    ensures Sum(s, f) < Sum(s, g)
  {
    var k := |s| - 1;
    if i < k {
      SumStrictlyBelow(s[..k], f, g, i);
    } else {
      SumBelow(s[..k], f, s[..k], g);
    }
  }

  lemma {:induction false} SumIsNatural<T>(s: seq<T>, f: T -> int)
    requires forall i :: 0 <= i < |s| ==> f(s[i]) >= 0
    ensures Sum(s, f) >= 0
  {
    if s != [] {
      SumIsNatural(s[..|s| - 1], f);
    }
  }
}
