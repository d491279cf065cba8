// A row of counts and its sum.
module Tally {

  function Sum(c: seq<nat>): nat {
    if c == [] then 0 else c[0] + Sum(c[1..])
  }

  lemma {:induction false} SumUpdate(c: seq<nat>, p: nat, n: nat)
    requires p < |c|
    ensures Sum(c[p := n]) + c[p] == Sum(c) + n
  {
    if p == 0 {
      assert c[p := n][1..] == c[1..];
    } else {
      assert c[p := n][1..] == c[1..][p - 1 := n];
      SumUpdate(c[1..], p - 1, n);
    }
  }

  lemma {:induction false} SumIncludes(c: seq<nat>, p: nat)
    requires p < |c|
    ensures c[p] <= Sum(c)
  {
    if p > 0 {
      SumIncludes(c[1..], p - 1);
    }
  }

  lemma {:induction false} SumIncludesBoth(c: seq<nat>, p: nat, q: nat)
    requires p < q < |c|
    ensures c[p] + c[q] <= Sum(c)
  {
    if p > 0 {
      SumIncludesBoth(c[1..], p - 1, q - 1);
    } else {
      SumIncludes(c[1..], q - 1);
    }
  }

  lemma {:induction false} SumOfNothing(c: seq<nat>)
    requires forall p | 0 <= p < |c| :: c[p] == 0
    ensures Sum(c) == 0
  {
    if c != [] {
      SumOfNothing(c[1..]);
    }
  }

  lemma {:induction false} SumHasPart(c: seq<nat>) returns (p: nat)
    requires Sum(c) > 0
    ensures p < |c| && c[p] > 0
  {
    if c[0] > 0 {
      p := 0;
    } else {
      var q := SumHasPart(c[1..]);
      p := q + 1;
    }
  }

  // A sum of one is one in a single place.
  lemma SumOfOne(c: seq<nat>) returns (p: nat)
    requires Sum(c) == 1
    ensures p < |c| && c[p] == 1
    ensures forall q | 0 <= q < |c| && q != p :: c[q] == 0
  {
    p := SumHasPart(c);
    SumIncludes(c, p);
    forall q | 0 <= q < |c| && q != p ensures c[q] == 0 {
      SumIncludesBoth(c, if p < q then p else q, if p < q then q else p);
    }
  }
}
