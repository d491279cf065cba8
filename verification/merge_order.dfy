// The order in which the merge thread picks tokens from its two input streams
// (merge in prod-cons.c), as mathematics: no threads, no buffers.
module MergeOrder {

  // An input that never runs dry: the value of its k-th token, counted from 0.
  type Source = nat -> int

  predicate Rises(f: Source, i: nat) {
    f(i) <= f(i + 1)
  }

  ghost predicate Nondecreasing(f: Source) {
    forall i: nat :: Rises(f, i)
  }

  lemma {:induction false} NondecreasingFrom(f: Source, i: nat, m: nat)
    requires Nondecreasing(f) && i <= m
    ensures f(i) <= f(m)
  {
    if i < m {
      NondecreasingFrom(f, i, m - 1);
      assert Rises(f, m - 1);
    }
  }

  predicate Sorted(s: seq<int>) {
    forall i, j | 0 <= i < j < |s| :: s[i] <= s[j]
  }

  // The first n tokens of a source.
  function Take(f: Source, n: nat): (s: seq<int>)
    ensures |s| == n
    ensures forall k {:trigger s[k]} | 0 <= k < n :: s[k] == f(k)
  {
    seq(n, k requires 0 <= k => f(k))
  }

  // How many tokens of s1 and of s2 are among the first k put out by the loop:
  // the token of s1 goes first only when it is strictly smaller.
  function Picks(f: Source, g: Source, k: nat): (p: (nat, nat))
    ensures p.0 + p.1 == k
  {
    if k == 0 then (0, 0) else
    var (i, j) := Picks(f, g, k - 1);
    if f(i) < g(j) then (i + 1, j) else (i, j + 1)
  }

  // The k-th token put out.
  function Merged(f: Source, g: Source, k: nat): int {
    var (i, j) := Picks(f, g, k);
    if f(i) < g(j) then f(i) else g(j)
  }

  function Output(f: Source, g: Source, k: nat): (s: seq<int>)
    ensures |s| == k
    ensures forall n {:trigger s[n]} | 0 <= n < k :: s[n] == Merged(f, g, n)
  {
    seq(k, n requires 0 <= n => Merged(f, g, n))
  }

  // The tokens of out whose mark is b, in order.
  function Sift(out: seq<int>, marks: seq<bool>, b: bool): seq<int>
    requires |out| == |marks|
    decreases |out|
  {
    if out == [] then [] else
    var n := |out| - 1;
    var rest := Sift(out[..n], marks[..n], b);
    if marks[n] == b then rest + [out[n]] else rest
  }

  // out consists of xs and ys, each in its own order.
  ghost predicate Interleaves(out: seq<int>, xs: seq<int>, ys: seq<int>) {
    exists marks: seq<bool> | |marks| == |out| :: Sift(out, marks, true) == xs && Sift(out, marks, false) == ys
  }

  lemma SiftGrows(out: seq<int>, marks: seq<bool>, v: int, m: bool, b: bool)
    requires |out| == |marks|
    ensures Sift(out + [v], marks + [m], b) == if m == b then Sift(out, marks, b) + [v] else Sift(out, marks, b)
  {
    assert (out + [v])[..|out|] == out && (marks + [m])[..|out|] == marks;
  }

  // One round of the loop: the smaller of x and y is put out.
  lemma InterleavesGrows(out: seq<int>, xs: seq<int>, ys: seq<int>, x: int, y: int,
                         out': seq<int>, xs': seq<int>, ys': seq<int>)
    requires Interleaves(out, xs, ys)
    requires if x < y then out' == out + [x] && xs' == xs + [x] && ys' == ys
             else out' == out + [y] && xs' == xs && ys' == ys + [y]
    ensures Interleaves(out', xs', ys')
  {
    var marks: seq<bool> :| |marks| == |out| && Sift(out, marks, true) == xs && Sift(out, marks, false) == ys;
    var v := if x < y then x else y;
    SiftGrows(out, marks, v, x < y, true);
    SiftGrows(out, marks, v, x < y, false);
    assert |marks + [x < y]| == |out'|;
  }

  lemma NothingInterleaves()
    ensures Interleaves([], [], [])
  {
    assert Sift([], [], true) == [] == Sift([], [], false);
  }

  lemma {:induction false} SiftKeepsTokens(out: seq<int>, marks: seq<bool>, v: int)
    requires |out| == |marks|
    ensures multiset(Sift(out, marks, true))[v] + multiset(Sift(out, marks, false))[v] == multiset(out)[v]
    decreases |out|
  {
    if out != [] {
      var n := |out| - 1;
      SiftKeepsTokens(out[..n], marks[..n], v);
      assert out == out[..n] + [out[n]];
      CountAppended(out[..n], out[n], v);
      CountAppended(Sift(out[..n], marks[..n], marks[n]), out[n], v);
    }
  }

  lemma CountAppended(s: seq<int>, x: int, v: int)
    ensures multiset(s + [x])[v] == multiset(s)[v] + if x == v then 1 else 0
  {
  }

  lemma InterleavesKeepsTokens(out: seq<int>, xs: seq<int>, ys: seq<int>)
    requires Interleaves(out, xs, ys)
    ensures multiset(out) == multiset(xs) + multiset(ys)
  {
    var marks: seq<bool> :| |marks| == |out| && Sift(out, marks, true) == xs && Sift(out, marks, false) == ys;
    forall v ensures multiset(xs)[v] + multiset(ys)[v] == multiset(out)[v] {
      SiftKeepsTokens(out, marks, v);
    }
  }

  lemma OutputGrows(f: Source, g: Source, k: nat, i: nat, j: nat)
    requires Picks(f, g, k) == (i, j)
    ensures Picks(f, g, k + 1) == if f(i) < g(j) then (i + 1, j) else (i, j + 1)
    ensures Output(f, g, k + 1) == Output(f, g, k) + [if f(i) < g(j) then f(i) else g(j)]
  {
  }

  lemma TakeGrows(f: Source, i: nat)
    ensures Take(f, i + 1) == Take(f, i) + [f(i)]
  {
  }

  lemma OutputRound(f: Source, g: Source, k: nat)
    requires Interleaves(Output(f, g, k), Take(f, Picks(f, g, k).0), Take(g, Picks(f, g, k).1))
    ensures Interleaves(Output(f, g, k + 1), Take(f, Picks(f, g, k + 1).0), Take(g, Picks(f, g, k + 1).1))
  {
    var (a, b) := Picks(f, g, k);
    var (i, j) := Picks(f, g, k + 1);
    OutputGrows(f, g, k, a, b);
    TakeGrows(f, a);
    TakeGrows(g, b);
    InterleavesGrows(Output(f, g, k), Take(f, a), Take(g, b), f(a), g(b), Output(f, g, k + 1), Take(f, i), Take(g, j));
  }

  // The output is an order-preserving interleaving of what was picked.
  lemma {:induction false} OutputInterleaves(f: Source, g: Source, k: nat)
    ensures Interleaves(Output(f, g, k), Take(f, Picks(f, g, k).0), Take(g, Picks(f, g, k).1))
  {
    if k == 0 {
      NothingInterleaves();
      assert Output(f, g, 0) == [] && Take(f, 0) == [] && Take(g, 0) == [];
    } else {
      OutputInterleaves(f, g, k - 1);
      OutputRound(f, g, k - 1);
    }
  }

  lemma HeadsRise(f: Source, g: Source, k: nat, i: nat, j: nat)
    requires Picks(f, g, k) == (i, j) && Rises(f, i) && Rises(g, j)
    ensures f(i) <= f(Picks(f, g, k + 1).0) && Merged(f, g, k) <= f(Picks(f, g, k + 1).0)
    ensures g(j) <= g(Picks(f, g, k + 1).1) && Merged(f, g, k) <= g(Picks(f, g, k + 1).1)
  {
  }

  // Whatever was put out is no larger than either token that comes next.
  lemma {:induction false} OutputBelowHeads(f: Source, g: Source, k: nat, n: nat)
    requires Nondecreasing(f) && Nondecreasing(g)
    requires n < k
    ensures Merged(f, g, n) <= f(Picks(f, g, k).0)
    ensures Merged(f, g, n) <= g(Picks(f, g, k).1)
    decreases k
  {
    var (i, j) := Picks(f, g, k - 1);
    HeadsRise(f, g, k - 1, i, j);
    if n < k - 1 {
      OutputBelowHeads(f, g, k - 1, n);
    }
  }

  // For nondecreasing inputs the output is sorted at every point, and is
  // exactly the k smallest tokens: all that is left over is at least as large.
  lemma OutputIsSortedMerge(f: Source, g: Source, k: nat)
    requires Nondecreasing(f) && Nondecreasing(g)
    ensures Sorted(Output(f, g, k))
    ensures forall n, m | 0 <= n < k && Picks(f, g, k).0 <= m :: Output(f, g, k)[n] <= f(m)
    ensures forall n, m | 0 <= n < k && Picks(f, g, k).1 <= m :: Output(f, g, k)[n] <= g(m)
  {
    forall n, m | 0 <= n < m < k ensures Merged(f, g, n) <= Merged(f, g, m) {
      OutputBelowHeads(f, g, m, n);
    }
    var (i, j) := Picks(f, g, k);
    forall n, m | 0 <= n < k && i <= m ensures Merged(f, g, n) <= f(m) {
      OutputBelowHeads(f, g, k, n);
      NondecreasingFrom(f, i, m);
    }
    forall n, m | 0 <= n < k && j <= m ensures Merged(f, g, n) <= g(m) {
      OutputBelowHeads(f, g, k, n);
      NondecreasingFrom(g, j, m);
    }
  }

  lemma {:induction false} PicksMonotone(f: Source, g: Source, k: nat, m: nat)
    requires k <= m
    ensures Picks(f, g, k).0 <= Picks(f, g, m).0
    ensures Picks(f, g, k).1 <= Picks(f, g, m).1
    decreases m
  {
    if k < m {
      PicksMonotone(f, g, k, m - 1);
    }
  }

  // The merge loop itself, fed the first n1 tokens of s1 and n2 tokens of s2,
  // until the next get would block. x and y count the gets that returned, and
  // a and b are the tokens they returned last; inHandA and inHandB tell
  // whether those are still to be put.
  method MergeLoop(f: Source, g: Source, n1: nat, n2: nat)
    returns (out: seq<int>, x: nat, y: nat, a: int, b: int, inHandA: bool, inHandB: bool)
    ensures x <= n1 && y <= n2 && (inHandA ==> x > 0 && a == f(x - 1)) && (inHandB ==> y > 0 && b == g(y - 1))
    ensures if inHandA then !inHandB && y == n2 else x == n1
    ensures out == Output(f, g, |out|)
    ensures Picks(f, g, |out|) == (if inHandA then x - 1 else x, if inHandB then y - 1 else y)
  {
    out, x, y, a, b, inHandA, inHandB := [], 0, 0, 0, 0, false, false;
    if n1 == 0 { return; }
    a, x, inHandA := f(0), 1, true;
    if n2 == 0 { return; }
    b, y, inHandB := g(0), 1, true;
    while true
      invariant 0 < x <= n1 && 0 < y <= n2 && a == f(x - 1) && b == g(y - 1) && inHandA && inHandB
      invariant out == Output(f, g, |out|) && Picks(f, g, |out|) == (x - 1, y - 1)
      decreases n1 + n2 - x - y
    {
      OutputGrows(f, g, |out|, x - 1, y - 1);
      if a < b {
        out, inHandA := out + [a], false;
        if x == n1 { return; }
        a, x, inHandA := f(x), x + 1, true;
      } else {
        out, inHandB := out + [b], false;
        if y == n2 { return; }
        b, y, inHandB := g(y), y + 1, true;
      }
    }
  }

  // ---- The two streams of the network ----

  function Fives(k: nat): int { 5 * (k + 1) }
  function Threes(k: nat): int { 3 * (k + 1) }

  // A definition of the merge that mentions no merging: v is the token number
  // k when exactly the right number of multiples of 3 and of 5 lie below it.
  predicate IsRanked(v: int, k: nat) {
    v / 3 + v / 5 > k && (v - 1) / 3 + (v - 1) / 5 <= k
  }

  lemma {:induction false} HeadsInterlock(k: nat)
    ensures var (i, j) := Picks(Fives, Threes, k);
            5 * i <= Threes(j) && 3 * j <= Fives(i)
  {
    if k > 0 {
      HeadsInterlock(k - 1);
    }
  }

  lemma HeadIsRanked(i: nat, j: nat)
    requires 5 * i <= Threes(j) && 3 * j <= Fives(i)
    ensures IsRanked(if Fives(i) < Threes(j) then Fives(i) else Threes(j), i + j)
  {
    var m := if Fives(i) < Threes(j) then Fives(i) else Threes(j);
    if Fives(i) < Threes(j) {
      assert m / 5 == i + 1 && m / 3 >= j;
    } else {
      assert m / 3 == j + 1 && m / 5 >= i;
    }
  }

  lemma RankRises(m: int, v: int, k: nat)
    requires IsRanked(m, k) && m < v
    ensures !IsRanked(v, k)
  {
    assert m / 3 <= (v - 1) / 3 && m / 5 <= (v - 1) / 5;
  }

  // The merge of the multiples of 5 and of 3 is the ranking, and nothing else is.
  lemma MergedIsRanked(k: nat)
    ensures forall v :: IsRanked(v, k) <==> v == Merged(Fives, Threes, k)
  {
    HeadsInterlock(k);
    var (i, j) := Picks(Fives, Threes, k);
    HeadIsRanked(i, j);
    var m := Merged(Fives, Threes, k);
    forall v ensures IsRanked(v, k) <==> v == m {
      if m < v {
        RankRises(m, v, k);
      } else if v < m && IsRanked(v, k) {
        RankRises(v, m, k);
      }
    }
  }

  lemma NextPick(k: nat, i: nat, j: nat)
    requires Picks(Fives, Threes, k) == (i, j)
    ensures Merged(Fives, Threes, k) == if Fives(i) < Threes(j) then Fives(i) else Threes(j)
    ensures Picks(Fives, Threes, k + 1) == if Fives(i) < Threes(j) then (i + 1, j) else (i, j + 1)
  {
  }

  lemma FirstTen()
    ensures Picks(Fives, Threes, 10) == (4, 6)
    ensures Output(Fives, Threes, 10) == [3, 5, 6, 9, 10, 12, 15, 15, 18, 20]
  {
    NextPick(0, 0, 0);
    NextPick(1, 0, 1);
    NextPick(2, 1, 1);
    NextPick(3, 1, 2);
    NextPick(4, 1, 3);
    NextPick(5, 2, 3);
    NextPick(6, 2, 4);
    NextPick(7, 2, 5);
    NextPick(8, 3, 5);
    NextPick(9, 3, 6);
  }

  // What the first fifteen tokens are and what they are made of.
  lemma FirstFifteen()
    ensures Picks(Fives, Threes, 15) == (5, 10)
    ensures Output(Fives, Threes, 10) == [3, 5, 6, 9, 10, 12, 15, 15, 18, 20]
    ensures Output(Fives, Threes, 15) == Output(Fives, Threes, 10) + [21, 24, 25, 27, 30]
  {
    FirstTen();
    NextPick(10, 4, 6);
    NextPick(11, 4, 7);
    NextPick(12, 4, 8);
    NextPick(13, 5, 8);
    NextPick(14, 5, 9);
  }
}
