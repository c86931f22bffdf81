/** Smooth weighted round robin on plain numbers: every server gains its weight,
    the first of the heaviest is picked and pays the total. */
module Smooth {
  function Sum(s: seq<int>): int {
    if s == [] then 0 else Sum(s[..|s| - 1]) + s[|s| - 1]
  }

  function Bump(w: seq<int>, c: seq<int>): (b: seq<int>)
    requires |w| == |c|
    ensures |b| == |w|
  {
    seq(|w|, i requires 0 <= i < |w| => c[i] + w[i])
  }

  /** p is the first of the largest numbers of b. */
  predicate IsBest(b: seq<int>, p: nat) {
    && p < |b|
    && (forall j :: 0 <= j < |b| ==> b[j] <= b[p])
    && (forall j :: 0 <= j < p ==> b[j] < b[p])
  }

  lemma BestExists(b: seq<int>)
    requires b != []
    ensures exists p: nat :: IsBest(b, p)
  {
    var n := |b| - 1;
    if n == 0 {
      assert IsBest(b, 0);
    } else {
      BestExists(b[..n]);
      var p: nat :| IsBest(b[..n], p);
      forall j | 0 <= j < n ensures b[j] <= b[p] && (j < p ==> b[j] < b[p]) {
        assert b[..n][j] == b[j] && b[..n][p] == b[p];
      }
      if b[n] > b[p] {
        assert IsBest(b, n);
      } else {
        assert IsBest(b, p);
      }
    }
  }

  lemma BestUnique(b: seq<int>, p: nat, q: nat)
    requires IsBest(b, p) && IsBest(b, q)
    ensures p == q
  {
    assert b[p] <= b[q] && b[q] <= b[p];
  }

  ghost function Choice(w: seq<int>, c: seq<int>): (p: nat)
    requires |w| == |c| > 0
    ensures IsBest(Bump(w, c), p)
  {
    BestExists(Bump(w, c));
    var p: nat :| IsBest(Bump(w, c), p);
    p
  }

  ghost function Step(w: seq<int>, c: seq<int>): (d: seq<int>)
    requires |w| == |c| > 0
    ensures |d| == |w|
  {
    var p := Choice(w, c);
    Bump(w, c)[p := Bump(w, c)[p] - Sum(w)]
  }

  function Zeros(n: nat): (c: seq<int>)
    ensures |c| == n && forall i :: 0 <= i < n ==> c[i] == 0
  {
    if n == 0 then [] else Zeros(n - 1) + [0]
  }

  /** The current weights after n picks, starting from all zero. */
  ghost function After(w: seq<int>, n: nat): (c: seq<int>)
    requires w != []
    ensures |c| == |w|
  {
    if n == 0 then Zeros(|w|) else Step(w, After(w, n - 1))
  }

  /** The first n picks. */
  ghost function Picks(w: seq<int>, n: nat): (ps: seq<nat>)
    requires w != []
    ensures |ps| == n && forall k :: 0 <= k < n ==> ps[k] < |w|
  {
    if n == 0 then [] else Picks(w, n - 1) + [Choice(w, After(w, n - 1))]
  }

  function Count(ps: seq<nat>, i: nat): nat {
    if ps == [] then 0 else Count(ps[..|ps| - 1], i) + if ps[|ps| - 1] == i then 1 else 0
  }

  // ------------------------------------------------------------------- sums

  lemma SumBump(w: seq<int>, c: seq<int>)
    requires |w| == |c|
    ensures Sum(Bump(w, c)) == Sum(w) + Sum(c)
  {
    if w != [] {
      var n := |w| - 1;
      assert Bump(w, c)[..n] == Bump(w[..n], c[..n]);
      SumBump(w[..n], c[..n]);
    }
  }

  lemma SumUpdate(s: seq<int>, i: nat, x: int)
    requires i < |s|
    ensures Sum(s[i := x]) == Sum(s) - s[i] + x
  {
    var n := |s| - 1;
    if i == n {
      assert s[i := x][..n] == s[..n];
    } else {
      assert s[i := x][..n] == s[..n][i := x];
      SumUpdate(s[..n], i, x);
    }
  }

  lemma SumAtMost(s: seq<int>, m: int)
    requires forall i :: 0 <= i < |s| ==> s[i] <= m
    ensures Sum(s) <= |s| * m
  {
    if s != [] {
      SumAtMost(s[..|s| - 1], m);
    }
  }

  lemma SumAtLeast(s: seq<int>, m: int)
    requires forall i :: 0 <= i < |s| ==> s[i] >= m
    ensures Sum(s) >= |s| * m
  {
    if s != [] {
      SumAtLeast(s[..|s| - 1], m);
    }
  }

  lemma SumOfZeros(s: seq<int>)
    requires forall i :: 0 <= i < |s| ==> s[i] == 0
    ensures Sum(s) == 0
  {
    SumAtMost(s, 0);
    SumAtLeast(s, 0);
  }

  lemma ZeroSumOfNonNegatives(s: seq<int>)
    requires Sum(s) == 0 && forall i :: 0 <= i < |s| ==> s[i] >= 0
    ensures forall i :: 0 <= i < |s| ==> s[i] == 0
  {
    if s != [] {
      SumAtLeast(s[..|s| - 1], 0);
      ZeroSumOfNonNegatives(s[..|s| - 1]);
      assert forall i :: 0 <= i < |s| - 1 ==> s[i] == s[..|s| - 1][i];
    }
  }

  // -------------------------------------------------------------- invariants

  ghost predicate NonNegative(w: seq<int>) {
    forall i :: 0 <= i < |w| ==> w[i] >= 0
  }

  /** The current weights always add up to zero, whatever the weights. */
  lemma {:induction false} SumIsZero(w: seq<int>, n: nat)
    requires w != []
    ensures Sum(After(w, n)) == 0
  {
    if n == 0 {
      SumOfZeros(After(w, 0));
    } else {
      var c := After(w, n - 1);
      SumIsZero(w, n - 1);
      SumBump(w, c);
      var p := Choice(w, c);
      SumUpdate(Bump(w, c), p, Bump(w, c)[p] - Sum(w));
    }
  }

  lemma BestIsPositive(b: seq<int>, p: nat)
    requires IsBest(b, p) && Sum(b) > 0
    ensures b[p] > 0
  {
    if b[p] <= 0 {
      SumAtMost(b, 0);
    }
  }

  /** No current weight falls to minus the total. */
  lemma {:induction false} AboveMinusTotal(w: seq<int>, n: nat, i: nat)
    requires NonNegative(w) && Sum(w) > 0 && i < |w|
    ensures After(w, n)[i] > -Sum(w)
  {
    if n > 0 {
      var c := After(w, n - 1);
      AboveMinusTotal(w, n - 1, i);
      SumIsZero(w, n - 1);
      SumBump(w, c);
      BestIsPositive(Bump(w, c), Choice(w, c));
    }
  }

  lemma CountPush(ps: seq<nat>, p: nat, i: nat)
    ensures Count(ps + [p], i) == Count(ps, i) + if p == i then 1 else 0
  {
    assert (ps + [p])[..|ps|] == ps;
  }

  lemma OneMore(n: nat, wi: int, W: int, k: int)
    requires n > 0
    ensures (n - 1) * wi - W * k + wi == n * wi - W * k
    ensures n * wi - W * k - W == n * wi - W * (k + 1)
  {
    assert (n - 1) * wi + wi == n * wi;
    assert W * (k + 1) == W * k + W;
  }

  /** What a server has been granted is what it was picked for and what it still holds. */
  lemma {:induction false} Ledger(w: seq<int>, n: nat, i: nat)
    requires i < |w|
    ensures After(w, n)[i] == n * w[i] - Sum(w) * Count(Picks(w, n), i)
  {
    if n > 0 {
      Ledger(w, n - 1, i);
      CountPush(Picks(w, n - 1), Choice(w, After(w, n - 1)), i);
      OneMore(n, w[i], Sum(w), Count(Picks(w, n - 1), i));
    }
  }

  // ------------------------------------------------------------ main results

  lemma MultipleAboveMinusOne(W: int, k: int)
    requires W > 0 && W * k > -W
    ensures k >= 0
  {
    assert k <= -1 ==> W * k <= -W;
  }

  lemma ZeroProduct(W: int, k: int)
    requires W > 0 && W * k == 0
    ensures k == 0
  {
  }

  lemma Cycle(n: nat, k: nat, W: int, wi: int, c: int, x: int)
    requires W > 0 && n == k * W && x == n * wi - W * c && x > -W
    ensures x == W * (k * wi - c) && x >= 0 && (x == 0 ==> c == k * wi)
  {
    assert n * wi == W * (k * wi);
    assert W * (k * wi - c) == W * (k * wi) - W * c;
    MultipleAboveMinusOne(W, k * wi - c);
    assert x == 0 ==> k * wi - c == 0;
  }

  /** After k whole cycles every server has been picked exactly k times its
      weight, and all current weights are back to zero. */
  lemma CyclesExact(w: seq<int>, k: nat)
    requires NonNegative(w) && Sum(w) > 0
    ensures w != [] && k * Sum(w) >= 0
    ensures forall i :: 0 <= i < |w| ==> After(w, k * Sum(w))[i] == 0 && Count(Picks(w, k * Sum(w)), i) == k * w[i]
  {
    var n: nat := k * Sum(w);
    var c := After(w, n);
    forall i | 0 <= i < |w|
      ensures c[i] >= 0 && (c[i] == 0 ==> Count(Picks(w, n), i) == k * w[i])
    {
      Ledger(w, n, i);
      AboveMinusTotal(w, n, i);
      Cycle(n, k, Sum(w), w[i], Count(Picks(w, n), i), c[i]);
    }
    SumIsZero(w, n);
    ZeroSumOfNonNegatives(c);
  }

  /** For a positive total, one cycle is exact if and only if no weight is negative. */
  lemma CycleExactIff(w: seq<int>)
    requires Sum(w) > 0
    ensures w != []
    ensures (forall i :: 0 <= i < |w| ==> Count(Picks(w, Sum(w)), i) == w[i]) <==> NonNegative(w)
  {
    if NonNegative(w) {
      CyclesExact(w, 1);
      assert 1 * Sum(w) == Sum(w);
    }
  }

  lemma {:induction false} Periodic(w: seq<int>, m: nat)
    requires NonNegative(w) && Sum(w) > 0
    ensures w != [] && After(w, m + Sum(w)) == After(w, m)
  {
    if m == 0 {
      CyclesExact(w, 1);
      assert After(w, Sum(w)) == After(w, 0) by {
        assert 1 * Sum(w) == Sum(w);
      }
    } else {
      Periodic(w, m - 1);
      assert m + Sum(w) - 1 == m - 1 + Sum(w);
    }
  }

  lemma WindowCount(m: nat, W: int, wi: int, c: int, d: int, x: int)
    requires W > 0 && x == m * wi - W * c && x == (m + W) * wi - W * d
    ensures d - c == wi
  {
    assert (m + W) * wi == m * wi + W * wi;
    assert W * (wi - (d - c)) == W * wi - W * d + W * c;
    ZeroProduct(W, wi - (d - c));
  }

  /** Any window of `Sum(w)` consecutive picks, from any offset, holds server i
      exactly w[i] times. */
  lemma WindowExact(w: seq<int>, m: nat, i: nat)
    requires NonNegative(w) && Sum(w) > 0 && i < |w|
    ensures Count(Picks(w, m + Sum(w))[m..], i) == w[i]
  {
    WindowLedger(w, m, i);
    PicksPrefix(w, m, m + Sum(w));
    CountSplit(Picks(w, m + Sum(w)), m, i);
  }

  lemma WindowLedger(w: seq<int>, m: nat, i: nat)
    requires NonNegative(w) && Sum(w) > 0 && i < |w|
    ensures Count(Picks(w, m + Sum(w)), i) - Count(Picks(w, m), i) == w[i]
  {
    Periodic(w, m);
    WindowLedgerAt(w, m, m + Sum(w), i);
  }

  lemma WindowLedgerAt(w: seq<int>, m: nat, n: nat, i: nat)
    requires i < |w| && Sum(w) > 0 && n == m + Sum(w) && After(w, m) == After(w, n)
    ensures Count(Picks(w, n), i) - Count(Picks(w, m), i) == w[i]
  {
    Ledger(w, m, i);
    Ledger(w, n, i);
    WindowCount(m, Sum(w), w[i], Count(Picks(w, m), i), Count(Picks(w, n), i), After(w, m)[i]);
  }

  lemma PicksPrefix(w: seq<int>, m: nat, n: nat)
    requires w != [] && m <= n
    ensures Picks(w, n)[..m] == Picks(w, m)
    decreases n - m
  {
    if m < n {
      PicksPrefix(w, m + 1, n);
      assert Picks(w, n)[..m] == Picks(w, n)[..m + 1][..m];
      assert Picks(w, m + 1)[..m] == Picks(w, m);
    } else {
      assert Picks(w, n)[..n] == Picks(w, n);
    }
  }

  lemma CountSplit(ps: seq<nat>, m: nat, i: nat)
    requires m <= |ps|
    ensures Count(ps, i) == Count(ps[..m], i) + Count(ps[m..], i)
  {
    if m == |ps| {
      assert ps[..m] == ps;
    } else {
      var n := |ps| - 1;
      CountSplit(ps[..n], m, i);
      assert ps[..n][..m] == ps[..m] && ps[..n][m..] == ps[m..][..n - m];
    }
  }

  /** A server of positive weight is picked in every window. */
  lemma NoStarvation(w: seq<int>, m: nat, i: nat)
    requires NonNegative(w) && Sum(w) > 0 && i < |w| && w[i] > 0
    ensures i in Picks(w, m + Sum(w))[m..]
  {
    WindowExact(w, m, i);
    var ps := Picks(w, m + Sum(w))[m..];
    CountPositive(ps, i);
  }

  lemma CountPositive(ps: seq<nat>, i: nat)
    requires Count(ps, i) > 0
    ensures i in ps
  {
    var n := |ps| - 1;
    if ps[n] != i {
      CountPositive(ps[..n], i);
    }
  }

  /** If n numbers above -W add up to zero, none exceeds (n - 1) * (W - 1). */
  lemma ZeroSumBound(c: seq<int>, W: int, i: nat)
    requires i < |c| && Sum(c) == 0 && forall j :: 0 <= j < |c| ==> c[j] >= 1 - W
    ensures c[i] <= (|c| - 1) * (W - 1)
  {
    SumUpdate(c, i, 1 - W);
    SumAtLeast(c[i := 1 - W], 1 - W);
    assert |c| * (1 - W) == (1 - W) - (|c| - 1) * (W - 1);
  }

  /** At every moment the current weights lie in fixed bounds, so the number of
      picks of a server never strays from its share by more than these. */
  lemma Bounds(w: seq<int>, n: nat, i: nat)
    requires NonNegative(w) && Sum(w) > 0 && i < |w|
    ensures -Sum(w) < After(w, n)[i] <= (|w| - 1) * (Sum(w) - 1)
    ensures Sum(w) * Count(Picks(w, n), i) < n * w[i] + Sum(w)
    ensures Sum(w) * Count(Picks(w, n), i) >= n * w[i] - (|w| - 1) * (Sum(w) - 1)
  {
    forall j | 0 <= j < |w| ensures After(w, n)[j] >= 1 - Sum(w) {
      AboveMinusTotal(w, n, j);
    }
    SumIsZero(w, n);
    ZeroSumBound(After(w, n), Sum(w), i);
    Ledger(w, n, i);
  }

  // --------------------------------------------------------------- the choice

  /** Nobody has more after gaining than the one picked, and nobody before it as much. */
  lemma ChoiceIsFirst(w: seq<int>, c: seq<int>, j: nat)
    requires |w| == |c| && j < |w|
    ensures var p := Choice(w, c);
            c[j] + w[j] <= c[p] + w[p] && (j < p ==> c[j] + w[j] < c[p] + w[p])
  {
    var b, p := Bump(w, c), Choice(w, c);
    assert b[j] <= b[p] && (j < p ==> b[j] < b[p]);
  }

  lemma SumOfThree(a: int, b: int, c: int)
    ensures Sum([a, b, c]) == a + b + c
  {
    var s := [a, b, c];
    assert s[..2] == [a, b] && [a, b][..1] == [a] && [a][..0] == [];
    assert Sum([a]) == Sum([]) + a;
    assert Sum([a, b]) == Sum([a]) + b;
  }

  /** One pick among three servers. */
  lemma PickOfThree(w: seq<int>, n: nat, c: seq<int>, p: nat, d: seq<int>)
    requires |w| == |c| == |d| == 3 && After(w, n) == c && p < 3
    requires IsBest([c[0] + w[0], c[1] + w[1], c[2] + w[2]], p)
    requires d == [c[0] + w[0], c[1] + w[1], c[2] + w[2]][p := c[p] + w[p] - (w[0] + w[1] + w[2])]
    ensures After(w, n + 1) == d && Picks(w, n + 1) == Picks(w, n) + [p]
  {
    var b := [c[0] + w[0], c[1] + w[1], c[2] + w[2]];
    assert Bump(w, c) == b;
    BestUnique(b, Choice(w, c), p);
    SumOfThree(w[0], w[1], w[2]);
    assert w == [w[0], w[1], w[2]];
  }

  const UNEVEN := [5, 1, 1]

  lemma FirstHalf()
    ensures After(UNEVEN, 4) == [-1, -3, 4] && Picks(UNEVEN, 4) == [0, 0, 1, 0]
  {
    assert After(UNEVEN, 0) == [0, 0, 0];
    PickOfThree(UNEVEN, 0, [0, 0, 0], 0, [-2, 1, 1]);
    PickOfThree(UNEVEN, 1, [-2, 1, 1], 0, [-4, 2, 2]);
    PickOfThree(UNEVEN, 2, [-4, 2, 2], 1, [1, -4, 3]);
    PickOfThree(UNEVEN, 3, [1, -4, 3], 0, [-1, -3, 4]);
  }

  /** Weights 5, 1 and 1: the heavy server is not picked five times in a row. */
  lemma SmoothExample()
    ensures Picks(UNEVEN, 7) == [0, 0, 1, 0, 2, 0, 0] && After(UNEVEN, 7) == [0, 0, 0]
  {
    FirstHalf();
    PickOfThree(UNEVEN, 4, [-1, -3, 4], 2, [4, -2, -2]);
    PickOfThree(UNEVEN, 5, [4, -2, -2], 0, [2, -1, -1]);
    PickOfThree(UNEVEN, 6, [2, -1, -1], 0, [0, 0, 0]);
  }
}
