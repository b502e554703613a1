/**
 * The distance table, tours over it, the closed-tour cost and the one-swap neighbour
 * move that every perturbation of the optimizer uses.
 */
module Tours {

  /** Row i, column j is the cost of travelling from city i to city j (not symmetric). */
  type Table = seq<seq<int>>

  /** A sequence of city indices; a tour proper is a permutation of 0..n-1. */
  type Tour = seq<nat>

  /**
   * The generated table: at least two cities, square, zero diagonal, and every
   * off-diagonal entry drawn from randint(5, 151), whose upper bound is exclusive.
   */
  predicate IsTable(d: Table) {
    && |d| >= 2
    && (forall i :: 0 <= i < |d| ==> |d[i]| == |d|)
    && (forall i :: 0 <= i < |d| ==> d[i][i] == 0)
    && (forall i, j :: 0 <= i < |d| && 0 <= j < |d| && i != j ==> 5 <= d[i][j] <= 150)
  }

  /** Every entry of `p` is a city of an `n`-city table. */
  predicate InCities(p: seq<nat>, n: nat) {
    forall k :: 0 <= k < |p| ==> p[k] < n
  }

  predicate Distinct(p: seq<nat>) {
    forall i, j :: 0 <= i < j < |p| ==> p[i] != p[j]
  }

  /** `p` visits each of the `n` cities exactly once. */
  predicate IsTour(p: Tour, n: nat) {
    |p| == n && InCities(p, n) && Distinct(p)
  }

  /** The cost of the open path p[0] -> p[1] -> ... -> p[k]. */
  function PathCost(d: Table, p: seq<nat>, k: nat): int
    requires IsTable(d) && InCities(p, |d|) && k < |p|
  {
    if k == 0 then 0 else PathCost(d, p, k - 1) + d[p[k - 1]][p[k]]
  }

  /**
   * The cost of the closed tour: the edges p[i] -> p[i+1] for i in 0..|p|-2, plus the
   * wrap-around edge from the last city back to the first.
   */
  function TourCost(d: Table, p: seq<nat>): (c: int)
    requires IsTable(d) && |p| >= 1 && InCities(p, |d|)
    ensures 0 <= c <= 150 * |p|
    ensures IsTour(p, |d|) ==> 5 * |p| <= c
  {
    PathCostBounds(d, p, |p| - 1);
    PathCost(d, p, |p| - 1) + d[p[|p| - 1]][p[0]]
  }

  /** Every edge of a path costs at most 150, and at least 5 when it joins two different cities. */
  lemma {:induction false} PathCostBounds(d: Table, p: seq<nat>, k: nat)
    requires IsTable(d) && InCities(p, |d|) && k < |p|
    ensures 0 <= PathCost(d, p, k) <= 150 * k
    ensures Distinct(p) ==> 5 * k <= PathCost(d, p, k)
  {
    if k > 0 {
      PathCostBounds(d, p, k - 1);
    }
  }

  /** Splitting off the first edge of a path. */
  lemma {:induction false} PathCostFront(d: Table, p: seq<nat>, k: nat)
    requires IsTable(d) && InCities(p, |d|) && 1 <= k < |p|
    ensures PathCost(d, p, k) == d[p[0]][p[1]] + PathCost(d, p[1..], k - 1)
  {
    if k > 1 {
      PathCostFront(d, p, k - 1);
    }
  }

  /** A path's cost depends only on the cities it passes through. */
  lemma {:induction false} PathCostPrefix(d: Table, p: seq<nat>, q: seq<nat>, k: nat)
    requires IsTable(d) && InCities(p, |d|) && InCities(q, |d|) && k < |p| && k < |q|
    requires p[..k + 1] == q[..k + 1]
    ensures PathCost(d, p, k) == PathCost(d, q, k)
  {
    if k > 0 {
      assert p[..k] == q[..k] by {
        assert p[..k] == p[..k + 1][..k];
        assert q[..k] == q[..k + 1][..k];
      }
      assert p[k - 1] == p[..k + 1][k - 1] && p[k] == p[..k + 1][k];
      assert q[k - 1] == q[..k + 1][k - 1] && q[k] == q[..k + 1][k];
      PathCostPrefix(d, p, q, k - 1);
    }
  }

  /** The tour that starts from the second city of `p` and ends with its first. */
  function RotateLeft(p: seq<nat>): (q: seq<nat>)
    requires |p| >= 1
    ensures |q| == |p| && multiset(q) == multiset(p)
  {
    assert p == [p[0]] + p[1..];
    p[1..] + [p[0]]
  }

  /** A closed tour costs the same whichever city it is started from. */
  lemma TourCostRotation(d: Table, p: seq<nat>)
    requires IsTable(d) && |p| >= 2 && InCities(p, |d|)
    ensures InCities(RotateLeft(p), |d|)
    ensures TourCost(d, RotateLeft(p)) == TourCost(d, p)
  {
    var q := RotateLeft(p);
    var n := |p|;
    assert InCities(q, |d|) by {
      forall k | 0 <= k < n ensures q[k] < |d| {
        if k < n - 1 { assert q[k] == p[k + 1]; } else { assert q[k] == p[0]; }
      }
    }
    PathCostFront(d, p, n - 1);
    // q's first n-1 edges are p's edges after the first one, and then p's wrap edge
    assert q[..n - 1] == p[1..][..n - 1];
    if n > 2 {
      PathCostPrefix(d, q, p[1..], n - 2);
    }
    assert q[n - 2] == p[n - 1] && q[n - 1] == p[0] && q[0] == p[1];
    assert PathCost(d, q, n - 2) == PathCost(d, p[1..], n - 2);
    assert PathCost(d, q, n - 1) == PathCost(d, q, n - 2) + d[p[n - 1]][p[0]];
    assert TourCost(d, q) == PathCost(d, q, n - 1) + d[p[0]][p[1]];
  }

  /** Positions a and b drawn by random.sample(range(n), 2): two different positions. */
  datatype Swap = Swap(a: nat, b: nat)

  predicate ValidSwap(sw: Swap, n: nat) {
    sw.a < n && sw.b < n && sw.a != sw.b
  }

  /** A copy of `p` with the cities at positions a and b exchanged; `p` itself is not touched. */
  function Swapped(p: Tour, sw: Swap): (q: Tour)
    requires sw.a < |p| && sw.b < |p|
    ensures |q| == |p| && multiset(q) == multiset(p)
    ensures q[sw.a] == p[sw.b] && q[sw.b] == p[sw.a]
    ensures forall k :: 0 <= k < |p| && k != sw.a && k != sw.b ==> q[k] == p[k]
  {
    p[sw.a := p[sw.b]][sw.b := p[sw.a]]
  }

  /** Exchanging two positions of a tour gives another tour of the same cities. */
  lemma SwapKeepsTour(p: Tour, sw: Swap, n: nat)
    requires IsTour(p, n) && ValidSwap(sw, n)
    ensures IsTour(Swapped(p, sw), n)
  {
  }
}
