/**
 * The bee-colony optimizer: a population of tours ("sites") with their cached costs,
 * improved round by round by one-swap perturbations that are kept only when strictly
 * cheaper, first once per site, then by onlookers aimed at the cheapest sites.
 *
 * Every random draw is an input: the initial permutations, the two swap positions of
 * each perturbation and the elite position each onlooker picks are parameters of
 * `BeeTsp.Run`, and the cost-sorted index order (np.argsort) is a caller-supplied
 * function. What is proved holds for every such choice.
 */
module BeeColony {
  import opened Basics
  import opened Tours

  /** One perturbation aimed at an elite site: the position it picks in the elite list, and its swap. */
  datatype Onlooker = Onlooker(pick: nat, swap: Swap)

  /** The draws of one round: a swap per site, then the onlookers. */
  datatype Round = Round(scouts: seq<Swap>, onlookers: seq<Onlooker>)

  /** The working state of a run: the population, its cached costs and the incumbent. */
  datatype Search = Search(population: seq<Tour>, costs: seq<int>, best: Tour, bestCost: int)

  /** num_bees - num_sites, when that is positive. */
  function OnlookerCount(numBees: nat, numSites: nat): nat {
    if numBees > numSites then numBees - numSites else 0
  }

  /** max(1, num_sites // 2): how many of the cheapest sites the onlookers aim at. */
  function EliteCount(numSites: nat): (k: nat)
    ensures 1 <= k && (numSites >= 1 ==> k <= numSites)
  {
    Max(1, numSites / 2)
  }

  /** A site holds a tour together with that tour's true cost. */
  ghost predicate SiteOk(d: Table, p: Tour, c: int)
    requires IsTable(d)
  {
    IsTour(p, |d|) && c == TourCost(d, p)
  }

  /**
   * Every site is consistent, and the incumbent is a consistent tour that is no dearer
   * than any site.
   */
  ghost predicate Consistent(d: Table, s: Search)
    requires IsTable(d)
  {
    && |s.population| == |s.costs|
    && (forall i {:trigger SiteOk(d, s.population[i], s.costs[i])} :: 0 <= i < |s.population| ==>
          SiteOk(d, s.population[i], s.costs[i]))
    && SiteOk(d, s.best, s.bestCost)
    && (forall i :: 0 <= i < |s.costs| ==> s.bestCost <= s.costs[i])
  }

  /**
   * What one perturbation leaves at a site holding (p, c): a copy of p with two positions
   * swapped replaces it only if the copy is strictly cheaper.
   */
  function Perturb(d: Table, p: Tour, c: int, sw: Swap): (r: (Tour, int))
    requires IsTable(d) && SiteOk(d, p, c) && ValidSwap(sw, |d|)
    ensures SiteOk(d, r.0, r.1) && r.1 <= c
    ensures TourCost(d, Swapped(p, sw)) < c <==> r.1 < c
    ensures r.1 < c ==> r.0 == Swapped(p, sw)
    ensures r.1 == c ==> r.0 == p
  {
    SwapKeepsTour(p, sw, |d|);
    var q := Swapped(p, sw);
    var qc := TourCost(d, q);
    if qc < c then (q, qc) else (p, c)
  }

  /**
   * One perturbation of site i; a kept copy that beats the incumbent also becomes the
   * incumbent. No other site changes.
   */
  function Visit(d: Table, s: Search, i: nat, sw: Swap): (r: Search)
    requires IsTable(d) && Consistent(d, s) && i < |s.population| && ValidSwap(sw, |d|)
    ensures Consistent(d, r) && |r.population| == |s.population|
    ensures (r.population[i], r.costs[i]) == Perturb(d, s.population[i], s.costs[i], sw)
    ensures forall j :: 0 <= j < |s.population| && j != i ==>
              r.population[j] == s.population[j] && r.costs[j] == s.costs[j]
    ensures r.bestCost == Min(s.bestCost, r.costs[i])
    ensures r.bestCost < s.bestCost ==> r.best == r.population[i]
    ensures r.bestCost == s.bestCost ==> r.best == s.best
  {
    var (p, c) := Perturb(d, s.population[i], s.costs[i], sw);
    if c < s.bestCost then Search(s.population[i := p], s.costs[i := c], p, c)
    else Search(s.population[i := p], s.costs[i := c], s.best, s.bestCost)
  }

  /**
   * The exploitation phase from site i on: sites i, i + 1, ... each get one perturbation
   * with their own swap, in index order. The incumbent never gets dearer, and stays the
   * same tour while its cost stays the same.
   */
  function Exploit(d: Table, s: Search, scouts: seq<Swap>, i: nat): (r: Search)
    requires IsTable(d) && Consistent(d, s)
    requires i <= |scouts| == |s.population| && forall j :: 0 <= j < |scouts| ==> ValidSwap(scouts[j], |d|)
    ensures Consistent(d, r) && |r.population| == |s.population|
    ensures r.bestCost <= s.bestCost && (r.bestCost == s.bestCost ==> r.best == s.best)
    decreases |scouts| - i
  {
    if i == |scouts| then s else Exploit(d, Visit(d, s, i, scouts[i]), scouts, i + 1)
  }

  /**
   * Exploitation from site i on leaves each of those sites holding exactly its own
   * perturbation and the sites before i untouched.
   */
  lemma {:induction false} ExploitPerturbsEachSite(d: Table, s: Search, scouts: seq<Swap>, i: nat)
    requires IsTable(d) && Consistent(d, s)
    requires i <= |scouts| == |s.population| && forall j :: 0 <= j < |scouts| ==> ValidSwap(scouts[j], |d|)
    ensures var r := Exploit(d, s, scouts, i);
            && (forall j :: i <= j < |s.population| ==>
                  (r.population[j], r.costs[j]) == Perturb(d, s.population[j], s.costs[j], scouts[j]))
            && (forall j :: 0 <= j < i ==> r.population[j] == s.population[j] && r.costs[j] == s.costs[j])
    decreases |scouts| - i
  {
    if i < |scouts| {
      var v := Visit(d, s, i, scouts[i]);
      ExploitPerturbsEachSite(d, v, scouts, i + 1);
    }
  }

  /**
   * After exploitation from site i on, the incumbent is the old one or, when it is
   * strictly cheaper, the site w, one of those perturbed.
   */
  lemma {:induction false} ExploitIncumbentIsASite(d: Table, s: Search, scouts: seq<Swap>, i: nat)
    returns (w: nat)
    requires IsTable(d) && Consistent(d, s)
    requires i <= |scouts| == |s.population| && forall j :: 0 <= j < |scouts| ==> ValidSwap(scouts[j], |d|)
    ensures var r := Exploit(d, s, scouts, i);
            r.bestCost == s.bestCost || (i <= w < |s.population| && r.best == r.population[w] && r.bestCost == r.costs[w])
    decreases |scouts| - i
  {
    w := i;
    if i < |scouts| {
      var v := Visit(d, s, i, scouts[i]);
      var w' := ExploitIncumbentIsASite(d, v, scouts, i + 1);
      var r := Exploit(d, v, scouts, i + 1);
      if r.bestCost < v.bestCost {
        w := w';
      } else {
        ExploitPerturbsEachSite(d, v, scouts, i + 1);
      }
    }
  }

  /**
   * The exploitation phase: every site, in index order, gets one perturbation. The loop
   * ends in the state `Exploit` gives from site 0; `ExploitationIsExploited` says what
   * that state is.
   */
  method ExploitationPhase(d: Table, s: Search, scouts: seq<Swap>) returns (r: Search)
    requires IsTable(d) && Consistent(d, s)
    requires |scouts| == |s.population| && forall k :: 0 <= k < |scouts| ==> ValidSwap(scouts[k], |d|)
    ensures r == Exploit(d, s, scouts, 0)
  {
    r := s;
    for i := 0 to |s.population|
      invariant Consistent(d, r) && |r.population| == |s.population|
      invariant Exploit(d, r, scouts, i) == Exploit(d, s, scouts, 0)
    {
      r := Visit(d, r, i, scouts[i]);
    }
  }

  /**
   * `m` is what the exploitation phase leaves of `s` with the swaps `scouts`: each site
   * holds its own perturbation, the incumbent never gets dearer, and it changes only to a
   * site whose cost is strictly below the old incumbent's.
   */
  ghost predicate Exploited(d: Table, s: Search, scouts: seq<Swap>, m: Search)
    requires IsTable(d) && Consistent(d, s)
    requires |scouts| == |s.population| && forall k :: 0 <= k < |scouts| ==> ValidSwap(scouts[k], |d|)
  {
    && Consistent(d, m) && |m.population| == |s.population|
    && (forall i :: 0 <= i < |s.population| ==>
          (m.population[i], m.costs[i]) == Perturb(d, s.population[i], s.costs[i], scouts[i]))
    && m.bestCost <= s.bestCost
    && (m.bestCost == s.bestCost ==> m.best == s.best)
    && (m.bestCost == s.bestCost ||
        exists i :: 0 <= i < |m.population| && m.best == m.population[i] && m.bestCost == m.costs[i])
  }

  /** The whole exploitation phase satisfies `Exploited`. */
  lemma ExploitationIsExploited(d: Table, s: Search, scouts: seq<Swap>, m: Search)
    requires IsTable(d) && Consistent(d, s)
    requires |scouts| == |s.population| && forall k :: 0 <= k < |scouts| ==> ValidSwap(scouts[k], |d|)
    requires m == Exploit(d, s, scouts, 0)
    ensures Exploited(d, s, scouts, m)
  {
    ExploitPerturbsEachSite(d, s, scouts, 0);
    var w := ExploitIncumbentIsASite(d, s, scouts, 0);
  }

  /**
   * `order` is what np.argsort(costs) may return: every index exactly once (it has
   * |costs| entries and contains every index), in non-decreasing order of cost.
   * Which of several equally cheap sites comes first is left open.
   */
  ghost predicate IsCostRanking(order: seq<nat>, costs: seq<int>) {
    && |order| == |costs|
    && (forall k :: 0 <= k < |order| ==> order[k] < |costs|)
    && (forall i :: 0 <= i < |costs| ==> i in order)
    && (forall k, l :: 0 <= k < l < |order| ==> costs[order[k]] <= costs[order[l]])
  }

  /** The first m entries of a cost ranking are sites no dearer than any site left out of them. */
  lemma EliteIsCheapest(order: seq<nat>, costs: seq<int>, m: nat)
    requires IsCostRanking(order, costs) && m <= |order|
    ensures forall k, j :: 0 <= k < m && 0 <= j < |costs| && j !in order[..m] ==>
              costs[order[k]] <= costs[j]
  {
    forall k, j | 0 <= k < m && 0 <= j < |costs| && j !in order[..m]
      ensures costs[order[k]] <= costs[j]
    {
      assert j in order;
      var l :| 0 <= l < |order| && order[l] == j;
      assert forall t :: 0 <= t < m ==> order[..m][t] == order[t];
      assert m <= l;
    }
  }

  /** Every entry is a site index below n. */
  predicate IndicesBelow(elite: seq<nat>, n: nat) {
    forall e :: 0 <= e < |elite| ==> elite[e] < n
  }

  /** Every onlooker picks a position in an elite list of length m and swaps two of n positions. */
  predicate ValidPicks(picks: seq<Onlooker>, m: nat, n: nat) {
    forall k :: 0 <= k < |picks| ==> picks[k].pick < m && ValidSwap(picks[k].swap, n)
  }

  /** Every prefix of valid picks is valid. */
  lemma ValidPicksPrefix(picks: seq<Onlooker>, m: nat, n: nat, k: nat)
    requires ValidPicks(picks, m, n) && k <= |picks|
    ensures ValidPicks(picks[..k], m, n)
  {
  }

  /**
   * The onlookers of one round, in order: each perturbs the elite site at its picked
   * position and is judged against that site's cost as it stands after the onlookers
   * before it. Costs never rise and sites outside the elite are not touched.
   */
  function ApplyOnlookers(d: Table, s: Search, elite: seq<nat>, picks: seq<Onlooker>): (r: Search)
    requires IsTable(d) && Consistent(d, s)
    requires IndicesBelow(elite, |s.population|) && ValidPicks(picks, |elite|, |d|)
    ensures Consistent(d, r) && |r.population| == |s.population|
    ensures r.bestCost <= s.bestCost
    ensures forall i :: 0 <= i < |s.population| ==> r.costs[i] <= s.costs[i]
    ensures forall i :: 0 <= i < |s.population| && i !in elite ==>
              r.population[i] == s.population[i] && r.costs[i] == s.costs[i]
    decreases |picks|
  {
    if picks == [] then s
    else
      var earlier := ApplyOnlookers(d, s, elite, picks[..|picks| - 1]);
      var last := picks[|picks| - 1];
      Visit(d, earlier, elite[last.pick], last.swap)
  }

  /** The loop over the onlookers of one round, one perturbation each. */
  method RunOnlookers(d: Table, s: Search, elite: seq<nat>, picks: seq<Onlooker>) returns (r: Search)
    requires IsTable(d) && Consistent(d, s)
    requires IndicesBelow(elite, |s.population|) && ValidPicks(picks, |elite|, |d|)
    ensures r == ApplyOnlookers(d, s, elite, picks)
  {
    r := s;
    for k := 0 to |picks|
      invariant ValidPicks(picks[..k], |elite|, |d|)
      invariant r == ApplyOnlookers(d, s, elite, picks[..k])
    {
      ValidPicksPrefix(picks, |elite|, |d|, k + 1);
      assert picks[..k + 1][..k] == picks[..k];
      r := Visit(d, r, elite[picks[k].pick], picks[k].swap);
    }
    assert picks[..|picks|] == picks;
  }

  /**
   * The onlooker phase. When num_bees <= num_sites it does nothing. Otherwise it ranks
   * the sites once, by their costs after exploitation, takes the cheapest
   * max(1, num_sites // 2) as the elite, and runs the num_bees - num_sites onlookers.
   */
  method OnlookerPhase(d: Table, s: Search, numBees: nat, numSites: nat, picks: seq<Onlooker>,
                       rank: seq<int> -> seq<nat>)
    returns (r: Search)
    requires IsTable(d) && Consistent(d, s) && |s.population| == numSites >= 1
    requires |picks| == OnlookerCount(numBees, numSites)
    requires ValidPicks(picks, EliteCount(numSites), |d|)
    requires IsCostRanking(rank(s.costs), s.costs)
    ensures Consistent(d, r) && |r.population| == |s.population| && r.bestCost <= s.bestCost
    ensures forall i :: 0 <= i < |s.population| ==> r.costs[i] <= s.costs[i]
    ensures numBees <= numSites ==> r == s
    ensures numBees > numSites ==>
              && IndicesBelow(rank(s.costs)[..EliteCount(numSites)], numSites)
              && r == ApplyOnlookers(d, s, rank(s.costs)[..EliteCount(numSites)], picks)
  {
    r := s;
    var numOnlookers := numBees - numSites;
    if numOnlookers > 0 {
      var sortedIdx := rank(s.costs);
      var elite := sortedIdx[..Max(1, numSites / 2)];
      assert IndicesBelow(elite, numSites);
      r := RunOnlookers(d, s, elite, picks);
    }
  }

  /** All draws of a run are what the random sources can produce. */
  ghost predicate ValidDraws(n: nat, numBees: nat, numSites: nat, limit: nat,
                             initial: seq<Tour>, rounds: seq<Round>)
  {
    && |initial| == numSites
    && (forall k :: 0 <= k < |initial| ==> IsTour(initial[k], n))
    && |rounds| == limit
    && (forall r :: 0 <= r < |rounds| ==> ValidRound(rounds[r], n, numBees, numSites))
  }

  ghost predicate ValidRound(rd: Round, n: nat, numBees: nat, numSites: nat) {
    && |rd.scouts| == numSites
    && (forall k :: 0 <= k < |rd.scouts| ==> ValidSwap(rd.scouts[k], n))
    && |rd.onlookers| == OnlookerCount(numBees, numSites)
    && ValidPicks(rd.onlookers, EliteCount(numSites), n)
  }

  /**
   * One round as a function of its draws: the state `m` after exploitation with the
   * round's swaps and the state after the round's onlookers, which aim at the elite
   * prefix of the ranking of `m`'s costs; with no onlookers the two are the same.
   */
  function Advance(d: Table, s: Search, numBees: nat, numSites: nat, rd: Round,
                   rank: seq<int> -> seq<nat>): (mr: (Search, Search))
    requires IsTable(d) && Consistent(d, s) && |s.population| == numSites >= 1
    requires ValidRound(rd, |d|, numBees, numSites)
    requires forall costs :: IsCostRanking(rank(costs), costs)
    ensures Consistent(d, mr.1) && |mr.1.population| == numSites && mr.1.bestCost <= s.bestCost
  {
    var m := Exploit(d, s, rd.scouts, 0);
    if numBees <= numSites then (m, m)
    else
      assert IsCostRanking(rank(m.costs), m.costs);
      (m, ApplyOnlookers(d, m, rank(m.costs)[..EliteCount(numSites)], rd.onlookers))
  }

  /** One round with the draws `rd` takes `s` to `r` through the post-exploitation state `m`. */
  ghost predicate RoundStep(d: Table, s: Search, m: Search, r: Search, numBees: nat, numSites: nat,
                            rd: Round, rank: seq<int> -> seq<nat>)
    requires IsTable(d) && forall costs :: IsCostRanking(rank(costs), costs)
  {
    && Consistent(d, s) && |s.population| == numSites >= 1 && ValidRound(rd, |d|, numBees, numSites)
    && (m, r) == Advance(d, s, numBees, numSites, rd, rank)
  }

  /**
   * `states` are the searches of a run, from the seeded population through one state per
   * round, and `mids` the post-exploitation state of each round.
   */
  ghost predicate IsRun(d: Table, numBees: nat, numSites: nat, initial: seq<Tour>, rounds: seq<Round>,
                        rank: seq<int> -> seq<nat>, states: seq<Search>, mids: seq<Search>)
    requires IsTable(d) && forall costs :: IsCostRanking(rank(costs), costs)
  {
    && RoundsFrom(d, numBees, numSites, rounds, rank, states, mids)
    && states[0].population == initial && Consistent(d, states[0])
  }

  /** Each of `states` after the first follows from the one before by a round of `rounds`. */
  ghost predicate RoundsFrom(d: Table, numBees: nat, numSites: nat, rounds: seq<Round>,
                             rank: seq<int> -> seq<nat>, states: seq<Search>, mids: seq<Search>)
    requires IsTable(d) && forall costs :: IsCostRanking(rank(costs), costs)
  {
    && |states| == |rounds| + 1 && |mids| == |rounds|
    && (forall it :: 0 <= it < |rounds| ==>
          RoundStep(d, states[it], mids[it], states[it + 1], numBees, numSites, rounds[it], rank))
  }

  /** A run over the first `it` rounds, followed by round `it`, is a run over `it + 1` rounds. */
  lemma RoundsExtend(d: Table, numBees: nat, numSites: nat, rounds: seq<Round>, it: nat,
                     rank: seq<int> -> seq<nat>, states: seq<Search>, mids: seq<Search>, m: Search, r: Search)
    requires IsTable(d) && (forall costs :: IsCostRanking(rank(costs), costs)) && it < |rounds|
    requires RoundsFrom(d, numBees, numSites, rounds[..it], rank, states, mids)
    requires RoundStep(d, states[it], m, r, numBees, numSites, rounds[it], rank)
    ensures RoundsFrom(d, numBees, numSites, rounds[..it + 1], rank, states + [r], mids + [m])
  {
    var states', mids' := states + [r], mids + [m];
    forall j | 0 <= j < it + 1
      ensures RoundStep(d, states'[j], mids'[j], states'[j + 1], numBees, numSites, rounds[..it + 1][j], rank)
    {
      assert rounds[..it + 1][j] == rounds[j];
      if j < it {
        assert rounds[..it][j] == rounds[j];
        assert states'[j] == states[j] && states'[j + 1] == states[j + 1] && mids'[j] == mids[j];
      }
    }
  }

  /**
   * One full round: exploitation, giving the intermediate state `m`, then the onlookers,
   * aimed at the elite of the costs as they stand after exploitation.
   */
  method RunRound(d: Table, s: Search, numBees: nat, numSites: nat, rd: Round, rank: seq<int> -> seq<nat>)
    returns (r: Search, m: Search)
    requires IsTable(d) && Consistent(d, s) && |s.population| == numSites >= 1
    requires ValidRound(rd, |d|, numBees, numSites)
    requires forall costs :: IsCostRanking(rank(costs), costs)
    ensures (m, r) == Advance(d, s, numBees, numSites, rd, rank)
    ensures Exploited(d, s, rd.scouts, m)
  {
    m := ExploitationPhase(d, s, rd.scouts);
    ExploitationIsExploited(d, s, rd.scouts, m);
    assert IsCostRanking(rank(m.costs), m.costs);
    r := OnlookerPhase(d, m, numBees, numSites, rd.onlookers, rank);
  }

  /** No site's cost rises in a round. */
  lemma RoundNeverRaisesCosts(d: Table, s: Search, numBees: nat, numSites: nat, rd: Round,
                              rank: seq<int> -> seq<nat>)
    requires IsTable(d) && Consistent(d, s) && |s.population| == numSites >= 1
    requires ValidRound(rd, |d|, numBees, numSites)
    requires forall costs :: IsCostRanking(rank(costs), costs)
    ensures var r := Advance(d, s, numBees, numSites, rd, rank).1;
            forall i :: 0 <= i < numSites ==> r.costs[i] <= s.costs[i]
  {
    ExploitPerturbsEachSite(d, s, rd.scouts, 0);
  }

  /** The incumbent cost after each round of a run whose states are `states`. */
  function Incumbents(states: seq<Search>): (costs: seq<int>)
    ensures |costs| == if states == [] then 0 else |states| - 1
    ensures forall i :: 0 <= i < |costs| ==> costs[i] == states[i + 1].bestCost
  {
    if |states| <= 1 then [] else Incumbents(states[..|states| - 1]) + [states[|states| - 1].bestCost]
  }

  /** One more state adds its incumbent cost at the end. */
  lemma IncumbentsAppend(h0: seq<int>, states: seq<Search>, r: Search, h: seq<int>)
    requires states != [] && h == h0 + Incumbents(states)
    ensures h + [r.bestCost] == h0 + Incumbents(states + [r])
  {
    assert (states + [r])[..|states|] == states;
    assert Incumbents(states + [r]) == Incumbents(states) + [r.bestCost];
  }

  /**
   * The incumbent of `s` is the first of the `initial` tours of least cost: it is one of
   * them, and every one before it costs strictly more.
   */
  ghost predicate FirstCheapest(initial: seq<Tour>, s: Search) {
    exists k :: 0 <= k < |initial| && k < |s.costs| && s.best == initial[k] &&
      forall j :: 0 <= j < k ==> s.bestCost < s.costs[j]
  }

  /** The optimizer object: its configuration, the incumbent and the convergence history. */
  class BeeTsp {
    const dist: Table
    const numBees: nat
    const numSites: nat
    const limit: nat
    var bestSolution: Option<Tour>
    var bestCost: Bound
    var history: seq<int>

    /**
     * There is an incumbent exactly when its cost is finite, and then the cost is the
     * incumbent tour's; the history never rises and never lies below the incumbent.
     */
    ghost predicate Valid()
      reads this
    {
      && IsTable(dist)
      && (bestSolution.Some? <==> bestCost.Finite?)
      && (bestSolution.Some? ==>
            IsTour(bestSolution.value, |dist|) && bestCost.value == TourCost(dist, bestSolution.value))
      && NonIncreasing(history)
      && (history != [] ==> bestCost.Finite? && bestCost.value <= history[|history| - 1])
    }

    constructor (dist: Table, numBees: nat, numSites: nat, limit: nat)
      requires IsTable(dist)
      ensures Valid()
      ensures this.dist == dist && this.numBees == numBees && this.numSites == numSites && this.limit == limit
      ensures bestSolution == None && bestCost == Infinite && history == []
    {
      this.dist := dist;
      this.numBees := numBees;
      this.numSites := numSites;
      this.limit := limit;
      bestSolution := None;
      bestCost := Infinite;
      history := [];
    }

    /**
     * The initialisation loop of a run: every initial permutation becomes a site with its
     * cost, and the incumbent drops to the cheapest of them when that is strictly cheaper.
     */
    method SeedPopulation(initial: seq<Tour>) returns (s: Search)
      requires Valid() && |initial| >= 1
      requires forall k :: 0 <= k < |initial| ==> IsTour(initial[k], |dist|)
      modifies this`bestSolution, this`bestCost
      ensures Valid() && Consistent(dist, s)
      ensures s.population == initial && bestSolution == Some(s.best) && bestCost == Finite(s.bestCost)
      ensures old(bestCost).Finite? ==> s.bestCost <= old(bestCost).value
      ensures old(bestCost).Infinite? ==> FirstCheapest(initial, s)
    {
      var population: seq<Tour> := [];
      var costs: seq<int> := [];
      ghost var w := 0;
      for k := 0 to |initial|
        invariant Valid()
        invariant population == initial[..k] && |costs| == k
        invariant forall j :: 0 <= j < k ==> costs[j] == TourCost(dist, initial[j])
        invariant k > 0 ==> bestCost.Finite?
        invariant forall j :: 0 <= j < k ==> bestCost.Finite? && bestCost.value <= costs[j]
        invariant old(bestCost).Finite? ==> bestCost.Finite? && bestCost.value <= old(bestCost).value
        invariant k == 0 ==> bestCost == old(bestCost)
        invariant old(bestCost).Infinite? && k > 0 ==>
                    && w < k && bestSolution == Some(initial[w])
                    && forall j :: 0 <= j < w ==> bestCost.value < costs[j]
      {
        var p := initial[k];
        var c := TourCost(dist, p);
        population := population + [p];
        costs := costs + [c];
        if Below(c, bestCost) {
          bestCost := Finite(c);
          bestSolution := Some(p);
          w := k;
        }
      }
      s := Search(population, costs, bestSolution.value, bestCost.value);
    }

    /**
     * The end of a round: the incumbent fields take the search's incumbent and its cost
     * is appended to the history.
     */
    method RecordRound(s: Search)
      requires Valid() && SiteOk(dist, s.best, s.bestCost)
      requires bestCost.Finite? && s.bestCost <= bestCost.value
      modifies this`bestSolution, this`bestCost, this`history
      ensures Valid()
      ensures bestSolution == Some(s.best) && bestCost == Finite(s.bestCost)
      ensures history == old(history) + [s.bestCost]
    {
      AppendKeepsNonIncreasing(history, s.bestCost);
      bestSolution := Some(s.best);
      bestCost := Finite(s.bestCost);
      history := history + [s.bestCost];
    }

    /**
     * Round `it` of a run: exploitation and onlookers on the working state `s`, then the
     * round's incumbent is recorded. The ghost `states` and `mids` of the rounds so far
     * grow by this round's states, and the history past its first `|h0|` entries stays
     * the incumbent cost after each round so far.
     */
    method Step(s: Search, rounds: seq<Round>, it: nat, rank: seq<int> -> seq<nat>,
                ghost states: seq<Search>, ghost mids: seq<Search>, ghost h0: seq<int>)
      returns (r: Search, ghost states': seq<Search>, ghost mids': seq<Search>)
      requires Valid() && Consistent(dist, s) && |s.population| == numSites >= 1
      requires bestSolution == Some(s.best) && bestCost == Finite(s.bestCost)
      requires it < |rounds| && ValidRound(rounds[it], |dist|, numBees, numSites)
      requires forall costs :: IsCostRanking(rank(costs), costs)
      requires RoundsFrom(dist, numBees, numSites, rounds[..it], rank, states, mids) && states[it] == s
      requires history == h0 + Incumbents(states)
      modifies this`bestSolution, this`bestCost, this`history
      ensures Valid() && RoundsFrom(dist, numBees, numSites, rounds[..it + 1], rank, states', mids')
      ensures states' == states + [r] && states'[0] == states[0] && states'[it + 1] == r
      ensures Consistent(dist, r) && |r.population| == numSites && r.bestCost <= s.bestCost
      ensures bestSolution == Some(r.best) && bestCost == Finite(r.bestCost)
      ensures history == old(history) + [r.bestCost] && history == h0 + Incumbents(states')
    {
      var m;
      r, m := RunRound(dist, s, numBees, numSites, rounds[it], rank);
      RecordRound(r);
      RoundsExtend(dist, numBees, numSites, rounds, it, rank, states, mids, m, r);
      states' := states + [r];
      mids' := mids + [m];
      IncumbentsAppend(h0, states, r, old(history));
    }

    /**
     * The rounds of a run, from the seeded state `s`: each round is a `Step`, and the
     * states passed through are `states`.
     */
    method RunRounds(s: Search, rounds: seq<Round>, rank: seq<int> -> seq<nat>)
      returns (r: Search, ghost states: seq<Search>, ghost mids: seq<Search>)
      requires Valid() && Consistent(dist, s) && |s.population| == numSites >= 1
      requires bestSolution == Some(s.best) && bestCost == Finite(s.bestCost)
      requires forall k :: 0 <= k < |rounds| ==> ValidRound(rounds[k], |dist|, numBees, numSites)
      requires forall costs :: IsCostRanking(rank(costs), costs)
      modifies this`bestSolution, this`bestCost, this`history
      ensures Valid() && RoundsFrom(dist, numBees, numSites, rounds, rank, states, mids)
      ensures states[0] == s && states[|rounds|] == r
      ensures Consistent(dist, r) && r.bestCost <= s.bestCost
      ensures bestSolution == Some(r.best) && bestCost == Finite(r.bestCost)
      ensures history == old(history) + Incumbents(states)
    {
      r := s;
      states := [s];
      mids := [];
      for it := 0 to |rounds|
        invariant Valid() && Consistent(dist, r) && |r.population| == numSites
        invariant bestSolution == Some(r.best) && bestCost == Finite(r.bestCost)
        invariant r.bestCost <= s.bestCost
        invariant RoundsFrom(dist, numBees, numSites, rounds[..it], rank, states, mids)
        invariant states[0] == s && states[it] == r
        invariant history == old(history) + Incumbents(states)
      {
        r, states, mids := Step(r, rounds, it, rank, states, mids, old(history));
      }
      assert rounds[..|rounds|] == rounds;
    }

    /**
     * One run: seed the population from the initial permutations, then `limit` rounds of
     * exploitation and onlookers, appending the incumbent cost after each round. Returns
     * the incumbent tour and the whole history; `states` are the searches the run passes
     * through and `mids` the post-exploitation state of each round.
     */
    method Run(initial: seq<Tour>, rounds: seq<Round>, rank: seq<int> -> seq<nat>)
      returns (solution: Tour, trace: seq<int>, ghost states: seq<Search>, ghost mids: seq<Search>)
      requires Valid() && numSites >= 1
      requires ValidDraws(|dist|, numBees, numSites, limit, initial, rounds)
      requires forall costs :: IsCostRanking(rank(costs), costs)
      modifies this
      ensures Valid()
      ensures bestSolution == Some(solution) && trace == history
      ensures IsTour(solution, |dist|) && bestCost == Finite(TourCost(dist, solution))
      ensures |history| == |old(history)| + limit && history[..|old(history)|] == old(history)
      ensures limit > 0 ==> history[|history| - 1] == TourCost(dist, solution)
      ensures forall k :: 0 <= k < numSites ==> TourCost(dist, solution) <= TourCost(dist, initial[k])
      ensures old(bestCost).Finite? ==> TourCost(dist, solution) <= old(bestCost).value
      ensures IsRun(dist, numBees, numSites, initial, rounds, rank, states, mids)
      ensures old(bestCost).Infinite? ==> FirstCheapest(initial, states[0])
      ensures history == old(history) + Incumbents(states)
      ensures solution == states[limit].best
    {
      var s := SeedPopulation(initial);
      var r;
      r, states, mids := RunRounds(s, rounds, rank);
      forall k | 0 <= k < numSites
        ensures s.bestCost <= TourCost(dist, initial[k])
      {
        assert SiteOk(dist, s.population[k], s.costs[k]);
      }
      solution := r.best;
      trace := history;
    }
  }
}
