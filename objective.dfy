/**
 * The tuner's objective, ParameterTuner.evaluate: three optimizer runs with one parameter
 * vector. The tuner itself treats the objective as an arbitrary integer score; this
 * module shows what one evaluation computes from the optimizer model.
 */
module Objective {
  import opened Tours
  import opened BeeColony
  import opened Tuning

  /**
   * One run of the objective: a fresh optimizer with the given parameters, run on the
   * given draws, and the last entry of its history. That entry is the run's final
   * incumbent cost: a tour cost no dearer than any tour of the initial population.
   */
  method FinalCost(dist: Table, params: Params, initial: seq<Tour>, rounds: seq<Round>,
                   rank: seq<int> -> seq<nat>)
    returns (cost: int, ghost states: seq<Search>, ghost mids: seq<Search>)
    requires IsTable(dist) && HasAllKeys(params)
    requires params[NumBees] >= 0 && params[NumSites] >= 1 && params[Limit] >= 1
    requires ValidDraws(|dist|, params[NumBees], params[NumSites], params[Limit], initial, rounds)
    requires forall costs :: IsCostRanking(rank(costs), costs)
    ensures 5 * |dist| <= cost <= 150 * |dist|
    ensures forall j :: 0 <= j < |initial| ==> IsTour(initial[j], |dist|) && cost <= TourCost(dist, initial[j])
    ensures IsRun(dist, params[NumBees], params[NumSites], initial, rounds, rank, states, mids)
    ensures FirstCheapest(initial, states[0])
    ensures |states| == params[Limit] + 1 && cost == states[params[Limit]].bestCost
  {
    var solver := new BeeTsp(dist, params[NumBees], params[NumSites], params[Limit]);
    var history;
    var _, trace, ss, ms := solver.Run(initial, rounds, rank);
    history := trace;
    cost := history[|history| - 1];
    states, mids := ss, ms;
  }

  /**
   * The objective: three independent optimizer runs on fresh objects with the given
   * parameters, each with its own draws, collecting the last history entry of each
   * (the loop over range(3) is written out as its three iterations).
   * The mean of the three is total / 3; only `total` is returned, which orders
   * parameter vectors the same way. Every collected cost is its run's final incumbent
   * cost, a tour cost no dearer than any tour of that run's initial population.
   */
  method Evaluate(dist: Table, params: Params, draws: seq<(seq<Tour>, seq<Round>)>,
                  rank: seq<int> -> seq<nat>)
    returns (costs: seq<int>, total: int, ghost runs: seq<seq<Search>>, ghost runMids: seq<seq<Search>>)
    requires IsTable(dist) && HasAllKeys(params)
    requires params[NumBees] >= 0 && params[NumSites] >= 1 && params[Limit] >= 1
    requires |draws| == 3
    requires forall k :: 0 <= k < 3 ==>
               ValidDraws(|dist|, params[NumBees], params[NumSites], params[Limit], draws[k].0, draws[k].1)
    requires forall costs :: IsCostRanking(rank(costs), costs)
    ensures |costs| == 3 && total == costs[0] + costs[1] + costs[2]
    ensures forall k :: 0 <= k < 3 ==> 5 * |dist| <= costs[k] <= 150 * |dist|
    ensures forall k, j :: 0 <= k < 3 && 0 <= j < |draws[k].0| ==>
              IsTour(draws[k].0[j], |dist|) && costs[k] <= TourCost(dist, draws[k].0[j])
    ensures |runs| == 3 && |runMids| == 3
    ensures forall k :: 0 <= k < 3 ==>
              && IsRun(dist, params[NumBees], params[NumSites], draws[k].0, draws[k].1, rank, runs[k], runMids[k])
              && FirstCheapest(draws[k].0, runs[k][0])
              && |runs[k]| == params[Limit] + 1 && costs[k] == runs[k][params[Limit]].bestCost
  {
    var c0, s0, m0 := FinalCost(dist, params, draws[0].0, draws[0].1, rank);
    var c1, s1, m1 := FinalCost(dist, params, draws[1].0, draws[1].1, rank);
    var c2, s2, m2 := FinalCost(dist, params, draws[2].0, draws[2].1, rank);
    costs := [c0, c1, c2];
    total := c0 + c1 + c2;
    runs := [s0, s1, s2];
    runMids := [m0, m1, m2];
  }
}
