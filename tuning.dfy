/**
 * The hyperparameter tuner: coordinate descent over the optimizer's three parameters.
 * Each cycle visits the keys in a fixed order and, for each, scores every candidate
 * value with the other two held at their current values, keeps the first candidate of
 * strictly least score, and commits it when it differs from the current value. Tuning
 * stops after a cycle that changes nothing, or after three cycles.
 *
 * The score of a parameter vector is a caller-supplied integer function: it stands for
 * the average final cost of three optimizer runs, and only its order is ever used.
 */
module Tuning {
  import opened Basics

  datatype Key = NumBees | NumSites | Limit

  /** The order in which every cycle visits the keys. */
  const KeyOrder: seq<Key> := [NumBees, NumSites, Limit]

  const MaxCycles: nat := 3

  type Params = map<Key, int>
  type Ranges = map<Key, seq<int>>

  /** The map has an entry for each of the three keys. */
  predicate HasAllKeys<V>(m: map<Key, V>) {
    forall k: Key :: k in m
  }

  /** A map with an entry for each key named in the datatype has an entry for every key. */
  lemma ThreeKeysAreAll<V>(m: map<Key, V>)
    requires NumBees in m && NumSites in m && Limit in m
    ensures HasAllKeys(m)
  {
    forall k: Key ensures k in m {
      match k
      case NumBees =>
      case NumSites =>
      case Limit =>
    }
  }

  /** Python's range(start, stop, step) for a positive step. */
  function PyRange(start: int, stop: int, step: int): (r: seq<int>)
    requires step > 0
    ensures forall i :: 0 <= i < |r| ==> r[i] == start + i * step && r[i] < stop
    ensures start < stop ==> r != [] && stop <= r[|r| - 1] + step
    decreases stop - start
  {
    if start >= stop then []
    else
      var rest := PyRange(start + step, stop, step);
      assert forall i :: 1 <= i < |rest| + 1 ==> start + i * step == start + step + (i - 1) * step;
      [start] + rest
  }

  /** The candidate values of each key. */
  function DefaultRanges(): (r: Ranges)
    ensures HasAllKeys(r)
  {
    var m := map[NumBees := PyRange(10, 210, 20), NumSites := PyRange(5, 55, 5), Limit := PyRange(500, 2500, 500)];
    ThreeKeysAreAll(m);
    m
  }

  /** The starting parameters. */
  function DefaultParams(): (p: Params)
    ensures HasAllKeys(p)
  {
    var m := map[NumBees := 100, NumSites := 25, Limit := 1000];
    ThreeKeysAreAll(m);
    m
  }

  /** The vector a candidate is scored with: the current one with only `key` set to `val`. */
  function Trial(params: Params, key: Key, val: int): (t: Params)
    ensures t.Keys == params.Keys + {key} && t[key] == val
    ensures forall k :: k in params && k != key ==> t[k] == params[k]
  {
    params[key := val]
  }

  /**
   * The scan over the candidates of `key`: the value kept so far and its score, starting
   * from the current value with an infinite score and taking a candidate only when its
   * score is strictly below the kept one.
   */
  function Scan(score: Params -> int, params: Params, key: Key, cands: seq<int>): (r: (int, Bound))
    requires key in params
    ensures cands == [] ==> r == (params[key], Infinite)
    ensures cands != [] ==> r.0 in cands && r.1 == Finite(score(Trial(params, key, r.0)))
    decreases |cands|
  {
    if cands == [] then (params[key], Infinite)
    else
      var (v, c) := Scan(score, params, key, cands[..|cands| - 1]);
      var x := cands[|cands| - 1];
      var cost := score(Trial(params, key, x));
      if Below(cost, c) then (x, Finite(cost)) else (v, c)
  }

  /** The value a cycle selects for `key`. */
  function BestValue(score: Params -> int, params: Params, key: Key, cands: seq<int>): int
    requires key in params
  {
    Scan(score, params, key, cands).0
  }

  /**
   * The selected value is the first candidate of least score: every candidate scores at
   * least as much, and every earlier candidate strictly more.
   */
  lemma {:induction false} ScanFindsFirstMinimum(score: Params -> int, params: Params, key: Key, cands: seq<int>)
    returns (i: nat)
    requires key in params && cands != []
    ensures i < |cands| && cands[i] == BestValue(score, params, key, cands)
    ensures forall j :: 0 <= j < |cands| ==> score(Trial(params, key, cands[j])) >= score(Trial(params, key, cands[i]))
    ensures forall j :: 0 <= j < i ==> score(Trial(params, key, cands[j])) > score(Trial(params, key, cands[i]))
    decreases |cands|
  {
    var init := cands[..|cands| - 1];
    var x := cands[|cands| - 1];
    if init == [] {
      i := 0;
    } else {
      var i' := ScanFindsFirstMinimum(score, params, key, init);
      var best := Scan(score, params, key, init);
      if score(Trial(params, key, x)) < score(Trial(params, key, init[i'])) {
        i := |cands| - 1;
        forall j | 0 <= j < |cands| ensures score(Trial(params, key, cands[j])) > score(Trial(params, key, x)) || j == i {
          if j < |cands| - 1 { assert cands[j] == init[j]; }
        }
      } else {
        i := i';
        forall j | 0 <= j < |cands| ensures score(Trial(params, key, cands[j])) >= score(Trial(params, key, cands[i])) {
          if j < |cands| - 1 { assert cands[j] == init[j]; }
        }
        forall j | 0 <= j < i ensures score(Trial(params, key, cands[j])) > score(Trial(params, key, cands[i])) {
          assert cands[j] == init[j];
        }
      }
    }
  }

  /** One cycle over the given keys, in order: each key is set to its selected value. */
  function Sweep(score: Params -> int, ranges: Ranges, params: Params, keys: seq<Key>): (r: Params)
    requires HasAllKeys(params) && HasAllKeys(ranges)
    ensures HasAllKeys(r)
    decreases |keys|
  {
    if keys == [] then params
    else
      var p := Sweep(score, ranges, params, keys[..|keys| - 1]);
      var k := keys[|keys| - 1];
      p[k := BestValue(score, p, k, ranges[k])]
  }

  /** One full cycle: num_bees, then num_sites, then limit. */
  function Cycle(score: Params -> int, ranges: Ranges, params: Params): (r: Params)
    requires HasAllKeys(params) && HasAllKeys(ranges)
    ensures HasAllKeys(r)
  {
    Sweep(score, ranges, params, KeyOrder)
  }

  /**
   * The whole tuning loop with `fuel` cycles still allowed: the final parameters and the
   * number of cycles run. A cycle that changes nothing ends it.
   */
  function Tuned(score: Params -> int, ranges: Ranges, params: Params, fuel: nat): (r: (Params, nat))
    requires HasAllKeys(params) && HasAllKeys(ranges)
    ensures HasAllKeys(r.0) && r.1 <= fuel && (fuel > 0 ==> 1 <= r.1)
    decreases fuel
  {
    if fuel == 0 then (params, 0)
    else
      var next := Cycle(score, ranges, params);
      if next == params then (next, 1)
      else
        var (p, n) := Tuned(score, ranges, next, fuel - 1);
        (p, n + 1)
  }

  /** A cycle, step by step: num_bees is selected first, num_sites against that, then limit. */
  lemma CycleSteps(score: Params -> int, ranges: Ranges, p: Params)
    requires HasAllKeys(p) && HasAllKeys(ranges)
    ensures var p1 := p[NumBees := BestValue(score, p, NumBees, ranges[NumBees])];
            var p2 := p1[NumSites := BestValue(score, p1, NumSites, ranges[NumSites])];
            Cycle(score, ranges, p) == p2[Limit := BestValue(score, p2, Limit, ranges[Limit])]
  {
    var p1 := p[NumBees := BestValue(score, p, NumBees, ranges[NumBees])];
    var p2 := p1[NumSites := BestValue(score, p1, NumSites, ranges[NumSites])];
    assert [NumBees][..0] == [];
    assert Sweep(score, ranges, p, [NumBees]) == p1;
    assert [NumBees, NumSites][..1] == [NumBees];
    assert Sweep(score, ranges, p, [NumBees, NumSites]) == p2;
    assert KeyOrder[..2] == [NumBees, NumSites];
  }

  /**
   * After a cycle every key holds one of its candidates, except a key whose candidate
   * list is empty, which keeps its value.
   */
  lemma CycleValues(score: Params -> int, ranges: Ranges, p: Params)
    requires HasAllKeys(p) && HasAllKeys(ranges)
    ensures forall k: Key :: ranges[k] == [] ==> Cycle(score, ranges, p)[k] == p[k]
    ensures forall k: Key :: ranges[k] != [] ==> Cycle(score, ranges, p)[k] in ranges[k]
  {
    CycleSteps(score, ranges, p);
    forall k: Key | ranges[k] != [] ensures Cycle(score, ranges, p)[k] in ranges[k] {
      match k
      case NumBees =>
      case NumSites =>
      case Limit =>
    }
  }

  /**
   * A cycle changes nothing exactly when every key already holds the value the cycle
   * would select for it.
   */
  lemma CycleFixedPoint(score: Params -> int, ranges: Ranges, p: Params)
    requires HasAllKeys(p) && HasAllKeys(ranges)
    ensures Cycle(score, ranges, p) == p <==>
            forall k: Key :: BestValue(score, p, k, ranges[k]) == p[k]
  {
    CycleSteps(score, ranges, p);
    var p1 := p[NumBees := BestValue(score, p, NumBees, ranges[NumBees])];
    var p2 := p1[NumSites := BestValue(score, p1, NumSites, ranges[NumSites])];
    var p3 := p2[Limit := BestValue(score, p2, Limit, ranges[Limit])];
    if p3 == p {
      assert p3[NumBees] == p1[NumBees];
      assert p1 == p;
      assert p3[NumSites] == p2[NumSites];
      assert p2 == p;
      assert p3[Limit] == BestValue(score, p, Limit, ranges[Limit]);
      forall k: Key ensures BestValue(score, p, k, ranges[k]) == p[k] {
        match k
        case NumBees =>
        case NumSites =>
        case Limit =>
      }
    }
    if forall k: Key :: BestValue(score, p, k, ranges[k]) == p[k] {
      assert p1 == p;
      assert p2 == p;
      assert p3 == p;
    }
  }

  /**
   * A current value that the scan over its key would select again is the first candidate
   * of least score with the other keys fixed.
   */
  lemma SelectedIsCoordinateMinimum(score: Params -> int, p: Params, k: Key, cands: seq<int>)
    returns (i: nat)
    requires k in p && cands != [] && BestValue(score, p, k, cands) == p[k]
    ensures i < |cands| && cands[i] == p[k]
    ensures forall j :: 0 <= j < |cands| ==> score(Trial(p, k, cands[j])) >= score(p)
    ensures forall j :: 0 <= j < i ==> score(Trial(p, k, cands[j])) > score(p)
  {
    i := ScanFindsFirstMinimum(score, p, k, cands);
    assert Trial(p, k, p[k]) == p;
  }

  /**
   * Where a cycle changes nothing, each key holds the first of its candidates of least
   * score with the other keys fixed: a coordinate-wise minimum.
   */
  lemma ConvergedIsCoordinateMinimum(score: Params -> int, ranges: Ranges, p: Params, k: Key)
    returns (i: nat)
    requires HasAllKeys(p) && HasAllKeys(ranges) && Cycle(score, ranges, p) == p && ranges[k] != []
    ensures i < |ranges[k]| && ranges[k][i] == p[k]
    ensures forall j :: 0 <= j < |ranges[k]| ==> score(Trial(p, k, ranges[k][j])) >= score(p)
    ensures forall j :: 0 <= j < i ==> score(Trial(p, k, ranges[k][j])) > score(p)
  {
    CycleFixedPoint(score, ranges, p);
    i := SelectedIsCoordinateMinimum(score, p, k, ranges[k]);
  }

  /**
   * Tuning leaves every key at one of its candidates (or, with no candidates, at its
   * starting value); at least one cycle always runs.
   */
  lemma {:induction false} TunedValues(score: Params -> int, ranges: Ranges, p: Params, fuel: nat)
    requires HasAllKeys(p) && HasAllKeys(ranges) && fuel >= 1
    ensures forall k: Key :: ranges[k] == [] ==> Tuned(score, ranges, p, fuel).0[k] == p[k]
    ensures forall k: Key :: ranges[k] != [] ==> Tuned(score, ranges, p, fuel).0[k] in ranges[k]
    decreases fuel
  {
    var next := Cycle(score, ranges, p);
    CycleValues(score, ranges, p);
    if next != p && fuel > 1 {
      TunedValues(score, ranges, next, fuel - 1);
    }
  }

  /** Tuning that ends before its last allowed cycle ends on a cycle that changed nothing. */
  lemma {:induction false} TunedStopsOnlyWhenConverged(score: Params -> int, ranges: Ranges, p: Params, fuel: nat)
    requires HasAllKeys(p) && HasAllKeys(ranges)
    ensures var (r, n) := Tuned(score, ranges, p, fuel);
            n < fuel ==> Cycle(score, ranges, r) == r
    decreases fuel
  {
    if fuel > 0 && Cycle(score, ranges, p) != p {
      TunedStopsOnlyWhenConverged(score, ranges, Cycle(score, ranges, p), fuel - 1);
    }
  }

  /**
   * When every key's only candidate is its current value, tuning stops after exactly one
   * cycle and returns the parameters unchanged.
   */
  lemma SingletonRangesStopAfterOneCycle(score: Params -> int, ranges: Ranges, p: Params, fuel: nat)
    requires HasAllKeys(p) && HasAllKeys(ranges) && fuel >= 1
    requires forall k: Key :: ranges[k] == [p[k]]
    ensures Tuned(score, ranges, p, fuel) == (p, 1)
  {
    forall k: Key ensures BestValue(score, p, k, ranges[k]) == p[k] {
      assert ranges[k][..0] == [];
    }
    CycleFixedPoint(score, ranges, p);
  }

  /**
   * The default num_bees of 100 is not among its candidates 10, 30, ..., 190, yet every
   * tuning replaces it, because the first candidate always beats the infinite starting score.
   */
  lemma DefaultNumBeesIsReplaced(score: Params -> int)
    ensures DefaultParams()[NumBees] !in DefaultRanges()[NumBees]
    ensures Tuned(score, DefaultRanges(), DefaultParams(), MaxCycles).0[NumBees] in DefaultRanges()[NumBees]
  {
    TunedValues(score, DefaultRanges(), DefaultParams(), MaxCycles);
    var bees := PyRange(10, 210, 20);
    assert DefaultRanges()[NumBees] == bees;
    assert 100 !in bees by {
      forall i | 0 <= i < |bees| ensures bees[i] != 100 {
        assert bees[i] == 10 + i * 20;
      }
    }
  }

  /** A sweep over some keys leaves every other key as it was. */
  lemma {:induction false} SweepLeavesOtherKeys(score: Params -> int, ranges: Ranges, p: Params, keys: seq<Key>, k: Key)
    requires HasAllKeys(p) && HasAllKeys(ranges) && k !in keys
    ensures Sweep(score, ranges, p, keys)[k] == p[k]
    decreases |keys|
  {
    if keys != [] {
      SweepLeavesOtherKeys(score, ranges, p, keys[..|keys| - 1], k);
    }
  }

  /** The tuner object: the candidate lists, the current parameters and the best ones found. */
  class ParameterTuner {
    var paramRanges: Ranges
    var currentParams: Params
    var bestParams: Params

    /** Every key has candidates and a value; the best parameters are always the committed ones. */
    ghost predicate Valid()
      reads this
    {
      HasAllKeys(paramRanges) && HasAllKeys(currentParams) && bestParams == currentParams
    }

    constructor ()
      ensures Valid()
      ensures paramRanges == DefaultRanges() && currentParams == DefaultParams()
    {
      paramRanges := DefaultRanges();
      currentParams := DefaultParams();
      bestParams := DefaultParams();
    }

    /**
     * The scan over one key's candidates: each is scored in a copy of the current
     * parameters, and the first of strictly least score is kept. Changes nothing.
     */
    method SelectValue(score: Params -> int, key: Key) returns (bestValForKey: int)
      requires Valid()
      ensures bestValForKey == BestValue(score, currentParams, key, paramRanges[key])
    {
      bestValForKey := currentParams[key];
      var bestCostForKey := Infinite;
      var candidates := paramRanges[key];
      for v := 0 to |candidates|
        invariant (bestValForKey, bestCostForKey) == Scan(score, currentParams, key, candidates[..v])
      {
        var val := candidates[v];
        var testParams := currentParams[key := val];
        var cost := score(testParams);
        assert candidates[..v + 1][..v] == candidates[..v];
        if Below(cost, bestCostForKey) {
          bestCostForKey := Finite(cost);
          bestValForKey := val;
        }
      }
      assert candidates[..|candidates|] == candidates;
    }

    /**
     * One cycle: each key in turn is set to its selected value, committing (and copying
     * to the best parameters) only a value that differs. Reports whether anything changed.
     */
    method RunCycle(score: Params -> int) returns (changed: bool)
      requires Valid()
      modifies this`currentParams, this`bestParams
      ensures Valid() && currentParams == Cycle(score, paramRanges, old(currentParams))
      ensures changed <==> currentParams != old(currentParams)
    {
      changed := false;
      for j := 0 to |KeyOrder|
        invariant Valid()
        invariant currentParams == Sweep(score, paramRanges, old(currentParams), KeyOrder[..j])
        invariant changed <==> currentParams != old(currentParams)
      {
        var key := KeyOrder[j];
        var bestValForKey := SelectValue(score, key);
        assert KeyOrder[..j + 1][..j] == KeyOrder[..j];
        if bestValForKey != currentParams[key] {
          SweepLeavesOtherKeys(score, paramRanges, old(currentParams), KeyOrder[..j], key);
          currentParams := currentParams[key := bestValForKey];
          changed := true;
          bestParams := currentParams;
        } else {
          assert currentParams[key := bestValForKey] == currentParams;
        }
      }
      assert KeyOrder[..|KeyOrder|] == KeyOrder;
    }

    /**
     * Coordinate descent: cycles until one changes nothing or three have run. The result,
     * and the number of cycles, are those of Tuned.
     */
    method Tune(score: Params -> int) returns (result: Params, ghost cycles: nat)
      requires Valid()
      modifies this`currentParams, this`bestParams
      ensures Valid() && result == bestParams && result == currentParams
      ensures (result, cycles) == Tuned(score, paramRanges, old(currentParams), MaxCycles)
    {
      var changed := true;
      var cycle := 0;
      while changed && cycle < MaxCycles
        invariant Valid() && cycle <= MaxCycles
        invariant cycle == 0 ==> changed
        invariant changed ==>
                    var t := Tuned(score, paramRanges, currentParams, MaxCycles - cycle);
                    Tuned(score, paramRanges, old(currentParams), MaxCycles) == (t.0, cycle + t.1)
        invariant !changed ==> Tuned(score, paramRanges, old(currentParams), MaxCycles) == (currentParams, cycle)
        decreases MaxCycles - cycle
      {
        cycle := cycle + 1;
        changed := RunCycle(score);
      }
      result := bestParams;
      cycles := cycle;
    }
  }
}
