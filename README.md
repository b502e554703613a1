# Bee-colony TSP solver and its hyperparameter tuner, in Dafny

This project models `solver.py`, a heuristic solver for the travelling salesman problem
over a directed integer distance table. It also proves properties of that model.

- **Tour cost** (`Tours`). `TourCost` is the closed-tour length: the sum of the edges
  between consecutive cities plus the wrap-around edge from the last city back to the
  first. The table is an explicit parameter. It is any square table of at least two
  cities, with a zero diagonal and off-diagonal entries in [5, 150]; those are the values
  `randint(5, 151)` can draw, because its upper bound is exclusive. The one-swap
  neighbour move `Swapped` exchanges two positions of a copy of a tour.
- **Optimizer** (`BeeColony`, class `BeeTsp`). A population of tours ("sites") keeps
  cached costs. Each round has two phases:
  - an exploitation phase gives every site one swap, kept only if strictly cheaper;
  - an onlooker phase runs `num_bees - num_sites` more swaps, aimed at the
    `max(1, num_sites // 2)` cheapest sites as ranked once after exploitation. Each swap
    is judged against that site's cost as it stands at that moment.
  
  The incumbent (`best_solution`, `best_cost`) and the per-round `history` are fields of
  the object. Every random draw is an input:
  - the initial permutations;
  - the two distinct positions of each swap;
  - each onlooker's pick among the elite;
  - the cost-sorted index order that `np.argsort` returns, as a function `rank`.
  
  Every property is proved for all draws.
- **Objective** (`Objective.Evaluate`). Three optimizer runs on fresh objects with one
  parameter vector, collecting the final history entry of each.
- **Tuner** (`Tuning`, class `ParameterTuner`). Coordinate descent over `num_bees`,
  `num_sites` and `limit`, in that order. For each key it scores every candidate with the
  other keys held at their current values. It keeps the first candidate of strictly least
  score and commits it when it differs from the current value. It stops after a cycle
  that changed nothing, or after three cycles.
  - The objective is an arbitrary caller-supplied integer function `score`. Only its
    order matters, and the mean of three integer costs orders vectors as their sum does.
  - The whole loop is specified by the functions `Scan`, `Sweep`, `Cycle` and `Tuned`.
    The methods are proved equal to them, and the lemmas are proved about them.

`Bound` stands for a cost that may still be `float('inf')`. `Option` stands for a
`best_solution` that may still be `None`.

## Model

| member | source | states |
|---|---|---|
| Tours.TourCost | solver.py:10-15 | the closed-tour cost of n cities lies between 0 and 150·n, and between 5·n and 150·n when the path is a tour (every edge joins two different cities) |
| Tours.PathCostBounds | solver.py:11-13 | the open path p[0]→…→p[k] costs between 0 and 150·k, and at least 5·k when its cities are distinct |
| Tours.PathCostFront | solver.py:11-13 | the open-path cost is the first edge plus the cost of the path from the second city |
| Tours.PathCostPrefix | solver.py:11-13 | an open path's cost depends only on the cities it passes through |
| Tours.RotateLeft | solver.py:10-15 | starting a tour from its second city keeps its length and its multiset of cities |
| Tours.TourCostRotation | solver.py:10-15 | a closed tour costs the same whichever city it starts from, so the wrap-around edge is counted exactly once |
| Tours.Swapped | solver.py:43-45 | the copy holds p[b] at position a and p[a] at position b, equals p at every other position, and has the same length and multiset of cities |
| Tours.SwapKeepsTour | solver.py:43-45 | swapping two distinct positions of a permutation of 0..n-1 yields another permutation of 0..n-1 |
| Basics.AppendKeepsNonIncreasing | solver.py:76 | appending a cost no larger than the last entry keeps the history non-increasing |
| BeeColony.EliteCount | solver.py:59 | `max(1, num_sites // 2)` is at least 1, and at most num_sites when there is a site |
| BeeColony.Perturb | solver.py:43-49 | the site's new tour and cost are consistent; the cost never rises; it falls exactly when the swapped copy is strictly cheaper, and then the copy is kept; otherwise the site is unchanged |
| BeeColony.Visit | solver.py:43-52 | one perturbation of site i keeps the search consistent, changes no other site, and lowers the incumbent to the site's new cost exactly when that is cheaper, making the site's tour the incumbent |
| BeeColony.Exploit | solver.py:42-52 | exploitation from site i on keeps every site a tour with its true cost and the number of sites; the incumbent never gets dearer, and stays the same tour while its cost stays the same |
| BeeColony.ExploitPerturbsEachSite | solver.py:42-49 | after exploitation from site i on, each site from i on holds exactly what its own perturbation leaves, and the sites before i are untouched |
| BeeColony.ExploitIncumbentIsASite | solver.py:47-52 | after exploitation from site i on, the incumbent keeps its cost or is one of the perturbed sites, with that site's cost |
| BeeColony.ExploitationIsExploited | solver.py:42-52 | a whole exploitation phase leaves each site holding its own perturbation; the incumbent never gets dearer, is the same tour while its cost is unchanged, and is otherwise one of the sites |
| BeeColony.ExploitationPhase | solver.py:42-52 | the loop over the sites ends in exactly the state exploitation from site 0 gives |
| BeeColony.EliteIsCheapest | solver.py:57-59 | the first m entries of a cost ranking are sites no dearer than any site left out of them |
| BeeColony.ApplyOnlookers | solver.py:61-74 | onlookers applied in order keep the search consistent, never raise a cost or the incumbent, and leave every site outside the elite untouched |
| BeeColony.RunOnlookers | solver.py:61-74 | the onlooker loop ends in exactly the state `ApplyOnlookers` specifies, each onlooker judged against its site's current cost |
| BeeColony.OnlookerPhase | solver.py:54-74 | with num_bees ≤ num_sites nothing changes; otherwise the phase applies its num_bees − num_sites onlookers to the elite prefix of the ranking taken after exploitation; no cost and not the incumbent ever rises |
| BeeColony.Advance | solver.py:41-74 | a round keeps every site a tour with its true cost, keeps num_sites sites, and never raises the incumbent's cost |
| BeeColony.RunRound | solver.py:41-74 | a round is exploitation, giving an intermediate state, followed by the onlookers: none when num_bees ≤ num_sites, otherwise `ApplyOnlookers` on the elite prefix of the ranking of the post-exploitation costs. In the intermediate state each site holds its own perturbation, the incumbent is no dearer, is the same tour while its cost is unchanged, and is otherwise one of the sites |
| BeeColony.RoundNeverRaisesCosts | solver.py:41-74 | no site's cost is higher after a round than before it |
| BeeColony.RoundsExtend | solver.py:41-76 | a run over the first `it` rounds followed by round `it` is a run over the first `it + 1` rounds |
| BeeColony.Incumbents | solver.py:76 | the list of incumbent costs has one entry per round, and entry i is the best cost after round i |
| BeeColony.IncumbentsAppend | solver.py:76 | appending a round's best cost to a history that lists the incumbents so far gives the history that lists them including that round |
| BeeColony.BeeTsp.constructor | solver.py:18-24 | a new optimizer has no incumbent, an infinite best cost and an empty history |
| BeeColony.BeeTsp.SeedPopulation | solver.py:32-39 | the population is the initial permutations with their costs; the incumbent is no dearer than any site or the previous incumbent, and on an object with no incumbent yet it is one of the initial permutations, hence the cheapest of them |
| BeeColony.BeeTsp.RecordRound | solver.py:76 | the round's incumbent is recorded and its cost appended to the history, which stays non-increasing |
| BeeColony.BeeTsp.Step | solver.py:41-76 | one round of the run loop: the state after it follows from the state before it by one round with that round's draws; the incumbent fields take the new incumbent; the history gains exactly that incumbent's cost |
| BeeColony.BeeTsp.RunRounds | solver.py:41-80 | the states of the run loop are a run over the given rounds from the seeded state; the history grows by exactly the incumbent cost after each round, and the fields end on the last state's incumbent |
| BeeColony.BeeTsp.Run | solver.py:26-81 | the states passed through are a run from the initial permutations, one round per entry of `rounds`, and with no earlier incumbent the seeded incumbent is the first cheapest initial tour; history entry i is the best cost after round i; the result is the last state's incumbent, a tour whose cost is the best cost; the history grows by exactly `limit` entries, stays non-increasing, and ends with the result's cost; the result is no dearer than any initial tour or any earlier incumbent |
| Objective.FinalCost | solver.py:101-103 | one run on a fresh optimizer returns the final incumbent cost of a run from its initial permutations over its rounds: a tour cost in [5·n, 150·n] no dearer than any initial tour |
| Objective.Evaluate | solver.py:98-104 | three runs on fresh optimizers give three costs, each the final incumbent cost of its own run over its own draws, a tour cost in [5·n, 150·n] and no dearer than any tour of its run's initial population; the total is their sum |
| Tuning.PyRange | solver.py:86-88 | `range(start, stop, step)` for a positive step: the i-th entry is start + i·step and lies below stop, and a non-empty range reaches within one step of stop |
| Tuning.DefaultRanges | solver.py:85-89 | the candidate lists have an entry for each of the three keys |
| Tuning.DefaultParams | solver.py:90-94 | the starting parameters have a value for each of the three keys |
| Tuning.Trial | solver.py:124-125 | a test vector differs from the current parameters only at the key under test, where it holds the candidate |
| Tuning.Scan | solver.py:120-132 | with no candidates the current value is kept with an infinite score; otherwise the kept value is a candidate and its score is that candidate's |
| Tuning.ScanFindsFirstMinimum | solver.py:123-132 | the selected value is the first candidate of least score: no candidate scores less, and every earlier candidate scores strictly more |
| Tuning.Sweep | solver.py:118-140 | sweeping keys keeps a value for every key |
| Tuning.SweepLeavesOtherKeys | solver.py:118-138 | a sweep over some keys leaves every other key as it was |
| Tuning.Cycle | solver.py:118-140 | a cycle keeps a value for every key |
| Tuning.CycleSteps | solver.py:118-138 | a cycle selects num_bees first, then num_sites with the new num_bees, then limit with both new values |
| Tuning.CycleValues | solver.py:119-138 | after a cycle every key holds one of its candidates, or its old value if it has none |
| Tuning.CycleFixedPoint | solver.py:134-137 | a cycle changes nothing exactly when every key already holds the value the cycle would select for it |
| Tuning.SelectedIsCoordinateMinimum | solver.py:120-134 | a current value that the scan over its key selects again is the first candidate of least score, with the other keys fixed |
| Tuning.ConvergedIsCoordinateMinimum | solver.py:113-140 | where a cycle changes nothing, each key's value is the first candidate of least score with the other keys fixed |
| Tuning.Tuned | solver.py:107-116 | tuning runs at least one and at most the allowed number of cycles |
| Tuning.TunedValues | solver.py:113-140 | after tuning every key holds one of its candidates, or its starting value if it has none |
| Tuning.TunedStopsOnlyWhenConverged | solver.py:113-116 | tuning that ends before its last allowed cycle ends on parameters a cycle leaves unchanged |
| Tuning.SingletonRangesStopAfterOneCycle | solver.py:113-140 | when every key's only candidate is its current value, tuning stops after exactly one cycle with the parameters unchanged |
| Tuning.DefaultNumBeesIsReplaced | solver.py:86-91 | the default num_bees of 100 is not among its candidates, yet tuning always replaces it with one of them, because the first candidate beats the infinite starting score |
| Tuning.ParameterTuner.constructor | solver.py:84-96 | a new tuner holds the default ranges and parameters, and the best parameters equal the current ones |
| Tuning.ParameterTuner.SelectValue | solver.py:120-132 | the scan over one key's candidates returns the value `Scan` selects and changes nothing |
| Tuning.ParameterTuner.RunCycle | solver.py:114-140 | one cycle sets the current parameters to `Cycle` of the old ones, keeps the best parameters equal to them, and reports a change exactly when they differ |
| Tuning.ParameterTuner.Tune | solver.py:106-143 | the returned parameters, and the number of cycles run, are those `Tuned` gives for three cycles; the returned vector is both the best and the current parameters |

## Left out

- The graphical shell, its worker threads and plotting, and the command-line drivers are
  not part of this model: they only construct and run the optimizer or the tuner.
- The table is not generated. `np.random.seed` and `randint` (solver.py:6-8) are replaced
  by the properties of the resulting table (`IsTable`), for any n ≥ 2 instead of 300.
- The pseudo-random generators are left out. `np.random.permutation`, `random.sample` and
  `random.choice` become injected draws that satisfy their contracts. `np.argsort` becomes
  a caller-supplied `rank` that returns some cost-sorted index order; the order among
  equal costs is left open.
- The progress callback every 10th round and the tuner's log lines are not modelled.
  Neither influences any result.
- The `time` import and the unused `best_global_cost` field are not modelled.
- Tuning.ParameterTuner.Tune: the objective is an arbitrary integer `score`, not the float
  mean of three runs. `Objective.Evaluate` returns the integer sum of the three final
  costs; dividing by three does not change the order, so the selected values are the same.
- Tuning.ParameterTuner.Tune: the score is one fixed function, so a vector scored twice
  gets the same score both times. The source's `evaluate` makes three fresh random runs
  on every call, so a repeated vector can score differently. Vectors are scored again
  within a cycle: the num_bees winner is the current candidate of the num_sites scan.
  They are also scored again across cycles. The equality with `Tuned`, and the lemmas
  `CycleFixedPoint`, `ConvergedIsCoordinateMinimum` and
  `SingletonRangesStopAfterOneCycle`, describe only runs in which repeated scores of the
  same vector agree. For example, in the source a third cycle that re-scores exactly the
  vectors of the second can still change num_bees; in the model it changes nothing.
- BeeColony.BeeTsp.Run: it requires `num_sites >= 1`. With no sites the source either
  returns a `None` tour with an infinite history, or fails in `random.choice` on an empty
  elite list.
- Objective.Evaluate: it requires `limit >= 1` and `num_sites >= 1`. With an empty
  history the source's `history[-1]` fails.
- BeeColony.BeeTsp.Run: the optimizer's population and costs are sequence values threaded
  through one round as a `Search` value. The incumbent fields are written back at the end
  of each round, not at each improvement inside it. Nothing observes the fields
  mid-round once the callback is left out, so the results are the same.
- Tours are values, so the copy-then-swap of the source holds by construction. The model
  does not describe NumPy array aliasing; the source never mutates a stored tour in place.
- Parameters are natural numbers. Negative `num_bees`, `num_sites` or `limit` are not modelled.
- No lemma compares whole runs with different `num_bees`. Such runs draw different
  numbers of random values per round, so their draws differ from the first round on.
  Within one round, the onlooker phase never raises a site's cost or the incumbent
  (`OnlookerPhase`).
- `limit = 0` gives an empty history, as in the source; `Run` allows it.
- Objective.Evaluate: the loop over `range(3)` is written out as three calls of
  `FinalCost`, one per iteration.
