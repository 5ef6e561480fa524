# cpsat-autotune: the evaluation-and-selection engine, in Dafny

This project models the part of cpsat-autotune that turns noisy CP-SAT solver
runs into tuning decisions. It does not model the part that calls the solver
or drives Optuna. The modelled parts are:

- **`CachingScorer` and `MultiResult`** (module `CachingSolver`, class
  `CachingScorer`): a memo table from a normalised parameter assignment to an
  append-only list of scores.
  - Fixed parameters are stripped before keying.
  - List and tuple values are keyed as sorted tuples.
  - `evaluate` tops an entry up to `num_runs` runs.
  - A knockout threshold stops sampling early. The caller then gets a copy
    flattened to the worst score.
- **Metrics** (module `Metrics`): the direction check, the three-way
  comparison `comp`, and `best`/`worst`. Also the rule by which each concrete
  metric turns a solver outcome into a score, and its `knockout_score`.
- **Leave-one-out pruning** (module `ParameterEvaluator`, class
  `ParameterEvaluator`):
  - the acceptance threshold `(worst + mean) / 2`;
  - the sweep that keeps only parameters whose removal hurts;
  - normalisation of the contributions;
  - the revert rule.
- **The per-trial objective** (module `Objective`, class `OptunaCpSatStrategy`):
  the baseline, the knockout threshold `max + 0.1·spread` (minimize) or
  `min − 0.1·spread` (maximize), the trial's score, and `best_params`.
- **Parameter descriptors** (module `Parameters`): constructor checks,
  defaults, and conversions between the Optuna side and the CP-SAT side. A list
  parameter becomes one boolean flag per value. An ordered-list parameter is
  stored as an index. Also `sample` over a fixed trial.
- **The parameter space** (module `ParameterSpace`, class `CpSatParameterSpace`):
  `fix_parameter`, `sample` with its count of changed parameters and pruning,
  the Optuna default map, the diff against the CP-SAT defaults, and the
  distance to the defaults.
- **The descriptor table** (module `CpSatParameters`): `CPSAT_PARAMETERS` and
  `get_parameter_by_name`.

Module `Values` holds the Python value model:
- scalars, lists and tuples (a list never equals a tuple, as in Python);
- `Result` with the Python exception kinds;
- the sort used for list keys;
- Python indexing, `list.index` and `in`.

How the model treats the outside world:
- **Solver runs** are an opaque function `solve(assignment, runIndex)`. It
  returns a status, an objective value and a wall time. The scorer counts its
  runs, so every run has its own index, standing for its random seed.
- **Scores** are `real`.
- **An Optuna trial** is a fixed map from search dimension to value, as with
  `optuna.trial.FixedTrial`. Each dimension is `Plain(name)` or
  `Flag(name, value)`; the latter stands for `"name:value"`.
- **`solver.parameters`** is a map from parameter name to value.

The imperative parts are Dafny classes whose methods carry the source's loops:
- `CachingScorer.Evaluate` with `EvaluateStored` and `SampleMissing`;
- `ParameterEvaluator.Evaluate` with `SweepVariants` and `Finish`;
- `CpSatParameterSpace.Sample`, `FixParameter`, `GetDefaultParamsForOptuna`
  and `GetCpSatParamsDiff`;
- `Parameters.SampleList`.

Each method is proved equal to a specification function, for example
`EvaluateSpec`, `EvaluateParams`, `SpaceSample` or `ParamsDiff`. The lemmas
state the source's promises about those functions.

Where the code and its comments disagree, the model follows the code:
- `MinObjective`'s docstring says the value is negated internally. The code
  returns the raw objective, and so does `Metrics.Score`.
- A knockout result has as many scores as observations made so far, not
  `num_runs`.

Other points where the model departs from the literal call:
- `objective.py` passes the `CpSolver` returned by `parameter_space.sample`
  to `scorer.evaluate`, which expects a dictionary. `TrialSpecAsWritten`
  models that call (it raises AttributeError, see "## Findings"). `TrialSpec`
  and the class methods model the intended call, which passes the sampled
  parameter assignment.
- `tune.py` builds `ParameterEvaluator` with keyword arguments that its
  constructor does not accept. The model keeps the constructor as written in
  `parameter_evaluator.py`.

## Model

| member | source | states |
|---|---|---|
| Metrics.ParseDirection | src/cpsat_autotune/metrics.py:20-23 | succeeds exactly for "minimize" and "maximize", each giving its own direction; every other string raises ValueError |
| Metrics.Comp | src/cpsat_autotune/metrics.py:45-62 | EQUAL iff the values are equal; BETTER iff a > b under maximize or a < b under minimize; WORSE iff the opposite strict order holds |
| Metrics.CompAntisymmetric | src/cpsat_autotune/metrics.py:45-62 | comp(a,b) is BETTER iff comp(b,a) is WORSE, and EQUAL iff comp(b,a) is EQUAL |
| Metrics.NoBetterThanTransitive | src/cpsat_autotune/metrics.py:45-62 | "WORSE or EQUAL" is transitive |
| Metrics.BestIndex | src/cpsat_autotune/metrics.py:33-37 | on a non-empty list, picks an index no element beats; every earlier element is strictly beaten by it, so it is the first best one (Python `max` semantics) |
| Metrics.WorstIndex | src/cpsat_autotune/metrics.py:39-43 | picks an index that beats no element; every earlier element strictly beats it (Python `min` semantics) |
| Metrics.Best | src/cpsat_autotune/metrics.py:33-37 | a member of the list that no member beats under the direction |
| Metrics.Worst | src/cpsat_autotune/metrics.py:39-43 | a member of the list that beats no member under the direction |
| Metrics.WorstNoBetterThanBest | src/cpsat_autotune/metrics.py:33-43 | the worst element is never better than the best one |
| Metrics.BestWorstExample | src/cpsat_autotune/metrics.py:33-43 | under minimize best([3,1,2]) = 1 and worst = 3; under maximize they swap |
| Metrics.DirectionOf | src/cpsat_autotune/metrics.py:69-153 | each concrete metric's direction string passes the constructor check; MaxObjective is the only maximizing metric, MinObjective and MinTimeToOptimal minimize |
| Metrics.Score | src/cpsat_autotune/metrics.py:84-176 | a run that counts as solved (OPTIMAL or FEASIBLE for the objective metrics, OPTIMAL for time-to-optimal) scores its measurement (objective value or elapsed seconds); any other run scores exactly the metric's knockout score |
| Metrics.ProvenRunBeatsCutoff | src/cpsat_autotune/metrics.py:170-176 | for MinTimeToOptimal with multiplier ≥ 1, a run proven optimal within the time limit compares BETTER than any run that was not |
| CachingSolver.Max | src/cpsat_autotune/caching_solver.py:21-22 | an element of the scores that bounds all of them from above |
| CachingSolver.Min | src/cpsat_autotune/caching_solver.py:24-25 | an element of the scores that bounds all of them from below |
| CachingSolver.Spread | src/cpsat_autotune/caching_solver.py:27-28 | max − min is never negative on a non-empty list |
| CachingSolver.MeanWithin | src/cpsat_autotune/caching_solver.py:12-13 | the mean lies within any bounds that hold for every score |
| CachingSolver.MeanBetweenMinAndMax | src/cpsat_autotune/caching_solver.py:12-28 | min ≤ mean ≤ max |
| CachingSolver.WorstIsExtreme | src/cpsat_autotune/metrics.py:39-43 | worst is the maximum under minimize and the minimum under maximize |
| CachingSolver.AsKnockoutResult | src/cpsat_autotune/caching_solver.py:36-37 | the copy keeps the params and the length; every score equals the worst score of the original |
| CachingSolver.KnockoutResultCollapses | src/cpsat_autotune/caching_solver.py:36-37 | the knockout copy's mean, worst and best all equal the original's worst score, and its spread is 0 |
| CachingSolver.ConstantCollapses | src/cpsat_autotune/caching_solver.py:12-28 | on a constant list, mean, worst, best, max and min all equal that constant |
| CachingSolver.KeyEqualIff | src/cpsat_autotune/caching_solver.py:58-71 | two assignments get the same key iff their maps agree once each list or tuple value is replaced by the sorted tuple |
| CachingSolver.KeyIgnoresOrder | src/cpsat_autotune/caching_solver.py:58-71 | assignments with the same names whose values differ only in element order, or in list versus tuple, get the same key |
| CachingSolver.KeyExample | src/cpsat_autotune/caching_solver.py:58-71 | {"a": [2, 1]} and {"a": (1, 2)} share a key |
| CachingSolver.RemoveFixed | src/cpsat_autotune/caching_solver.py:73-78 | keeps exactly the names not fixed, with their values unchanged |
| CachingSolver.SampleRuns | src/cpsat_autotune/caching_solver.py:117-126 | the loop makes between 0 and n runs and appends one score per run; without a knockout it makes all n; it knocks out only when a threshold is given |
| CachingSolver.SampleRunsAppends | src/cpsat_autotune/caching_solver.py:117-121 | the prior scores stay a prefix, and each new score is the score of the next run index, in order |
| CachingSolver.SampleRunsKnockout | src/cpsat_autotune/caching_solver.py:122-126 | a knockout means a threshold was given and the last appended score is WORSE or EQUAL to it; every earlier new score is strictly better than the threshold |
| CachingSolver.Results | src/cpsat_autotune/caching_solver.py:130-131 | the cached results, one per key, in insertion order |
| CachingSolver.EvaluatePreservesValid | src/cpsat_autotune/caching_solver.py:96-128 | evaluate keeps the cache invariant: keys listed once in insertion order, each entry non-empty, stored under its own key and free of fixed parameters |
| CachingSolver.EvaluateWithEnoughScores | src/cpsat_autotune/caching_solver.py:110-112 | with at least num_runs stored scores, the stored result is returned and the state is unchanged |
| CachingSolver.EvaluateCachedKnockout | src/cpsat_autotune/caching_solver.py:113-116 | a non-empty stored result whose worst is WORSE or EQUAL to the threshold yields its flattened copy, with no run and no state change |
| CachingSolver.EvaluateRunsBounded | src/cpsat_autotune/caching_solver.py:117-118 | runs only grow, and at most num_runs − len(stored) are made |
| CachingSolver.EvaluateLeavesOtherEntries | src/cpsat_autotune/caching_solver.py:117-127 | every other cache entry is untouched, and no key other than this one is added |
| CachingSolver.EvaluateAppendsRuns | src/cpsat_autotune/caching_solver.py:117-121 | when the state changes, the entry under the key keeps its params and has the stored scores as a prefix, followed by one score per new run in run order |
| CachingSolver.EvaluateKnockoutWhileSampling | src/cpsat_autotune/caching_solver.py:122-126 | a knockout during sampling stores the raw list, whose last score is WORSE or EQUAL to the threshold and whose earlier new scores are better; it returns that list flattened to its worst, with as many entries as observations made |
| CachingSolver.EvaluateWithoutKnockout | src/cpsat_autotune/caching_solver.py:117-128 | without a knockout the result has at least num_runs scores; when sampling happened it has exactly num_runs and is what the cache stores |
| CachingSolver.EvaluateResultUsable | src/cpsat_autotune/caching_solver.py:108-128 | for num_runs ≥ 1 the result is non-empty and holds no fixed parameter |
| CachingSolver.EvaluateAgain | src/cpsat_autotune/caching_solver.py:110-116 | a repeated call leaves the state as the first one left it and returns the same result, except after a knockout on the last run, when it returns the stored raw list |
| CachingSolver.EvaluateAgainFewer | src/cpsat_autotune/caching_solver.py:110-116 | a later call asking for no more runs than an earlier one makes no run and leaves the state as the earlier one left it; it returns the earlier result, or after a knockout the stored raw list when that already holds enough scores |
| CachingSolver.AtAgainFewer | src/cpsat_autotune/caching_solver.py:110-127 | the same for the body of `evaluate`, given the key and the starting result |
| CachingSolver.EvaluateKeepsSettledEntry | src/cpsat_autotune/caching_solver.py:110-127 | a cached result that already holds the requested number of scores is unchanged by an evaluation of any assignment with that count |
| CachingSolver.EvaluateGrowsMonotonically | src/cpsat_autotune/caching_solver.py:110-121 | without knockout, asking for more runs later extends the earlier result, which stays a prefix |
| CachingSolver.ResultsAreNonEmpty | src/cpsat_autotune/caching_solver.py:130-131 | iterating a valid cache yields only non-empty results |
| CachingSolver.CachingScorer.constructor | src/cpsat_autotune/caching_solver.py:44-56 | the cache is empty, the fixed parameters are copied in, and the direction is the metric's |
| CachingSolver.CachingScorer.Evaluate | src/cpsat_autotune/caching_solver.py:96-128 | the loop's result and new cache equal EvaluateSpec of the old cache, and the cache invariant is kept |
| CachingSolver.CachingScorer.EvaluateStored | src/cpsat_autotune/caching_solver.py:110-128 | the steps after the lookup equal EvaluateAt on the old state |
| CachingSolver.CachingScorer.SampleMissing | src/cpsat_autotune/caching_solver.py:117-126 | the sampling loop produces exactly SampleRuns from the current run index |
| CachingSolver.CachingScorer.Iterate | src/cpsat_autotune/caching_solver.py:130-131 | every result yielded is non-empty |
| Objective.ThresholdNoBetterThanWorst | src/cpsat_autotune/objective.py:37-41 | the threshold exists iff the baseline is non-empty; it is never better than the baseline's worst run, and equals it iff the spread is 0 |
| Objective.ThresholdExample | src/cpsat_autotune/objective.py:37-41 | the baseline [10,12,11,13,10] gives 13.3 under minimize and 9.7 under maximize |
| Objective.KnockedOutMeanNoBetterThanThreshold | src/cpsat_autotune/objective.py:42-47 | a knocked-out trial's mean is WORSE or EQUAL to the threshold |
| Objective.TrialValueExplained | src/cpsat_autotune/objective.py:31-47 | for the intended call (the sampled assignment passed to `evaluate`): a trial's value exists only when sampling succeeded and the baseline is non-empty; it is then either no better than the baseline's worst run, or the mean of the trial's cached result with at least n_samples_for_trial runs |
| Objective.AsWrittenTrialNeverScores | src/cpsat_autotune/objective.py:35-46 | the call as written (the solver from `sample` passed to `evaluate`) never yields a value: it agrees with the intended call up to the threshold, then raises AttributeError with the baseline cached, where the intended call on a consistent cache with at least one trial run returns a score |
| Objective.Means | src/cpsat_autotune/objective.py:49-55 | the mean of each result, in order |
| Objective.BestByMean | src/cpsat_autotune/objective.py:49-55 | fails with ValueError iff there are no results; otherwise returns a result whose mean no other result beats, the first such |
| Objective.OptunaCpSatStrategy.constructor | src/cpsat_autotune/objective.py:11-23 | stores the space, the scorer and the sample counts; direction and metric come from the scorer |
| Objective.OptunaCpSatStrategy.GetBaseline | src/cpsat_autotune/objective.py:25-29 | evaluates the empty assignment with n_samples_for_verification runs |
| Objective.OptunaCpSatStrategy.Call | src/cpsat_autotune/objective.py:31-47 | the value and new cache equal TrialSpec, the intended call: sample, baseline, threshold, the sampled assignment evaluated with knockout, mean |
| Objective.OptunaCpSatStrategy.EvaluateAgainstBaseline | src/cpsat_autotune/objective.py:36-47 | the steps after sampling equal ScoreAgainstBaseline, with the sampled assignment as the trial |
| Objective.OptunaCpSatStrategy.ScoreSampled | src/cpsat_autotune/objective.py:42-47 | evaluates the sampled assignment (the intended argument) with n_samples_for_trial runs and the threshold, and returns the mean |
| ParameterEvaluator.Variant | src/cpsat_autotune/parameter_evaluator.py:91 | the variant's names are the params' names minus the one key |
| ParameterEvaluator.Variants | src/cpsat_autotune/parameter_evaluator.py:84-92 | one variant per key |
| ParameterEvaluator.VariantsDropOneKey | src/cpsat_autotune/parameter_evaluator.py:84-92 | the i-th variant is labelled with the i-th key, lacks exactly that key, keeps every other value, and restoring the key gives params back |
| ParameterEvaluator.Abs | src/cpsat_autotune/parameter_evaluator.py:124 | non-negative and equal to x or −x |
| ParameterEvaluator.SingleFailsOnlyWithoutRuns | src/cpsat_autotune/parameter_evaluator.py:94-100 | the mean of a variant fails only with ZeroDivisionError and only when no runs are asked for |
| ParameterEvaluator.RecordOk | src/cpsat_autotune/parameter_evaluator.py:115-124 | a score WORSE than the threshold keeps the key with its own value and diff abs(mean − score); any other score drops it |
| ParameterEvaluator.SweepFromConsistent | src/cpsat_autotune/parameter_evaluator.py:115-124 | after the loop, the kept keys are exactly the visited keys whose score is WORSE than the threshold; each keeps its original value, has its diff, and is listed once; each visited key's score is the mean cached for its variant |
| ParameterEvaluator.RecordConsistent | src/cpsat_autotune/parameter_evaluator.py:115-124 | one iteration keeps the loop invariant |
| ParameterEvaluator.SweepFromRecordsMeans | src/cpsat_autotune/parameter_evaluator.py:94-100 | after the loop, each visited key's recorded score is the mean of the result cached for its variant, which holds at least min_baseline_size scores |
| ParameterEvaluator.ConcludeKeepsRecords | src/cpsat_autotune/parameter_evaluator.py:131 | the final evaluation of the pruned assignment leaves those cached results unchanged |
| ParameterEvaluator.SweepFromKeepsValid | src/cpsat_autotune/parameter_evaluator.py:115-124 | the loop keeps the cache invariant |
| ParameterEvaluator.SweepFromFailsOnlyWithoutRuns | src/cpsat_autotune/parameter_evaluator.py:115-124 | the loop fails only with ZeroDivisionError when min_baseline_size ≤ 0 |
| ParameterEvaluator.SweepFromStep | src/cpsat_autotune/parameter_evaluator.py:115-124 | the loop over one more key applies one more step unless it already failed |
| ParameterEvaluator.SweepFromStopsAtError | src/cpsat_autotune/parameter_evaluator.py:115-124 | an error stops the loop |
| ParameterEvaluator.NormalizeFailsIff | src/cpsat_autotune/parameter_evaluator.py:127-128 | normalisation raises ZeroDivisionError iff some key was kept and every diff is zero |
| ParameterEvaluator.NormalizeSharesBounded | src/cpsat_autotune/parameter_evaluator.py:127-128 | the contributions have exactly the kept keys and lie in [0, 1] |
| ParameterEvaluator.NormalizeSharesSumToOne | src/cpsat_autotune/parameter_evaluator.py:127-128 | with kept keys, the contributions sum to 1 |
| ParameterEvaluator.AcceptBetweenWorstAndMean | src/cpsat_autotune/parameter_evaluator.py:109-110 | the threshold lies between the baseline's worst run and its mean |
| ParameterEvaluator.KeptOnlyIfRemovalHurts | src/cpsat_autotune/parameter_evaluator.py:117-124 | a kept parameter's removal scores WORSE than the full mean, and its diff is positive; when the recorded scores are the cached means, the mean cached for its variant is WORSE than the full mean |
| ParameterEvaluator.ConcludeSubset | src/cpsat_autotune/parameter_evaluator.py:131-147 | the returned parameters are a subset of params, with params' values |
| ParameterEvaluator.EvaluateParamsSubset | src/cpsat_autotune/parameter_evaluator.py:102-147 | the optimized parameters are a subset of params with their original values |
| ParameterEvaluator.ConcludeContributions | src/cpsat_autotune/parameter_evaluator.py:127-147 | contributions lie in [0, 1]; they are empty, or have exactly the optimized keys and sum to 1 |
| ParameterEvaluator.EvaluateParamsContributions | src/cpsat_autotune/parameter_evaluator.py:102-147 | as ConcludeContributions, for the whole evaluation |
| ParameterEvaluator.ConcludeRevert | src/cpsat_autotune/parameter_evaluator.py:131-147 | with p the pruned set's cached scores (non-empty): if the baseline's worst beats best(p), the result is the full params with no contributions and the baseline mean; otherwise it is the pruned set with the normalised contributions and mean(p) |
| ParameterEvaluator.EvaluateParamsRevert | src/cpsat_autotune/parameter_evaluator.py:102-147 | with a non-empty baseline, the result is the report for a sub-assignment of the input that holds exactly the keys whose variant's cached mean is WORSE than (worst + mean) / 2: the full params with no contributions and the baseline mean iff the baseline's worst beats that sub-assignment's best cached score, otherwise the sub-assignment with its own mean |
| ParameterEvaluator.ConcludeReportsPruned | src/cpsat_autotune/parameter_evaluator.py:115-147 | after the loop, the report is for the loop's kept parameters, as in EvaluateParamsRevert |
| ParameterEvaluator.RecordsGiveKept | src/cpsat_autotune/parameter_evaluator.py:110-124 | the kept keys are exactly the visited keys whose variant's cached mean is WORSE than (worst + mean) / 2 |
| ParameterEvaluator.ConcludeWithRuns | src/cpsat_autotune/parameter_evaluator.py:126-147 | with at least one run, the only possible failure is ZeroDivisionError |
| ParameterEvaluator.EvaluateParamsWithRuns | src/cpsat_autotune/parameter_evaluator.py:102-147 | with min_baseline_size ≥ 1, the evaluation fails only with ZeroDivisionError (all kept diffs zero) |
| ParameterEvaluator.ConcludeKeepsValid | src/cpsat_autotune/parameter_evaluator.py:131-147 | the final evaluation keeps the cache invariant |
| ParameterEvaluator.EvaluateParamsKeepsValid | src/cpsat_autotune/parameter_evaluator.py:102-147 | the whole evaluation keeps the cache invariant |
| ParameterEvaluator.ParameterEvaluator.constructor | src/cpsat_autotune/parameter_evaluator.py:71-82 | stores params (with their key order), scorer, metric and min_baseline_size |
| ParameterEvaluator.ParameterEvaluator.EvaluateSingleParameter | src/cpsat_autotune/parameter_evaluator.py:94-100 | evaluates the variant with min_baseline_size runs and returns its mean |
| ParameterEvaluator.ParameterEvaluator.Evaluate | src/cpsat_autotune/parameter_evaluator.py:102-147 | result and new cache equal EvaluateParams |
| ParameterEvaluator.ParameterEvaluator.SweepVariants | src/cpsat_autotune/parameter_evaluator.py:115-124 | the loop equals SweepFrom; on error the cache is back where it started |
| ParameterEvaluator.ParameterEvaluator.Finish | src/cpsat_autotune/parameter_evaluator.py:126-147 | normalisation, final evaluation and revert equal Conclude |
| Parameters.NewCategoryParameter | src/cpsat_autotune/parameters.py:164-190 | succeeds iff the default is among the values; otherwise ValueError |
| Parameters.NewListParameter | src/cpsat_autotune/parameters.py:263-287 | the stored default is a sorted permutation of the given one |
| Parameters.NewListParameterWellFormed | src/cpsat_autotune/parameters.py:263-287 | distinct values and a distinct default drawn from them give a well-formed descriptor |
| Parameters.CpSatDefault | src/cpsat_autotune/parameters.py:412-419 | an ordered-list default fails iff the index is out of Python's range; otherwise it is a member of the values |
| Parameters.FilterIn | src/cpsat_autotune/parameters.py:299-304 | the values that are chosen, in their original order |
| Parameters.FlagDims | src/cpsat_autotune/parameters.py:313-316 | exactly one flag dimension "name:value" per value |
| Parameters.GetCpSatParams | src/cpsat_autotune/parameters.py:318-336 | yields only the parameter's own name; a missing search entry raises KeyError; a list parameter succeeds iff every flag is present |
| Parameters.Memberships | src/cpsat_autotune/parameters.py:348-351 | one membership flag per value, each being Python's `in` |
| Parameters.GetOptunaParams | src/cpsat_autotune/parameters.py:338-351 | a plain parameter maps back to its single dimension; a list parameter to its flags; a missing name raises KeyError |
| Parameters.SuggestCategorical | src/cpsat_autotune/parameters.py:192-202 | the trial's value, if present and among the choices; otherwise ValueError |
| Parameters.Truncate | src/cpsat_autotune/parameters.py:252-254 | truncation toward zero |
| Parameters.SuggestInt | src/cpsat_autotune/parameters.py:242-254 | an empty range, a log range below 1, or a missing entry raise ValueError; an integer entry is returned as is |
| Parameters.SelectFlags | src/cpsat_autotune/parameters.py:289-304 | succeeds iff every flag can be read |
| Parameters.SelectFlagsFilters | src/cpsat_autotune/parameters.py:289-304 | the selection is the values whose flag is true, in their original order |
| Parameters.SampleList | src/cpsat_autotune/parameters.py:289-304 | the append loop equals SelectFlags |
| Parameters.SampleParameter | src/cpsat_autotune/parameters.py:145-401 | sampling a descriptor equals SampleSpec |
| Parameters.SelectFlagsStep | src/cpsat_autotune/parameters.py:299-304 | one more value reads one more flag |
| Parameters.SelectFlagsStopsAtError | src/cpsat_autotune/parameters.py:299-304 | a missing flag stops the loop |
| Parameters.SampleInDomain | src/cpsat_autotune/parameters.py:389-401 | a sample is a boolean, a member of the values (category, ordered list), the flagged subsequence (list), or the trial's integer (int) |
| Parameters.SampleAgreesWithCpSatParams | src/cpsat_autotune/parameters.py:318-336 | the sampled value is what get_cpsat_params gives (sorted into a tuple for lists) |
| Parameters.PlainConversionsCopy | src/cpsat_autotune/parameters.py:61-101 | bool, category and int conversions copy the single entry, and the Optuna default is {name: default} |
| Parameters.ListFlagsRoundTrip | src/cpsat_autotune/parameters.py:318-351 | flags → tuple → flags is the identity on boolean flags |
| Parameters.FlagRecovered | src/cpsat_autotune/parameters.py:348-351 | membership in the sorted tuple recovers each flag |
| Parameters.ListTupleRoundTrip | src/cpsat_autotune/parameters.py:318-351 | with distinct values, a sorted distinct tuple → flags → tuple is the identity |
| Parameters.OrderedIndexRoundTrip | src/cpsat_autotune/parameters.py:421-444 | with distinct values, index → value → index is the identity |
| Parameters.OrderedValueRoundTrip | src/cpsat_autotune/parameters.py:421-444 | value → index → value is the identity for any member |
| Parameters.OrderedRepeatedValueExample | src/cpsat_autotune/parameters.py:443-444 | with a repeated value, index 1 maps back to index 0 (the first occurrence) |
| Parameters.DefaultsAgree | src/cpsat_autotune/parameters.py:306-336 | on a well-formed descriptor, converting the Optuna default gives the CP-SAT default |
| CpSatParameters.FindByName | src/cpsat_autotune/cpsat_parameters.py:339-346 | returns the first descriptor with that name, if any; otherwise KeyError |
| CpSatParameters.FindUnique | src/cpsat_autotune/cpsat_parameters.py:339-345 | with unique names, the lookup returns the one entry with that name |
| CpSatParameters.TableNamesInOrder | src/cpsat_autotune/cpsat_parameters.py:16-336 | the table holds the 27 listed names in order |
| CpSatParameters.TableNamesDistinct | src/cpsat_autotune/cpsat_parameters.py:16-336 | all names in the table are pairwise distinct |
| CpSatParameters.SubsolversDistinct | src/cpsat_autotune/cpsat_parameters.py:138-152 | the ignorable subsolvers are distinct |
| CpSatParameters.TableWellFormed | src/cpsat_autotune/cpsat_parameters.py:16-336 | every default index is valid; every int default is within [lb, ub]; every category default is among its values; values are distinct |
| CpSatParameters.TableCategoriesConstruct | src/cpsat_autotune/cpsat_parameters.py:58-86 | every category entry passes its constructor's check |
| CpSatParameters.GetParameterByNameFinds | src/cpsat_autotune/cpsat_parameters.py:339-345 | "cut_level" finds its entry |
| CpSatParameters.GetParameterByNameMisses | src/cpsat_autotune/cpsat_parameters.py:346 | "num_workers" raises KeyError |
| CpSatParameters.TableOrderedDefaults | src/cpsat_autotune/cpsat_parameters.py:118-126 | ordered defaults select values[index]: 30.0 for the probing time limit, 2 for symmetry_level |
| ParameterSpace.SpaceNamesInOrder | src/cpsat_autotune/parameter_space.py:18-44 | the space holds the 21 listed names in order |
| ParameterSpace.SpaceNamesUnique | src/cpsat_autotune/parameter_space.py:18-47 | names are unique, so the name-keyed tunable map is faithful to the list |
| ParameterSpace.SpaceTableWellFormed | src/cpsat_autotune/parameter_space.py:18-44 | every entry is well formed and can be sampled |
| ParameterSpace.Without | src/cpsat_autotune/parameter_space.py:55 | keeps exactly the descriptors with another name |
| ParameterSpace.WithoutKeepsOrder | src/cpsat_autotune/parameter_space.py:50-57 | removal keeps names unique, and removing an absent name changes nothing |
| ParameterSpace.WithoutUnique | src/cpsat_autotune/parameter_space.py:55 | removal keeps names unique |
| ParameterSpace.WithoutAbsent | src/cpsat_autotune/parameter_space.py:55 | popping an absent name changes nothing |
| ParameterSpace.DiffersIff | src/cpsat_autotune/parameter_space.py:74 | the corrected test counts a value as changed iff it is not its default up to order and list versus tuple |
| ParameterSpace.SampleFromStep | src/cpsat_autotune/parameter_space.py:71-77 | one more descriptor applies one more step unless already failed |
| ParameterSpace.SampleFromUnfold | src/cpsat_autotune/parameter_space.py:71-77 | the loop is the loop over all but the last descriptor, then one step |
| ParameterSpace.SampleFromStopsAtError | src/cpsat_autotune/parameter_space.py:71-77 | an error or prune stops the loop |
| ParameterSpace.SampleFromLast | src/cpsat_autotune/parameter_space.py:71-82 | the last descriptor is skipped when fixed, otherwise its sample is set |
| ParameterSpace.SampleFromKeys | src/cpsat_autotune/parameter_space.py:63-82 | the solver receives exactly the fixed names plus the tunable names |
| ParameterSpace.SampleFromKeepsFixed | src/cpsat_autotune/parameter_space.py:64-72 | every fixed parameter keeps its fixed value |
| ParameterSpace.SampleFromValues | src/cpsat_autotune/parameter_space.py:71-82 | every tunable name not fixed gets its sampled value |
| ParameterSpace.SampleStepSets | src/cpsat_autotune/parameter_space.py:72-82 | a step sets its own name to its sample, or skips a fixed name |
| ParameterSpace.SampleFromCount | src/cpsat_autotune/parameter_space.py:68-77 | the counter equals the number of non-fixed descriptors whose sample differs from its default (the corrected test, see "## Findings"), and is within a non-negative limit |
| ParameterSpace.SamplePrunedIff | src/cpsat_autotune/parameter_space.py:68-77 | with every sample available, sampling raises TrialPruned iff the limit is ≥ 0 and the count (under the corrected test) exceeds it |
| ParameterSpace.NoLimitNeverPrunes | src/cpsat_autotune/parameter_space.py:76-77 | a negative limit (−1) never prunes |
| ParameterSpace.AsWrittenCountsEveryList | src/cpsat_autotune/parameter_space.py:74 | as written, every list sample counts as changed |
| ParameterSpace.DefaultListCountedAsWritten | src/cpsat_autotune/parameter_space.py:74 | ignore_subsolvers sampled at its default counts as changed as written, but not under the corrected test |
| ParameterSpace.UnionDefaultsDims | src/cpsat_autotune/parameter_space.py:85-92 | every default dimension belongs to a tunable descriptor |
| ParameterSpace.UnionDefaultsAgree | src/cpsat_autotune/parameter_space.py:85-92 | with unique names, the union agrees with each descriptor's own Optuna default on its dimensions |
| ParameterSpace.DefaultSampleIsDefault | src/cpsat_autotune/parameter_space.py:71-75 | sampling a descriptor at its Optuna default gives its CP-SAT default |
| ParameterSpace.DefaultTrialSamplesDefaults | src/cpsat_autotune/parameter_space.py:85-92 | sampling the default map gives each descriptor's CP-SAT default |
| ParameterSpace.NothingDiffersCountsZero | src/cpsat_autotune/parameter_space.py:74-75 | when no sample differs, the count is 0 |
| ParameterSpace.DefaultTrialNeverPruned | src/cpsat_autotune/parameter_space.py:68-77 | the default trial samples successfully with nothing counted, whatever the limit |
| ParameterSpace.CollectCpSatStep | src/cpsat_autotune/parameter_space.py:111-112 | one more descriptor merges its entries unless already failed |
| ParameterSpace.CollectCpSatStopsAtError | src/cpsat_autotune/parameter_space.py:111-112 | an error stops the merge |
| ParameterSpace.CollectCpSatResult | src/cpsat_autotune/parameter_space.py:110-112 | succeeds iff every conversion does; then the map has exactly the tunable names, each with its own conversion's value |
| ParameterSpace.DefaultPairsResult | src/cpsat_autotune/parameter_space.py:113 | the default pairs are exactly (name, CP-SAT default) of each descriptor |
| ParameterSpace.ParamsDiffExactly | src/cpsat_autotune/parameter_space.py:106-116 | a name is in the diff iff its trial value differs from its default, and then it carries the trial value |
| ParameterSpace.DistanceBounded | src/cpsat_autotune/parameter_space.py:120-126 | the distance never exceeds the number of tunable descriptors |
| ParameterSpace.DefaultTrialAtDistanceZero | src/cpsat_autotune/parameter_space.py:106-126 | the default trial has an empty diff and distance 0 |
| ParameterSpace.CpSatParameterSpace.constructor | src/cpsat_autotune/parameter_space.py:45-48 | tunable is the whole table, fixed is empty, and the limit is stored |
| ParameterSpace.CpSatParameterSpace.FixParameter | src/cpsat_autotune/parameter_space.py:50-57 | removes the name from the tunables and records the value only when one is given |
| ParameterSpace.CpSatParameterSpace.Sample | src/cpsat_autotune/parameter_space.py:59-83 | the loop equals SpaceSample, which counts changes with the corrected test |
| ParameterSpace.CpSatParameterSpace.GetDefaultParamsForOptuna | src/cpsat_autotune/parameter_space.py:85-92 | the update loop equals the union of the tunable defaults |
| ParameterSpace.CpSatParameterSpace.GetCpSatParamsDiff | src/cpsat_autotune/parameter_space.py:106-116 | the loop and set difference equal ParamsDiff |
| ParameterSpace.CpSatParameterSpace.DistanceToDefaultOf | src/cpsat_autotune/parameter_space.py:120-126 | the size of the diff |
| Values.Sort | src/cpsat_autotune/caching_solver.py:61-66 | a sorted permutation of its input |
| Values.SortIgnoresOrder | src/cpsat_autotune/caching_solver.py:61-66 | permutations sort to the same sequence |
| Values.SortedUnique | src/cpsat_autotune/caching_solver.py:61-66 | two sorted permutations of each other are equal |
| Values.SortOfSorted | src/cpsat_autotune/parameters.py:280-286 | sorting a sorted sequence changes nothing |
| Values.ScalarLeTotal | src/cpsat_autotune/caching_solver.py:63 | the order used by the sort is total |
| Values.ScalarLeAntisymmetric | src/cpsat_autotune/caching_solver.py:63 | the order is antisymmetric |
| Values.ScalarLeTransitive | src/cpsat_autotune/caching_solver.py:63 | the order is transitive |
| Values.PyIndex | src/cpsat_autotune/parameters.py:419 | Python indexing: succeeds iff −len ≤ i < len, is xs[i] for non-negative i, and otherwise IndexError |
| Values.IndexOf | src/cpsat_autotune/parameters.py:443-444 | `list.index`: the first position of the value, or ValueError when absent |
| Values.Contains | src/cpsat_autotune/parameters.py:349 | Python's `in`: membership for lists and tuples, substring for strings, TypeError otherwise |

## Left out

- Solver execution is an opaque function of the assignment and the run index. This covers seeding, time limits, `solver.solve` and wall-clock timing in `Metric.__call__`, and `_prepare_solver`. The `setattr`/`extend` onto `solver.parameters` in `sample` becomes a map update. `build_solver_for_params` is not part of this model.
- `MultiResult.median` and `std` are numpy floating point; not modelled. Scores are reals, not IEEE floats.
- Python's cross-type numeric equality (`True == 1 == 1.0`) is not modelled: a boolean, an integer and a float are distinct scalars.
- Python's `sorted` raises TypeError on a list mixing strings and numbers. Values.Sort instead uses a total order that ranks by kind first.
- `print`/`log` calls, `EvaluationResult.print_results`, print_result.py and cli.py are console output.
- The Optuna study loop, its sampler and the `tune_*` wiring in tune.py are orchestration over external libraries; tune.py is not part of this model.
- model_loading.py, model_filter.py, parameter_validation.py and the demo scripts are file I/O, protobuf predicates or a superseded evaluator. Applicability filters (`is_effective_for`) are not modelled.
- `get_cpsat_params_from_trial` calls a method that does not exist, and the lines after the first `return` in `get_cpsat_params_diff` are unreachable; neither is modelled.
- `drop_parameter`, `filter_applicable_parameters` and `MinGapWithinTimelimit` are not defined in the modelled files.
- Objective.OptunaCpSatStrategy.BestParams: carries no contract of its own; its promise (the cached result with the best mean) is stated by Objective.BestByMean, which it applies to the cached results.
- Optuna's own sampling distributions are not modelled: a trial is a fixed map, and `suggest_int` returns the stored integer without a range check, as `FixedTrial` does.
- Objective.OptunaCpSatStrategy.Call: models the intended call, which passes the sampled assignment to `evaluate`; the call as written raises AttributeError (Objective.TrialSpecAsWritten, "## Findings").
- Objective.OptunaCpSatStrategy.EvaluateAgainstBaseline: evaluates the sampled assignment, not the solver object the source passes, for the same reason.
- Objective.OptunaCpSatStrategy.ScoreSampled: evaluates the sampled assignment, not the solver object the source passes, for the same reason.
- Parameters.Dim: a flag dimension keeps its value's type, while Optuna's key `f"{name}:{value}"` is a string, so values with the same text (`1` and `"1"`) would share a key. Every list in the tables holds values of one type, so no two flags of one parameter collide.
- CachingSolver.CachingScorer.Evaluate: the cache holds values, so the aliasing between the returned `MultiResult` and the cached one (the caller could mutate the cache through it) is not captured.

## Findings

| source | as written | input that shows it | evidently intended | confidence | as-written member | corrected member |
|---|---|---|---|---|---|---|
| src/cpsat_autotune/parameter_space.py:74 | `value != parameter.get_cpsat_default()` compares the list that `ListParameter.sample` returns with the default, which the constructor stored as a tuple, so every list parameter counts as changed | `ignore_subsolvers` sampled at its default (no flag set): `[] != ()` is true, so with `max_difference_to_default = 0` the default trial is pruned | a list counts as changed only when its elements differ from the default's | not executed | ParameterSpace.DefaultListCountedAsWritten | ParameterSpace.DefaultTrialNeverPruned |
| src/cpsat_autotune/objective.py:42-46 | `scorer.evaluate` receives `sampled_params`, the `CpSolver` that `parameter_space.sample` returns, and calls `.items()` on it | any trial whose sampling succeeds, with a non-empty baseline: `_remove_fixed_params` raises AttributeError, so no trial ever has a value | the sampled parameter assignment is evaluated and its mean returned | not executed | Objective.AsWrittenTrialNeverScores | Objective.TrialValueExplained |
