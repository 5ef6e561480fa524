/**
 * The per-trial objective the hyperparameter search calls: sample the
 * trial's solver parameters, measure the default baseline, derive a
 * knockout threshold from it, and score the trial with that threshold
 * through the scoring cache. The best cached result is the one with the
 * best mean.
 *
 * `TrialSpec` says what one call returns and leaves in the cache, and the
 * class method is proved to do exactly that.
 */
module Objective {
  import opened Values
  import opened Metrics
  import opened CachingSolver
  import opened Parameters
  import opened ParameterSpace

  /**
   * The knockout threshold: under minimize the baseline's largest score plus
   * a tenth of its spread, under maximize its smallest minus a tenth; no
   * baseline scores raise ValueError.
   */
  function KnockoutThreshold(d: Direction, baseline: seq<real>): Result<real>
  {
    if |baseline| == 0 then Err(ValueError)
    else if d == Minimize then Ok(Max(baseline) + 0.1 * Spread(baseline))
    else Ok(Min(baseline) - 0.1 * Spread(baseline))
  }

  /**
   * The threshold is never better than the baseline's worst run, and it
   * equals that run exactly when all baseline runs scored the same.
   */
  lemma ThresholdNoBetterThanWorst(d: Direction, baseline: seq<real>)
    ensures var t := KnockoutThreshold(d, baseline);
      (t.Ok? <==> |baseline| > 0)
      && (t.Err? ==> t.error == ValueError)
      && (t.Ok? ==> NoBetterThan(d, t.value, Worst(d, baseline))
                    && (t.value == Worst(d, baseline) <==> Spread(baseline) == 0.0))
  {
    if |baseline| > 0 {
      WorstIsExtreme(d, baseline);
    }
  }

  /** Baseline runs 10, 12, 11, 13, 10 give 13.3 under minimize and 9.7 under maximize. */
  lemma ThresholdExample()
    ensures KnockoutThreshold(Minimize, [10.0, 12.0, 11.0, 13.0, 10.0]) == Ok(13.3)
    ensures KnockoutThreshold(Maximize, [10.0, 12.0, 11.0, 13.0, 10.0]) == Ok(9.7)
  {
    ExampleExtremes();
  }

  lemma ExampleExtremes()
    ensures Max([10.0, 12.0, 11.0, 13.0, 10.0]) == 13.0 && Min([10.0, 12.0, 11.0, 13.0, 10.0]) == 10.0
  {
    ExampleMax();
    ExampleMin();
  }

  lemma ExampleMax()
    ensures Max([10.0, 12.0, 11.0, 13.0, 10.0]) == 13.0
  {
    var s := [10.0, 12.0, 11.0, 13.0, 10.0];
    var i :| 0 <= i < |s| && s[i] == Max(s);
    assert s[3] <= Max(s);
    assert s[i] <= 13.0 by {
      assert s[0] == 10.0 && s[1] == 12.0 && s[2] == 11.0 && s[3] == 13.0 && s[4] == 10.0;
    }
  }

  lemma ExampleMin()
    ensures Min([10.0, 12.0, 11.0, 13.0, 10.0]) == 10.0
  {
    var s := [10.0, 12.0, 11.0, 13.0, 10.0];
    var j :| 0 <= j < |s| && s[j] == Min(s);
    assert Min(s) <= s[0];
    assert 10.0 <= s[j] by {
      assert s[0] == 10.0 && s[1] == 12.0 && s[2] == 11.0 && s[3] == 13.0 && s[4] == 10.0;
    }
  }

  /**
   * A knocked-out evaluation reports a mean no better than the threshold:
   * the flattened copy's mean is the worst observed score, and that is no
   * better than the score that triggered the knockout.
   */
  lemma KnockedOutMeanNoBetterThanThreshold(setup: ScorerSetup, st: CacheState, params: Assignment, numRuns: int, threshold: real)
    requires EvaluateSpec(setup, st, params, numRuns, Some(threshold)).knockedOut
    ensures var r := EvaluateSpec(setup, st, params, numRuns, Some(threshold)).result;
      |r.scores| > 0 && NoBetterThan(DirectionOf(setup.metric), Mean(r.scores), threshold)
  {
    var d := DirectionOf(setup.metric);
    var stored := Stored(setup, st, params);
    var e := EvaluateSpec(setup, st, params, numRuns, Some(threshold));
    if |stored.scores| > 0 && NoBetterThan(d, Worst(d, stored.scores), threshold) {
      KnockoutResultCollapses(stored, setup.metric);
    } else {
      assert e.state != st;
      EvaluateKnockoutWhileSampling(setup, st, params, numRuns, Some(threshold));
      var raw := e.state.entries[KeyOf(setup, params)];
      var last := raw.scores[|raw.scores| - 1];
      var w := Worst(d, raw.scores);
      assert last in raw.scores;
      CompAntisymmetric(d, w, last);
      NoBetterThanTransitive(d, w, last, threshold);
      KnockoutResultCollapses(raw, setup.metric);
    }
  }

  /** What one call of the objective returns, or the error it raises, and what it leaves in the cache. */
  datatype TrialOutcome = TrialOutcome(value: Result<real>, state: CacheState)

  /**
   * `OptunaCpSatStrategy.__call__` on the cache state: sample the trial
   * (its errors and pruning propagate, nothing evaluated yet), evaluate the
   * empty assignment as the baseline, then the trial with the knockout
   * threshold; the mean of no scores raises ZeroDivisionError.
   */
  function TrialSpec(setup: ScorerSetup, st: CacheState, tunable: seq<CpSatParameter>, fixed: Assignment, limit: int,
                     trial: SearchParams, nTrial: int, nVerification: int): TrialOutcome
  {
    var sampled := SpaceSample(tunable, fixed, Some(trial), limit);
    if sampled.Err? then TrialOutcome(Err(sampled.error), st)
    else ScoreAgainstBaseline(setup, st, sampled.value, nTrial, nVerification)
  }

  /** The sampled assignment against the baseline: evaluate the baseline, derive the threshold, score the trial. */
  function ScoreAgainstBaseline(setup: ScorerSetup, st: CacheState, sampled: Assignment, nTrial: int, nVerification: int): TrialOutcome
  {
    var base := EvaluateSpec(setup, st, map[], nVerification, None);
    var threshold := KnockoutThreshold(DirectionOf(setup.metric), base.result.scores);
    if threshold.Err? then TrialOutcome(Err(threshold.error), base.state)
    else ScoreTrial(setup, base.state, sampled, nTrial, threshold.value)
  }

  /** The trial's own evaluation with the knockout threshold, and the mean of what comes back. */
  function ScoreTrial(setup: ScorerSetup, st: CacheState, sampled: Assignment, nTrial: int, threshold: real): TrialOutcome
  {
    var e := EvaluateSpec(setup, st, sampled, nTrial, Some(threshold));
    if |e.result.scores| == 0 then TrialOutcome(Err(ZeroDivisionError), e.state)
    else TrialOutcome(Ok(Mean(e.result.scores)), e.state)
  }

  /**
   * A trial's value is either no better than the baseline's worst run (it
   * was knocked out), or the mean of the trial's cached result, which holds
   * at least `nTrial` runs.
   */
  lemma TrialValueExplained(setup: ScorerSetup, st: CacheState, tunable: seq<CpSatParameter>, fixed: Assignment, limit: int,
                            trial: SearchParams, nTrial: int, nVerification: int)
    ensures var o := TrialSpec(setup, st, tunable, fixed, limit, trial, nTrial, nVerification);
      var d := DirectionOf(setup.metric);
      var baseline := EvaluateSpec(setup, st, map[], nVerification, None).result.scores;
      var sampled := SpaceSample(tunable, fixed, Some(trial), limit);
      o.value.Ok? ==>
        && sampled.Ok? && |baseline| > 0
        && (|| NoBetterThan(d, o.value.value, Worst(d, baseline))
            || (var r := Stored(setup, o.state, sampled.value).scores;
                |r| > 0 && |r| >= nTrial && o.value.value == Mean(r)))
  {
    var d := DirectionOf(setup.metric);
    var sampled := SpaceSample(tunable, fixed, Some(trial), limit);
    var base := EvaluateSpec(setup, st, map[], nVerification, None);
    var b := base.result.scores;
    if sampled.Ok? && |b| > 0 {
      ThresholdNoBetterThanWorst(d, b);
      var t := KnockoutThreshold(d, b).value;
      var e := EvaluateSpec(setup, base.state, sampled.value, nTrial, Some(t));
      if e.knockedOut {
        KnockedOutMeanNoBetterThanThreshold(setup, base.state, sampled.value, nTrial, t);
        NoBetterThanTransitive(d, Mean(e.result.scores), t, Worst(d, b));
      } else {
        EvaluateWithoutKnockout(setup, base.state, sampled.value, nTrial, Some(t));
        assert Stored(setup, e.state, sampled.value) == e.result by {
          if e.state != base.state {
            assert KeyOf(setup, sampled.value) in e.state.entries;
          }
        }
      }
    }
  }

  /**
   * `__call__` as written: `parameter_space.sample` returns a configured
   * solver rather than a dictionary, and `scorer.evaluate` starts by calling
   * `.items()` on what it is given, which a solver does not have. Once
   * sampling succeeds and the threshold is computed, the trial's evaluation
   * raises AttributeError before any run, with the baseline already cached.
   */
  function TrialSpecAsWritten(setup: ScorerSetup, st: CacheState, tunable: seq<CpSatParameter>, fixed: Assignment, limit: int,
                              trial: SearchParams, nTrial: int, nVerification: int): TrialOutcome
  {
    var sampled := SpaceSample(tunable, fixed, Some(trial), limit);
    if sampled.Err? then TrialOutcome(Err(sampled.error), st)
    else
      var base := EvaluateSpec(setup, st, map[], nVerification, None);
      var threshold := KnockoutThreshold(DirectionOf(setup.metric), base.result.scores);
      if threshold.Err? then TrialOutcome(Err(threshold.error), base.state)
      else TrialOutcome(Err(AttributeError), base.state)
  }

  /**
   * The call as written never yields a value. It agrees with `TrialSpec`
   * up to the threshold; from there on it raises AttributeError, while the
   * intended call, on a consistent cache with at least one run per trial,
   * returns the trial's score.
   */
  lemma AsWrittenTrialNeverScores(setup: ScorerSetup, st: CacheState, tunable: seq<CpSatParameter>, fixed: Assignment, limit: int,
                                  trial: SearchParams, nTrial: int, nVerification: int)
    ensures var w := TrialSpecAsWritten(setup, st, tunable, fixed, limit, trial, nTrial, nVerification);
      var o := TrialSpec(setup, st, tunable, fixed, limit, trial, nTrial, nVerification);
      var sampled := SpaceSample(tunable, fixed, Some(trial), limit);
      var base := EvaluateSpec(setup, st, map[], nVerification, None);
      && w.value.Err?
      && (sampled.Err? || |base.result.scores| == 0 ==> w == o)
      && (sampled.Ok? && |base.result.scores| > 0 ==>
            && w == TrialOutcome(Err(AttributeError), base.state)
            && (ValidState(setup, st) && nTrial >= 1 ==> o.value.Ok?))
  {
    var sampled := SpaceSample(tunable, fixed, Some(trial), limit);
    var base := EvaluateSpec(setup, st, map[], nVerification, None);
    var b := base.result.scores;
    if sampled.Ok? && |b| > 0 && ValidState(setup, st) && nTrial >= 1 {
      var t := KnockoutThreshold(DirectionOf(setup.metric), b).value;
      EvaluatePreservesValid(setup, st, map[], nVerification, None);
      EvaluateResultUsable(setup, base.state, sampled.value, nTrial, Some(t));
    }
  }

  /** The means of the cached results, in cache order. */
  function Means(rs: seq<MultiResult>): (ms: seq<real>)
    requires forall x :: x in rs ==> |x.scores| > 0
    ensures |ms| == |rs|
    ensures forall i :: 0 <= i < |rs| ==> ms[i] == Mean(rs[i].scores)
  {
    seq(|rs|, i requires 0 <= i < |rs| => Mean(rs[i].scores))
  }

  /**
   * `best_params`: the first cached result whose mean no other cached mean
   * beats; an empty cache raises ValueError.
   */
  function BestByMean(d: Direction, rs: seq<MultiResult>): (r: Result<MultiResult>)
    requires forall x :: x in rs ==> |x.scores| > 0
    ensures r.Ok? <==> |rs| > 0
    ensures r.Err? ==> r.error == ValueError
    ensures r.Ok? ==> r.value in rs && forall x :: x in rs ==> Comp(d, Mean(x.scores), Mean(r.value.scores)) != Better
    ensures r.Ok? ==> exists i :: 0 <= i < |rs| && rs[i] == r.value &&
                       forall k :: 0 <= k < i ==> Comp(d, Mean(r.value.scores), Mean(rs[k].scores)) == Better
  {
    if |rs| == 0 then Err(ValueError)
    else
      var ms := Means(rs);
      var i := BestIndex(d, ms);
      assert forall x :: x in rs ==> exists k :: 0 <= k < |rs| && rs[k] == x;
      Ok(rs[i])
  }

  class OptunaCpSatStrategy {
    const parameterSpace: CpSatParameterSpace
    const scorer: CachingScorer
    const nSamplesForTrial: int
    const nSamplesForVerification: int
    /** Taken from the scorer's metric at construction. */
    const direction: Direction
    const metric: Metric

    ghost predicate Valid()
      reads this, scorer
    {
      scorer.Valid() && metric == scorer.metric && direction == DirectionOf(metric)
    }

    /** `__init__`; the Python defaults are 10 runs per trial and 30 for the baseline. */
    constructor (parameterSpace: CpSatParameterSpace, scorer: CachingScorer, nSamplesForTrial: int, nSamplesForVerification: int)
      requires scorer.Valid()
      ensures Valid()
      ensures this.parameterSpace == parameterSpace && this.scorer == scorer
      ensures this.nSamplesForTrial == nSamplesForTrial && this.nSamplesForVerification == nSamplesForVerification
      ensures metric == scorer.metric && direction == DirectionOf(scorer.metric)
    {
      this.parameterSpace := parameterSpace;
      this.nSamplesForTrial := nSamplesForTrial;
      this.nSamplesForVerification := nSamplesForVerification;
      this.scorer := scorer;
      this.direction := DirectionOf(scorer.metric);
      this.metric := scorer.metric;
    }

    /** `get_baseline`: the empty assignment, with the verification run count. */
    method GetBaseline() returns (r: MultiResult)
      requires scorer.Valid()
      modifies scorer
      ensures scorer.Valid()
      ensures var e := EvaluateSpec(scorer.Setup(), old(scorer.State()), map[], nSamplesForVerification, None);
        r == e.result && scorer.State() == e.state
    {
      r := scorer.Evaluate(map[], nSamplesForVerification, None);
    }

    /** `__call__`. */
    method Call(trial: SearchParams) returns (value: Result<real>)
      requires Valid()
      modifies scorer
      ensures Valid()
      ensures TrialOutcome(value, scorer.State()) ==
        TrialSpec(scorer.Setup(), old(scorer.State()), parameterSpace.tunable, parameterSpace.fixed,
                  parameterSpace.maxDifferenceToDefault, trial, nSamplesForTrial, nSamplesForVerification)
    {
      var sampled := parameterSpace.Sample(Some(trial));
      if sampled.Err? {
        return Err(sampled.error);
      }
      value := EvaluateAgainstBaseline(sampled.value);
    }

    /** The part of `__call__` after sampling: baseline, knockout threshold, the trial's own score. */
    method EvaluateAgainstBaseline(sampled: Assignment) returns (value: Result<real>)
      requires Valid()
      modifies scorer
      ensures Valid()
      ensures TrialOutcome(value, scorer.State()) ==
        ScoreAgainstBaseline(scorer.Setup(), old(scorer.State()), sampled, nSamplesForTrial, nSamplesForVerification)
    {
      var baseline := GetBaseline();
      var threshold := KnockoutThreshold(direction, baseline.scores);
      if threshold.Err? {
        return Err(threshold.error);
      }
      value := ScoreSampled(sampled, threshold.value);
    }

    /** The end of `__call__`: the trial's evaluation with the knockout threshold, and its mean. */
    method ScoreSampled(sampled: Assignment, knockoutScore: real) returns (value: Result<real>)
      requires Valid()
      modifies scorer
      ensures Valid()
      ensures TrialOutcome(value, scorer.State()) == ScoreTrial(scorer.Setup(), old(scorer.State()), sampled, nSamplesForTrial, knockoutScore)
    {
      var score := scorer.Evaluate(sampled, nSamplesForTrial, Some(knockoutScore));
      if |score.scores| == 0 {
        return Err(ZeroDivisionError);
      }
      value := Ok(Mean(score.scores));
    }

    /** `best_params`. */
    function BestParams(): Result<MultiResult>
      reads this, scorer
      requires Valid()
    {
      BestByMean(direction, scorer.Iterate())
    }
  }
}
