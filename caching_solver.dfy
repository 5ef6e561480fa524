/**
 * The scoring cache: repeated solver runs for one parameter assignment are
 * collected in a MultiResult, memoised under an order-independent key, and
 * cut short ("knocked out") as soon as a run scores no better than a
 * threshold.
 *
 * The solver itself is the function `solve`: given the solver parameters
 * and the index of the run (standing for the fresh random seed each run
 * gets), it reports the run's outcome. The cache's observable state is a
 * value, CacheState; `EvaluateSpec` says what one call of `evaluate` does to
 * it, and the class method is proved to do exactly that.
 */
module CachingSolver {
  import opened Values
  import opened Metrics

  /** The observations made for one assignment, in the order the runs completed. */
  datatype MultiResult = MultiResult(scores: seq<real>, params: Assignment)

  // ---------------------------------------------------------------------
  // Statistics of a MultiResult
  // ---------------------------------------------------------------------

  function Sum(s: seq<real>): real
  {
    if s == [] then 0.0 else s[0] + Sum(s[1..])
  }

  /** `MultiResult.mean`; Python raises ZeroDivisionError on no scores. */
  function Mean(s: seq<real>): real
    requires |s| > 0
  {
    Sum(s) / (|s| as real)
  }

  /** `MultiResult.max`. */
  function Max(s: seq<real>): (r: real)
    requires |s| > 0
    ensures exists i :: 0 <= i < |s| && s[i] == r
    ensures forall i :: 0 <= i < |s| ==> s[i] <= r
  {
    if |s| == 1 then s[0]
    else
      var m := Max(s[1..]);
      assert forall i :: 1 <= i < |s| ==> s[i] == s[1..][i - 1];
      if s[0] > m then s[0] else m
  }

  /** `MultiResult.min`. */
  function Min(s: seq<real>): (r: real)
    requires |s| > 0
    ensures exists i :: 0 <= i < |s| && s[i] == r
    ensures forall i :: 0 <= i < |s| ==> r <= s[i]
  {
    if |s| == 1 then s[0]
    else
      var m := Min(s[1..]);
      assert forall i :: 1 <= i < |s| ==> s[i] == s[1..][i - 1];
      if s[0] < m then s[0] else m
  }

  /** `MultiResult.spread`: max - min, never negative. */
  function Spread(s: seq<real>): (r: real)
    requires |s| > 0
    ensures r >= 0.0
  {
    Max(s) - Min(s)
  }

  lemma {:induction false} SumBounds(s: seq<real>, lo: real, hi: real)
    requires forall i :: 0 <= i < |s| ==> lo <= s[i] <= hi
    ensures (|s| as real) * lo <= Sum(s) <= (|s| as real) * hi
    decreases |s|
  {
    if s != [] {
      var tail := s[1..];
      assert forall i :: 0 <= i < |tail| ==> tail[i] == s[i + 1];
      SumBounds(tail, lo, hi);
      assert Sum(s) == s[0] + Sum(tail);
      assert (|s| as real) * lo == (|tail| as real) * lo + lo;
      assert (|s| as real) * hi == (|tail| as real) * hi + hi;
    }
  }

  lemma DivideBounds(a: real, n: real, lo: real, hi: real)
    requires n > 0.0 && n * lo <= a <= n * hi
    ensures lo <= a / n <= hi
  {
  }

  /** A mean of scores within [lo, hi] is within [lo, hi]. */
  lemma MeanWithin(s: seq<real>, lo: real, hi: real)
    requires |s| > 0
    requires forall i :: 0 <= i < |s| ==> lo <= s[i] <= hi
    ensures lo <= Mean(s) <= hi
  {
    SumBounds(s, lo, hi);
    DivideBounds(Sum(s), |s| as real, lo, hi);
  }

  /** The mean lies between the smallest and the largest score. */
  lemma MeanBetweenMinAndMax(s: seq<real>)
    requires |s| > 0
    ensures Min(s) <= Mean(s) <= Max(s)
  {
    MeanWithin(s, Min(s), Max(s));
  }

  /** Under minimize the worst score is the largest one, under maximize the smallest. */
  lemma WorstIsExtreme(d: Direction, s: seq<real>)
    requires |s| > 0
    ensures Worst(d, s) == if d == Minimize then Max(s) else Min(s)
  {
    var w := Worst(d, s);
    var i :| 0 <= i < |s| && s[i] == Max(s);
    var j :| 0 <= j < |s| && s[j] == Min(s);
    assert Comp(d, s[i], w) != Worse && Comp(d, s[j], w) != Worse;
  }

  lemma {:induction false} SumOfConstant(s: seq<real>, c: real)
    requires forall i :: 0 <= i < |s| ==> s[i] == c
    ensures Sum(s) == (|s| as real) * c
    decreases |s|
  {
    if s != [] {
      SumOfConstant(s[1..], c);
    }
  }

  /**
   * `as_knockout_result`: same parameters, as many entries as observations
   * so far, every entry the worst observed score.
   */
  function AsKnockoutResult(r: MultiResult, m: Metric): (k: MultiResult)
    requires |r.scores| > 0
    ensures k.params == r.params && |k.scores| == |r.scores|
    ensures forall i :: 0 <= i < |k.scores| ==> k.scores[i] == Worst(DirectionOf(m), r.scores)
  {
    MultiResult(seq(|r.scores|, _ => Worst(DirectionOf(m), r.scores)), r.params)
  }

  /** A knocked-out result's mean, worst and best are all the original's worst score, and it has no spread. */
  lemma KnockoutResultCollapses(r: MultiResult, m: Metric)
    requires |r.scores| > 0
    ensures var k := AsKnockoutResult(r, m); var d := DirectionOf(m); var w := Worst(d, r.scores);
      Mean(k.scores) == w && Worst(d, k.scores) == w && Best(d, k.scores) == w && Spread(k.scores) == 0.0
  {
    var k := AsKnockoutResult(r, m);
    ConstantCollapses(DirectionOf(m), k.scores, Worst(DirectionOf(m), r.scores));
  }

  /** A list of equal scores has that score as its mean, worst, best, largest and smallest value. */
  lemma ConstantCollapses(d: Direction, s: seq<real>, w: real)
    requires |s| > 0 && forall i :: 0 <= i < |s| ==> s[i] == w
    ensures Mean(s) == w && Worst(d, s) == w && Best(d, s) == w && Max(s) == w && Min(s) == w
  {
    MeanOfConstant(s, w);
    assert Worst(d, s) in s && Best(d, s) in s;
  }

  lemma MeanOfConstant(s: seq<real>, w: real)
    requires |s| > 0 && forall i :: 0 <= i < |s| ==> s[i] == w
    ensures Mean(s) == w
  {
    SumOfConstant(s, w);
    DivideBounds(Sum(s), |s| as real, w, w);
  }

  // ---------------------------------------------------------------------
  // Cache keys
  // ---------------------------------------------------------------------

  /** `_replace_lists`: lists and tuples become sorted tuples, scalars stay. */
  function NormalizeValue(v: Value): Value
  {
    match v
    case ListV(items) => TupleV(Sort(items))
    case TupleV(items) => TupleV(Sort(items))
    case Atom(_) => v
  }

  /** A frozenset of (name, normalised value) pairs. */
  type Key = set<(string, Value)>

  /** `_create_key_from_params`. */
  function CreateKey(params: Assignment): Key
  {
    set name | name in params :: (name, NormalizeValue(params[name]))
  }

  /** The assignment with every value normalised. */
  function NormalizeMap(params: Assignment): Assignment
  {
    map name | name in params :: NormalizeValue(params[name])
  }

  /** Two assignments share a key exactly when they agree after normalisation. */
  lemma KeyEqualIff(p: Assignment, q: Assignment)
    ensures CreateKey(p) == CreateKey(q) <==> NormalizeMap(p) == NormalizeMap(q)
  {
    if CreateKey(p) == CreateKey(q) {
      forall name | name in p ensures name in q && NormalizeValue(p[name]) == NormalizeValue(q[name]) {
        assert (name, NormalizeValue(p[name])) in CreateKey(q);
      }
      forall name | name in q ensures name in p {
        assert (name, NormalizeValue(q[name])) in CreateKey(p);
      }
      assert NormalizeMap(p) == NormalizeMap(q);
    }
    if NormalizeMap(p) == NormalizeMap(q) {
      assert p.Keys == NormalizeMap(p).Keys == NormalizeMap(q).Keys == q.Keys;
      forall e | e in CreateKey(p) ensures e in CreateKey(q) {
        assert NormalizeMap(p)[e.0] == NormalizeMap(q)[e.0];
      }
      forall e | e in CreateKey(q) ensures e in CreateKey(p) {
        assert NormalizeMap(p)[e.0] == NormalizeMap(q)[e.0];
      }
    }
  }

  /** Equal up to the order of list/tuple elements and list-versus-tuple. */
  predicate SameUpToOrder(a: Value, b: Value)
  {
    a == b || (!a.Atom? && !b.Atom? && multiset(a.items) == multiset(b.items))
  }

  /** Reordering list elements or swapping list for tuple does not change the key. */
  lemma KeyIgnoresOrder(p: Assignment, q: Assignment)
    requires p.Keys == q.Keys
    requires forall name :: name in p ==> SameUpToOrder(p[name], q[name])
    ensures CreateKey(p) == CreateKey(q)
  {
    forall name | name in p ensures NormalizeValue(p[name]) == NormalizeValue(q[name]) {
      if p[name] != q[name] {
        SortIgnoresOrder(p[name].items, q[name].items);
      }
    }
    assert NormalizeMap(p) == NormalizeMap(q);
    KeyEqualIff(p, q);
  }

  /** {"a": [2, 1]} and {"a": (1, 2)} are cached under one key. */
  lemma KeyExample()
    ensures CreateKey(map["a" := ListV([IntV(2), IntV(1)])]) == CreateKey(map["a" := TupleV([IntV(1), IntV(2)])])
  {
    var p := map["a" := ListV([IntV(2), IntV(1)])];
    var q := map["a" := TupleV([IntV(1), IntV(2)])];
    assert multiset([IntV(2), IntV(1)]) == multiset([IntV(1), IntV(2)]);
    KeyIgnoresOrder(p, q);
  }

  /** `_remove_fixed_params`: drops every name that is also fixed. */
  function RemoveFixed(params: Assignment, fixed: Assignment): (r: Assignment)
    ensures r.Keys == params.Keys - fixed.Keys
    ensures forall name :: name in r ==> r[name] == params[name]
  {
    map name | name in params && name !in fixed :: params[name]
  }

  // ---------------------------------------------------------------------
  // The cache as a value, and what `evaluate` does to it
  // ---------------------------------------------------------------------

  /** What a scorer is built from: the metric, the fixed parameters and the solve routine. */
  datatype ScorerSetup = ScorerSetup(metric: Metric, fixedParams: Assignment, solve: (Assignment, nat) -> SolveOutcome)

  /**
   * The scorer's mutable state: the cache, its keys in insertion order (the
   * order Python iterates the dictionary in), and how many solver runs have
   * been made so far (the index of the next run).
   */
  datatype CacheState = CacheState(entries: map<Key, MultiResult>, order: seq<Key>, runs: nat)

  /** What one call of `evaluate` returns and leaves behind. */
  datatype Evaluation = Evaluation(result: MultiResult, state: CacheState, knockedOut: bool)

  /** The loop's outcome: all scores so far, the next run index, and whether it stopped on a knockout. */
  datatype Sampling = Sampling(scores: seq<real>, runs: nat, knockedOut: bool)

  /**
   * The cache is consistent: its keys are listed once each in insertion
   * order, every stored result has at least one score, sits under its own
   * key, and holds no fixed parameter.
   */
  ghost predicate ValidState(setup: ScorerSetup, st: CacheState)
  {
    && (forall k :: k in st.entries <==> k in st.order)
    && (forall i, j :: 0 <= i < j < |st.order| ==> st.order[i] != st.order[j])
    && (forall k :: k in st.entries ==>
          |st.entries[k].scores| > 0
          && CreateKey(st.entries[k].params) == k
          && st.entries[k].params.Keys !! setup.fixedParams.Keys)
  }

  /** Score of the solver run with index `seed`: the solver sees the parameters plus the fixed ones. */
  function RunScore(setup: ScorerSetup, params: Assignment, seed: nat): real
  {
    Score(setup.metric, setup.solve(params + setup.fixedParams, seed))
  }

  /**
   * The sampling loop: up to `n` more runs starting with run index `next`,
   * each score appended in order, stopping right after the first score that
   * is no better than the knockout threshold.
   */
  function SampleRuns(setup: ScorerSetup, params: Assignment, prior: seq<real>, next: nat, n: nat, knockout: Option<real>): (r: Sampling)
    ensures next <= r.runs <= next + n
    ensures |r.scores| == |prior| + (r.runs - next)
    ensures !r.knockedOut ==> r.runs == next + n
    ensures n > 0 ==> r.runs > next
    ensures r.knockedOut ==> knockout.Some?
    decreases n
  {
    if n == 0 then Sampling(prior, next, false)
    else
      var score := RunScore(setup, params, next);
      if knockout.Some? && NoBetterThan(DirectionOf(setup.metric), score, knockout.value) then
        Sampling(prior + [score], next + 1, true)
      else
        SampleRuns(setup, params, prior + [score], next + 1, n - 1, knockout)
  }

  /** `scores` is `prior` followed by the scores of the runs numbered from `next` on. */
  ghost predicate RunsAppended(setup: ScorerSetup, params: Assignment, prior: seq<real>, scores: seq<real>, next: nat)
  {
    && |prior| <= |scores|
    && scores[..|prior|] == prior
    && forall j :: |prior| <= j < |scores| ==> scores[j] == RunScore(setup, params, next + (j - |prior|))
  }

  /** The loop only appends: the earlier scores stay, and the i-th new score is the score of run `next + i`. */
  lemma SampleRunsAppends(setup: ScorerSetup, params: Assignment, prior: seq<real>, next: nat, n: nat, knockout: Option<real>)
    ensures RunsAppended(setup, params, prior, SampleRuns(setup, params, prior, next, n, knockout).scores, next)
  {
    SampleRunsKeepsPrior(setup, params, prior, next, n, knockout);
    SampleRunsNewScores(setup, params, prior, next, n, knockout);
  }

  lemma {:induction false} SampleRunsKeepsPrior(setup: ScorerSetup, params: Assignment, prior: seq<real>, next: nat, n: nat, knockout: Option<real>)
    ensures var r := SampleRuns(setup, params, prior, next, n, knockout);
      |prior| <= |r.scores| && r.scores[..|prior|] == prior
    decreases n
  {
    if n > 0 {
      var score := RunScore(setup, params, next);
      var scores := prior + [score];
      if !(knockout.Some? && NoBetterThan(DirectionOf(setup.metric), score, knockout.value)) {
        SampleRunsKeepsPrior(setup, params, scores, next + 1, n - 1, knockout);
        var r := SampleRuns(setup, params, scores, next + 1, n - 1, knockout);
        assert SampleRuns(setup, params, prior, next, n, knockout) == r;
        assert r.scores[..|prior|] == r.scores[..|scores|][..|prior|];
      } else {
        assert SampleRuns(setup, params, prior, next, n, knockout) == Sampling(scores, next + 1, true);
        assert scores[..|prior|] == prior;
      }
    }
  }

  lemma SampleRunsNewScores(setup: ScorerSetup, params: Assignment, prior: seq<real>, next: nat, n: nat, knockout: Option<real>)
    ensures var r := SampleRuns(setup, params, prior, next, n, knockout);
      forall j :: |prior| <= j < |r.scores| ==> r.scores[j] == RunScore(setup, params, next + (j - |prior|))
  {
    var r := SampleRuns(setup, params, prior, next, n, knockout);
    forall j | |prior| <= j < |r.scores| ensures r.scores[j] == RunScore(setup, params, next + (j - |prior|)) {
      SampleRunsScoreAt(setup, params, prior, next, n, knockout, j);
    }
  }

  /** The new score at position `j` is the score of run `next + (j - |prior|)`. */
  lemma {:induction false} SampleRunsScoreAt(setup: ScorerSetup, params: Assignment, prior: seq<real>, next: nat, n: nat, knockout: Option<real>, j: int)
    requires |prior| <= j < |SampleRuns(setup, params, prior, next, n, knockout).scores|
    ensures SampleRuns(setup, params, prior, next, n, knockout).scores[j] == RunScore(setup, params, next + (j - |prior|))
    decreases n
  {
    var score := RunScore(setup, params, next);
    var scores := prior + [score];
    if !(knockout.Some? && NoBetterThan(DirectionOf(setup.metric), score, knockout.value)) {
      var r := SampleRuns(setup, params, scores, next + 1, n - 1, knockout);
      assert SampleRuns(setup, params, prior, next, n, knockout) == r;
      if j == |prior| {
        SampleRunsKeepsPrior(setup, params, scores, next + 1, n - 1, knockout);
        assert r.scores[..|scores|][|prior|] == score;
      } else {
        SampleRunsScoreAt(setup, params, scores, next + 1, n - 1, knockout, j);
      }
    } else {
      assert SampleRuns(setup, params, prior, next, n, knockout) == Sampling(scores, next + 1, true);
    }
  }

  /**
   * The loop stops early exactly on a knockout: a threshold was given, the
   * last new score is no better than it, and every new score before it
   * was better.
   */
  lemma SampleRunsKnockout(setup: ScorerSetup, params: Assignment, prior: seq<real>, next: nat, n: nat, knockout: Option<real>)
    ensures var r := SampleRuns(setup, params, prior, next, n, knockout);
      var d := DirectionOf(setup.metric);
      && (r.knockedOut ==> knockout.Some? && r.runs > next && NoBetterThan(d, r.scores[|r.scores| - 1], knockout.value))
      && (knockout.Some? ==>
            forall j :: |prior| <= j < |r.scores| - (if r.knockedOut then 1 else 0) ==> !NoBetterThan(d, r.scores[j], knockout.value))
  {
    SampleRunsLastKnocks(setup, params, prior, next, n, knockout);
    if knockout.Some? {
      SampleRunsEarlierPass(setup, params, prior, next, n, knockout.value);
    }
  }

  /** A knocked-out sampling ends with a run no better than the knockout score. */
  lemma {:induction false} SampleRunsLastKnocks(setup: ScorerSetup, params: Assignment, prior: seq<real>, next: nat, n: nat, knockout: Option<real>)
    ensures var r := SampleRuns(setup, params, prior, next, n, knockout);
      r.knockedOut ==> knockout.Some? && r.runs > next && NoBetterThan(DirectionOf(setup.metric), r.scores[|r.scores| - 1], knockout.value)
    decreases n
  {
    if n > 0 {
      var score := RunScore(setup, params, next);
      var scores := prior + [score];
      if !(knockout.Some? && NoBetterThan(DirectionOf(setup.metric), score, knockout.value)) {
        SampleRunsLastKnocks(setup, params, scores, next + 1, n - 1, knockout);
        assert SampleRuns(setup, params, prior, next, n, knockout) == SampleRuns(setup, params, scores, next + 1, n - 1, knockout);
      } else {
        assert SampleRuns(setup, params, prior, next, n, knockout) == Sampling(scores, next + 1, true);
        assert scores[|scores| - 1] == score;
      }
    }
  }

  /** Every new run before the last, and the last too unless it knocked out, beats the knockout score. */
  lemma SampleRunsEarlierPass(setup: ScorerSetup, params: Assignment, prior: seq<real>, next: nat, n: nat, bound: real)
    ensures var r := SampleRuns(setup, params, prior, next, n, Some(bound));
      forall j :: |prior| <= j < |r.scores| - (if r.knockedOut then 1 else 0) ==> !NoBetterThan(DirectionOf(setup.metric), r.scores[j], bound)
  {
    var r := SampleRuns(setup, params, prior, next, n, Some(bound));
    forall j | |prior| <= j < |r.scores| - (if r.knockedOut then 1 else 0)
      ensures !NoBetterThan(DirectionOf(setup.metric), r.scores[j], bound)
    {
      SampleRunsPassAt(setup, params, prior, next, n, bound, j);
    }
  }

  lemma {:induction false} SampleRunsPassAt(setup: ScorerSetup, params: Assignment, prior: seq<real>, next: nat, n: nat, bound: real, j: int)
    requires var r := SampleRuns(setup, params, prior, next, n, Some(bound));
      |prior| <= j < |r.scores| - (if r.knockedOut then 1 else 0)
    ensures !NoBetterThan(DirectionOf(setup.metric), SampleRuns(setup, params, prior, next, n, Some(bound)).scores[j], bound)
    decreases n
  {
    var d := DirectionOf(setup.metric);
    var score := RunScore(setup, params, next);
    var scores := prior + [score];
    if !NoBetterThan(d, score, bound) {
      var r := SampleRuns(setup, params, scores, next + 1, n - 1, Some(bound));
      assert SampleRuns(setup, params, prior, next, n, Some(bound)) == r;
      if j == |prior| {
        SampleRunsKeepsPrior(setup, params, scores, next + 1, n - 1, Some(bound));
        assert r.scores[j] == r.scores[..|scores|][j] == score;
      } else {
        SampleRunsPassAt(setup, params, scores, next + 1, n - 1, bound, j);
      }
    }
  }

  /** The parameters `evaluate` works with: the given ones minus the fixed ones. */
  function Stripped(setup: ScorerSetup, params: Assignment): Assignment
  {
    RemoveFixed(params, setup.fixedParams)
  }

  /** The cache key `evaluate` uses. */
  function KeyOf(setup: ScorerSetup, params: Assignment): Key
  {
    CreateKey(Stripped(setup, params))
  }

  /** The result `evaluate` starts from: the cached one, or a fresh empty one. */
  function Stored(setup: ScorerSetup, st: CacheState, params: Assignment): MultiResult
  {
    var key := KeyOf(setup, params);
    if key in st.entries then st.entries[key] else MultiResult([], Stripped(setup, params))
  }

  /** `CachingScorer.evaluate(params, num_runs, knockout_score)` on the cache state. */
  function EvaluateSpec(setup: ScorerSetup, st: CacheState, params: Assignment, numRuns: int, knockout: Option<real>): Evaluation
  {
    EvaluateAt(setup, st, Stripped(setup, params), KeyOf(setup, params), Stored(setup, st, params), numRuns, knockout)
  }

  /**
   * The body of `evaluate` once the stripped parameters `p`, their cache key
   * and the result to start from are known.
   */
  function EvaluateAt(setup: ScorerSetup, st: CacheState, p: Assignment, key: Key, stored: MultiResult, numRuns: int, knockout: Option<real>): Evaluation
  {
    var d := DirectionOf(setup.metric);
    if |stored.scores| >= numRuns then
      Evaluation(stored, st, false)
    else if knockout.Some? && |stored.scores| > 0 && NoBetterThan(d, Worst(d, stored.scores), knockout.value) then
      Evaluation(AsKnockoutResult(stored, setup.metric), st, true)
    else
      var run := SampleRuns(setup, p, stored.scores, st.runs, numRuns - |stored.scores|, knockout);
      var updated := MultiResult(run.scores, stored.params);
      var order := if key in st.entries then st.order else st.order + [key];
      var st' := CacheState(st.entries[key := updated], order, run.runs);
      if run.knockedOut then Evaluation(AsKnockoutResult(updated, setup.metric), st', true)
      else Evaluation(updated, st', false)
  }

  /** The sampling case of `evaluate`: the runs made are stored under `key`. */
  lemma AtSamples(setup: ScorerSetup, st: CacheState, p: Assignment, key: Key, stored: MultiResult, numRuns: int, knockout: Option<real>)
    requires |stored.scores| < numRuns
    requires !(knockout.Some? && |stored.scores| > 0 && NoBetterThan(DirectionOf(setup.metric), Worst(DirectionOf(setup.metric), stored.scores), knockout.value))
    ensures var run := SampleRuns(setup, p, stored.scores, st.runs, numRuns - |stored.scores|, knockout);
      var updated := MultiResult(run.scores, stored.params);
      var st' := CacheState(st.entries[key := updated], if key in st.entries then st.order else st.order + [key], run.runs);
      EvaluateAt(setup, st, p, key, stored, numRuns, knockout)
      == Evaluation(if run.knockedOut then AsKnockoutResult(updated, setup.metric) else updated, st', run.knockedOut)
  {
  }

  /** `stored` is what `evaluate` starts from under `key`: the cached entry, or a fresh empty result that belongs under `key`. */
  ghost predicate StoredUnder(setup: ScorerSetup, st: CacheState, key: Key, stored: MultiResult)
  {
    if key in st.entries then stored == st.entries[key]
    else stored.scores == [] && CreateKey(stored.params) == key && stored.params.Keys !! setup.fixedParams.Keys
  }

  lemma StoredIsStoredUnder(setup: ScorerSetup, st: CacheState, params: Assignment)
    ensures StoredUnder(setup, st, KeyOf(setup, params), Stored(setup, st, params))
  {
  }

  /** `iter(scorer)`: the cached results in insertion order. */
  function Results(st: CacheState): (rs: seq<MultiResult>)
    requires forall k :: k in st.order ==> k in st.entries
    ensures |rs| == |st.order|
    ensures forall i :: 0 <= i < |rs| ==> rs[i] == st.entries[st.order[i]]
  {
    seq(|st.order|, i requires 0 <= i < |st.order| => st.entries[st.order[i]])
  }

  // ---------------------------------------------------------------------
  // Properties of `evaluate`
  // ---------------------------------------------------------------------

  /** `evaluate` keeps the cache consistent. */
  lemma EvaluatePreservesValid(setup: ScorerSetup, st: CacheState, params: Assignment, numRuns: int, knockout: Option<real>)
    requires ValidState(setup, st)
    ensures ValidState(setup, EvaluateSpec(setup, st, params, numRuns, knockout).state)
  {
    StoredIsStoredUnder(setup, st, params);
    AtPreservesValid(setup, st, Stripped(setup, params), KeyOf(setup, params), Stored(setup, st, params), numRuns, knockout);
  }

  lemma AtPreservesValid(setup: ScorerSetup, st: CacheState, p: Assignment, key: Key, stored: MultiResult, numRuns: int, knockout: Option<real>)
    requires ValidState(setup, st) && StoredUnder(setup, st, key, stored)
    ensures ValidState(setup, EvaluateAt(setup, st, p, key, stored, numRuns, knockout).state)
  {
    var d := DirectionOf(setup.metric);
    if |stored.scores| < numRuns && !(knockout.Some? && |stored.scores| > 0 && NoBetterThan(d, Worst(d, stored.scores), knockout.value)) {
      AtSamples(setup, st, p, key, stored, numRuns, knockout);
      var run := SampleRuns(setup, p, stored.scores, st.runs, numRuns - |stored.scores|, knockout);
      var updated := MultiResult(run.scores, stored.params);
      assert |updated.scores| > 0;
      assert CreateKey(updated.params) == key && updated.params.Keys !! setup.fixedParams.Keys;
      StorePreservesValid(setup, st, key, updated, run.runs);
    }
  }

  /** Storing a non-empty result under its own key keeps the cache consistent. */
  lemma StorePreservesValid(setup: ScorerSetup, st: CacheState, key: Key, r: MultiResult, runs: nat)
    requires ValidState(setup, st)
    requires |r.scores| > 0 && CreateKey(r.params) == key && r.params.Keys !! setup.fixedParams.Keys
    ensures ValidState(setup, CacheState(st.entries[key := r], if key in st.entries then st.order else st.order + [key], runs))
  {
    var st' := CacheState(st.entries[key := r], if key in st.entries then st.order else st.order + [key], runs);
    forall k ensures k in st'.entries <==> k in st'.order {
      if k != key {
        assert k in st'.entries <==> k in st.entries;
      }
    }
    forall i, j | 0 <= i < j < |st'.order| ensures st'.order[i] != st'.order[j] {
      if j == |st.order| {
        assert st'.order[j] == key && key !in st.entries;
        assert st'.order[i] in st.entries;
      }
    }
  }

  /** With enough cached scores nothing runs and nothing changes: the cached result comes back. */
  lemma EvaluateWithEnoughScores(setup: ScorerSetup, st: CacheState, params: Assignment, numRuns: int, knockout: Option<real>)
    requires |Stored(setup, st, params).scores| >= numRuns
    ensures EvaluateSpec(setup, st, params, numRuns, knockout) == Evaluation(Stored(setup, st, params), st, false)
  {
  }

  /**
   * Pre-check knockout: when the cached worst score is already no better
   * than the threshold, no run is made, nothing changes, and the answer is
   * the flattened copy of the cached result.
   */
  lemma EvaluateCachedKnockout(setup: ScorerSetup, st: CacheState, params: Assignment, numRuns: int, threshold: real)
    requires var stored := Stored(setup, st, params);
      0 < |stored.scores| < numRuns
      && NoBetterThan(DirectionOf(setup.metric), Worst(DirectionOf(setup.metric), stored.scores), threshold)
    ensures var e := EvaluateSpec(setup, st, params, numRuns, Some(threshold));
      e.state == st && e.knockedOut
      && e.result == AsKnockoutResult(Stored(setup, st, params), setup.metric)
  {
  }

  /** Runs are only ever added, and never more than the missing number of them. */
  lemma EvaluateRunsBounded(setup: ScorerSetup, st: CacheState, params: Assignment, numRuns: int, knockout: Option<real>)
    ensures var e := EvaluateSpec(setup, st, params, numRuns, knockout);
      var made := e.state.runs - st.runs;
      && st.runs <= e.state.runs
      && (made > 0 ==> made <= numRuns - |Stored(setup, st, params).scores|)
  {
  }

  /** Every other cache entry is untouched, and no key but this one is added. */
  lemma EvaluateLeavesOtherEntries(setup: ScorerSetup, st: CacheState, params: Assignment, numRuns: int, knockout: Option<real>)
    ensures var e := EvaluateSpec(setup, st, params, numRuns, knockout);
      var key := KeyOf(setup, params);
      && (forall k :: k in st.entries && k != key ==> k in e.state.entries && e.state.entries[k] == st.entries[k])
      && e.state.entries.Keys <= st.entries.Keys + {key}
  {
    AtLeavesOtherEntries(setup, st, Stripped(setup, params), KeyOf(setup, params), Stored(setup, st, params), numRuns, knockout);
  }

  lemma AtLeavesOtherEntries(setup: ScorerSetup, st: CacheState, p: Assignment, key: Key, stored: MultiResult, numRuns: int, knockout: Option<real>)
    ensures var e := EvaluateAt(setup, st, p, key, stored, numRuns, knockout);
      && (forall k :: k in st.entries && k != key ==> k in e.state.entries && e.state.entries[k] == st.entries[k])
      && e.state.entries.Keys <= st.entries.Keys + {key}
  {
  }

  /**
   * When runs are made, the stored entry is the raw list: the cached scores
   * stay a prefix, and each new score is the score of the next run.
   */
  lemma EvaluateAppendsRuns(setup: ScorerSetup, st: CacheState, params: Assignment, numRuns: int, knockout: Option<real>)
    ensures var e := EvaluateSpec(setup, st, params, numRuns, knockout);
      var key := KeyOf(setup, params);
      var stored := Stored(setup, st, params);
      e.state != st ==>
        && key in e.state.entries
        && e.state.entries[key].params == stored.params
        && |e.state.entries[key].scores| == |stored.scores| + (e.state.runs - st.runs)
        && RunsAppended(setup, Stripped(setup, params), stored.scores, e.state.entries[key].scores, st.runs)
  {
    AtAppendsRuns(setup, st, Stripped(setup, params), KeyOf(setup, params), Stored(setup, st, params), numRuns, knockout);
  }

  lemma AtAppendsRuns(setup: ScorerSetup, st: CacheState, p: Assignment, key: Key, stored: MultiResult, numRuns: int, knockout: Option<real>)
    ensures var e := EvaluateAt(setup, st, p, key, stored, numRuns, knockout);
      e.state != st ==>
        && key in e.state.entries
        && e.state.entries[key].params == stored.params
        && |e.state.entries[key].scores| == |stored.scores| + (e.state.runs - st.runs)
        && RunsAppended(setup, p, stored.scores, e.state.entries[key].scores, st.runs)
  {
    var d := DirectionOf(setup.metric);
    if |stored.scores| < numRuns && !(knockout.Some? && |stored.scores| > 0 && NoBetterThan(d, Worst(d, stored.scores), knockout.value)) {
      var run := SampleRuns(setup, p, stored.scores, st.runs, numRuns - |stored.scores|, knockout);
      SampleRunsAppends(setup, p, stored.scores, st.runs, numRuns - |stored.scores|, knockout);
      var e := EvaluateAt(setup, st, p, key, stored, numRuns, knockout);
      assert e.state.entries[key] == MultiResult(run.scores, stored.params) && e.state.runs == run.runs;
    }
  }

  /**
   * Knockout while sampling: the threshold was given, the last new score is
   * no better than it, no earlier new score was, and the answer is the
   * stored raw list flattened to its worst value, as long as the
   * observations made so far.
   */
  lemma EvaluateKnockoutWhileSampling(setup: ScorerSetup, st: CacheState, params: Assignment, numRuns: int, knockout: Option<real>)
    requires var e := EvaluateSpec(setup, st, params, numRuns, knockout); e.knockedOut && e.state != st
    ensures var e := EvaluateSpec(setup, st, params, numRuns, knockout);
      var key := KeyOf(setup, params);
      var stored := Stored(setup, st, params);
      var raw := e.state.entries[key];
      var d := DirectionOf(setup.metric);
      && knockout.Some?
      && |stored.scores| < |raw.scores| <= numRuns
      && NoBetterThan(d, raw.scores[|raw.scores| - 1], knockout.value)
      && (forall j :: |stored.scores| <= j < |raw.scores| - 1 ==> !NoBetterThan(d, raw.scores[j], knockout.value))
      && e.result == AsKnockoutResult(raw, setup.metric)
      && |e.result.scores| == |raw.scores|
  {
    AtKnockoutWhileSampling(setup, st, Stripped(setup, params), KeyOf(setup, params), Stored(setup, st, params), numRuns, knockout);
  }

  lemma AtKnockoutWhileSampling(setup: ScorerSetup, st: CacheState, p: Assignment, key: Key, stored: MultiResult, numRuns: int, knockout: Option<real>)
    requires var e := EvaluateAt(setup, st, p, key, stored, numRuns, knockout); e.knockedOut && e.state != st
    ensures var e := EvaluateAt(setup, st, p, key, stored, numRuns, knockout);
      var raw := e.state.entries[key];
      var d := DirectionOf(setup.metric);
      && knockout.Some?
      && |stored.scores| < |raw.scores| <= numRuns
      && NoBetterThan(d, raw.scores[|raw.scores| - 1], knockout.value)
      && (forall j :: |stored.scores| <= j < |raw.scores| - 1 ==> !NoBetterThan(d, raw.scores[j], knockout.value))
      && e.result == AsKnockoutResult(raw, setup.metric)
      && |e.result.scores| == |raw.scores|
  {
    SampleRunsKnockout(setup, p, stored.scores, st.runs, numRuns - |stored.scores|, knockout);
  }

  /** Without a knockout the answer is the stored result and holds at least `numRuns` scores (exactly that many when runs were made). */
  lemma EvaluateWithoutKnockout(setup: ScorerSetup, st: CacheState, params: Assignment, numRuns: int, knockout: Option<real>)
    requires !EvaluateSpec(setup, st, params, numRuns, knockout).knockedOut
    ensures var e := EvaluateSpec(setup, st, params, numRuns, knockout);
      && |e.result.scores| >= numRuns
      && (e.state != st ==> |e.result.scores| == numRuns && e.state.entries[KeyOf(setup, params)] == e.result)
  {
  }

  /** With at least one run requested the answer has at least one score, and it never holds a fixed parameter. */
  lemma EvaluateResultUsable(setup: ScorerSetup, st: CacheState, params: Assignment, numRuns: int, knockout: Option<real>)
    requires ValidState(setup, st)
    requires numRuns >= 1
    ensures var r := EvaluateSpec(setup, st, params, numRuns, knockout).result;
      |r.scores| >= 1 && r.params.Keys !! setup.fixedParams.Keys
  {
  }

  /**
   * Asking again with the same arguments makes no run and changes nothing.
   * The answer is the same, except after a knockout on the very last
   * requested run: the raw list then already has `numRuns` scores and is
   * handed back unflattened.
   */
  lemma EvaluateAgain(setup: ScorerSetup, st: CacheState, params: Assignment, numRuns: int, knockout: Option<real>)
    ensures var e1 := EvaluateSpec(setup, st, params, numRuns, knockout);
      var e2 := EvaluateSpec(setup, e1.state, params, numRuns, knockout);
      && e2.state == e1.state
      && (e2.result == e1.result
          || (e1.knockedOut && |e1.result.scores| == numRuns && e2.result == e1.state.entries[KeyOf(setup, params)]))
  {
    var p, key, stored := Stripped(setup, params), KeyOf(setup, params), Stored(setup, st, params);
    var e1 := EvaluateAt(setup, st, p, key, stored, numRuns, knockout);
    AtAppendsRuns(setup, st, p, key, stored, numRuns, knockout);
    var again := if e1.state != st then e1.state.entries[key] else stored;
    assert Stored(setup, e1.state, params) == again;
    AtAgain(setup, st, p, key, stored, numRuns, knockout);
  }

  lemma AtAgain(setup: ScorerSetup, st: CacheState, p: Assignment, key: Key, stored: MultiResult, numRuns: int, knockout: Option<real>)
    ensures var e1 := EvaluateAt(setup, st, p, key, stored, numRuns, knockout);
      var again := if e1.state != st then e1.state.entries[key] else stored;
      var e2 := EvaluateAt(setup, e1.state, p, key, again, numRuns, knockout);
      && e2.state == e1.state
      && (e2.result == e1.result || (e1.knockedOut && |e1.result.scores| == numRuns && e2.result == again))
  {
    var e1 := EvaluateAt(setup, st, p, key, stored, numRuns, knockout);
    var d := DirectionOf(setup.metric);
    if e1.state != st {
      var raw := e1.state.entries[key];
      SampleRunsKnockout(setup, p, stored.scores, st.runs, numRuns - |stored.scores|, knockout);
      if e1.knockedOut && |raw.scores| < numRuns {
        var last := raw.scores[|raw.scores| - 1];
        assert last in raw.scores;
        var w := Worst(d, raw.scores);
        assert Comp(d, last, w) != Worse;
        CompAntisymmetric(d, w, last);
        NoBetterThanTransitive(d, w, last, knockout.value);
      }
    }
  }

  /**
   * Asking again for no more runs than before also makes no run and
   * changes nothing. The answer is the first one, or, after a knockout, the
   * raw list stored under the key when it already holds enough scores.
   */
  lemma EvaluateAgainFewer(setup: ScorerSetup, st: CacheState, params: Assignment, n1: int, n2: int, knockout: Option<real>)
    requires n2 <= n1
    ensures var e1 := EvaluateSpec(setup, st, params, n1, knockout);
      var e2 := EvaluateSpec(setup, e1.state, params, n2, knockout);
      var key := KeyOf(setup, params);
      && e2.state == e1.state
      && (e2.result == e1.result
          || (e1.knockedOut && key in e1.state.entries && |e1.state.entries[key].scores| >= n2
              && e2.result == e1.state.entries[key]))
  {
    var p, key, stored := Stripped(setup, params), KeyOf(setup, params), Stored(setup, st, params);
    var e1 := EvaluateAt(setup, st, p, key, stored, n1, knockout);
    AtAppendsRuns(setup, st, p, key, stored, n1, knockout);
    var again := if e1.state != st then e1.state.entries[key] else stored;
    assert Stored(setup, e1.state, params) == again;
    AtAgainFewer(setup, st, p, key, stored, n1, n2, knockout);
    var e2 := EvaluateAt(setup, e1.state, p, key, again, n2, knockout);
    if e2.result != e1.result {
      assert |again.scores| > 0;
      assert key in e1.state.entries by {
        if e1.state == st {
          assert key in st.entries;
        }
      }
    }
  }

  lemma AtAgainFewer(setup: ScorerSetup, st: CacheState, p: Assignment, key: Key, stored: MultiResult, n1: int, n2: int, knockout: Option<real>)
    requires n2 <= n1
    ensures var e1 := EvaluateAt(setup, st, p, key, stored, n1, knockout);
      var again := if e1.state != st then e1.state.entries[key] else stored;
      var e2 := EvaluateAt(setup, e1.state, p, key, again, n2, knockout);
      && e2.state == e1.state
      && (e2.result == e1.result || (e1.knockedOut && |again.scores| >= n2 && |again.scores| > 0 && e2.result == again))
  {
    var e1 := EvaluateAt(setup, st, p, key, stored, n1, knockout);
    var d := DirectionOf(setup.metric);
    if e1.state != st {
      var raw := e1.state.entries[key];
      SampleRunsKnockout(setup, p, stored.scores, st.runs, n1 - |stored.scores|, knockout);
      if e1.knockedOut && |raw.scores| < n2 {
        var last := raw.scores[|raw.scores| - 1];
        assert last in raw.scores;
        var w := Worst(d, raw.scores);
        assert Comp(d, last, w) != Worse;
        CompAntisymmetric(d, w, last);
        NoBetterThanTransitive(d, w, last, knockout.value);
      }
    }
  }

  /**
   * A cached result that already holds the requested number of scores is
   * never changed by an evaluation with that count, whatever assignment is
   * evaluated: its own key finds enough scores, and any other key leaves it
   * alone.
   */
  lemma EvaluateKeepsSettledEntry(setup: ScorerSetup, st: CacheState, params: Assignment, q: Assignment, numRuns: int, knockout: Option<real>)
    requires |Stored(setup, st, q).scores| >= numRuns
    ensures Stored(setup, EvaluateSpec(setup, st, params, numRuns, knockout).state, q) == Stored(setup, st, q)
  {
    if KeyOf(setup, params) == KeyOf(setup, q) {
      EvaluateWithEnoughScores(setup, st, params, numRuns, knockout);
    } else {
      EvaluateLeavesOtherEntries(setup, st, params, numRuns, knockout);
    }
  }

  /** Later calls with more runs extend the earlier observations: the first scores never change. */
  lemma EvaluateGrowsMonotonically(setup: ScorerSetup, st: CacheState, params: Assignment, n1: int, n2: int)
    requires n1 <= n2
    ensures var e1 := EvaluateSpec(setup, st, params, n1, None);
      var e2 := EvaluateSpec(setup, e1.state, params, n2, None);
      |e1.result.scores| <= |e2.result.scores| && e2.result.scores[..|e1.result.scores|] == e1.result.scores
      && |e2.result.scores| >= n2
  {
    var p, key := Stripped(setup, params), KeyOf(setup, params);
    var e1 := EvaluateSpec(setup, st, params, n1, None);
    var mid := Stored(setup, e1.state, params);
    assert mid == e1.result by {
      if e1.state != st {
        assert key in e1.state.entries;
      }
    }
    var e2 := EvaluateAt(setup, e1.state, p, key, mid, n2, None);
    if |mid.scores| < n2 {
      SampleRunsAppends(setup, p, mid.scores, e1.state.runs, n2 - |mid.scores|, None);
    } else {
      assert e2.result == mid;
    }
  }

  /** Every cached result has scores, so every one has a mean. */
  lemma ResultsAreNonEmpty(setup: ScorerSetup, st: CacheState)
    requires ValidState(setup, st)
    ensures forall r :: r in Results(st) ==> |r.scores| > 0
  {
  }

  // ---------------------------------------------------------------------
  // The scorer object
  // ---------------------------------------------------------------------

  class CachingScorer {
    const metric: Metric
    const fixedParams: Assignment
    const direction: Direction
    /** The external solve routine. */
    const solve: (Assignment, nat) -> SolveOutcome
    var cache: map<Key, MultiResult>
    /** Keys of `cache` in insertion order. */
    var order: seq<Key>
    /** Solver runs made so far; also the index of the next run. */
    var runs: nat

    function Setup(): ScorerSetup
    {
      ScorerSetup(metric, fixedParams, solve)
    }

    function State(): CacheState
      reads this
    {
      CacheState(cache, order, runs)
    }

    ghost predicate Valid()
      reads this
    {
      ValidState(Setup(), State()) && direction == DirectionOf(metric)
    }

    /** A scorer with an empty cache; a missing `fixed_params` is the empty assignment. */
    constructor (metric: Metric, solve: (Assignment, nat) -> SolveOutcome, fixedParams: Assignment)
      ensures Valid()
      ensures this.metric == metric && this.fixedParams == fixedParams && this.direction == DirectionOf(metric)
      ensures State() == CacheState(map[], [], 0)
    {
      this.metric := metric;
      this.fixedParams := fixedParams;
      this.solve := solve;
      this.direction := DirectionOf(metric);
      cache := map[];
      order := [];
      runs := 0;
    }

    /** `evaluate`: up to `numRuns` observations for `params`, cut short by the knockout threshold. */
    method Evaluate(params: Assignment, numRuns: int, knockout: Option<real>) returns (r: MultiResult)
      requires Valid()
      modifies this
      ensures Valid()
      ensures var e := EvaluateSpec(Setup(), old(State()), params, numRuns, knockout);
        r == e.result && State() == e.state
    {
      ghost var st := State();
      var p := RemoveFixed(params, fixedParams);
      var key := CreateKey(p);
      var stored := if key in cache then cache[key] else MultiResult([], p);
      assert p == Stripped(Setup(), params) && key == KeyOf(Setup(), params);
      assert stored == Stored(Setup(), st, params);
      StoredIsStoredUnder(Setup(), st, params);
      AtPreservesValid(Setup(), st, p, key, stored, numRuns, knockout);
      r := EvaluateStored(p, key, stored, numRuns, knockout);
    }

    /** The body of `evaluate` from the stripped parameters, their key and the result to start from. */
    method EvaluateStored(p: Assignment, key: Key, stored: MultiResult, numRuns: int, knockout: Option<real>) returns (r: MultiResult)
      requires direction == DirectionOf(metric)
      modifies this
      ensures var e := EvaluateAt(Setup(), old(State()), p, key, stored, numRuns, knockout);
        r == e.result && State() == e.state
    {
      ghost var st := State();
      ghost var e := EvaluateAt(Setup(), st, p, key, stored, numRuns, knockout);
      if |stored.scores| >= numRuns {
        r := stored;
      } else if knockout.Some? && |stored.scores| > 0 && NoBetterThan(direction, Worst(direction, stored.scores), knockout.value) {
        r := AsKnockoutResult(stored, metric);
      } else {
        var order' := if key in cache then order else order + [key];
        var scores, knockedOut := SampleMissing(p, stored.scores, numRuns - |stored.scores|, knockout);
        ghost var run := SampleRuns(Setup(), p, stored.scores, st.runs, numRuns - |stored.scores|, knockout);
        assert Sampling(scores, runs, knockedOut) == run;
        var result := MultiResult(scores, stored.params);
        cache, order := cache[key := result], order';
        AtSamples(Setup(), st, p, key, stored, numRuns, knockout);
        assert State() == CacheState(st.entries[key := result], order', run.runs);
        r := if knockedOut then AsKnockoutResult(result, metric) else result;
      }
    }

    /**
     * The sampling loop of `evaluate`: solve and score up to `n` more times,
     * appending each score, and stop right after a score no better than the
     * knockout threshold.
     */
    method SampleMissing(p: Assignment, prior: seq<real>, n: nat, knockout: Option<real>) returns (scores: seq<real>, knockedOut: bool)
      requires direction == DirectionOf(metric)
      modifies this`runs
      ensures Sampling(scores, runs, knockedOut) == SampleRuns(Setup(), p, prior, old(runs), n, knockout)
    {
      scores := prior;
      knockedOut := false;
      var i := 0;
      while i < n
        invariant 0 <= i <= n
        invariant runs == old(runs) + i
        invariant SampleRuns(Setup(), p, scores, runs, n - i, knockout) == SampleRuns(Setup(), p, prior, old(runs), n, knockout)
      {
        var score := Score(metric, solve(p + fixedParams, runs));
        runs := runs + 1;
        scores := scores + [score];
        if knockout.Some? && NoBetterThan(direction, score, knockout.value) {
          knockedOut := true;
          return;
        }
        i := i + 1;
      }
    }

    /** `__iter__`: the cached results in insertion order. */
    function Iterate(): (rs: seq<MultiResult>)
      reads this
      requires Valid()
      ensures forall r :: r in rs ==> |r.scores| > 0
    {
      ResultsAreNonEmpty(Setup(), State());
      Results(State())
    }
  }
}
