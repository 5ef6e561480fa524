/**
 * Leave-one-out pruning of a tuned parameter assignment: every parameter is
 * dropped in turn, and it is kept only when the score without it is worse
 * than a threshold halfway between the full assignment's worst and mean
 * score. The kept parameters' score differences are normalised into
 * contributions, and the whole assignment is restored when the pruned one
 * turns out clearly worse.
 *
 * All evaluations go through the scoring cache; `EvaluateParams` says what
 * `ParameterEvaluator.evaluate` returns and leaves in the cache, and the
 * class method is proved to do exactly that.
 */
module ParameterEvaluator {
  import opened Values
  import opened Metrics
  import opened CachingSolver

  /** `EvaluationResult`. */
  datatype EvaluationResult = EvaluationResult(optimizedParams: Assignment, contribution: map<string, real>, optimizedScore: real)

  // ---------------------------------------------------------------------
  // Variants
  // ---------------------------------------------------------------------

  /** The assignment `_generate_variants` pairs with `key`: everything but `key`. */
  function Variant(params: Assignment, key: string): (r: Assignment)
    ensures r.Keys == params.Keys - {key}
  {
    map k | k in params && k != key :: params[k]
  }

  /** `_generate_variants`: one variant per key, in the dictionary's order. */
  function Variants(params: Assignment, keys: seq<string>): (vs: seq<(string, Assignment)>)
    ensures |vs| == |keys|
  {
    seq(|keys|, i requires 0 <= i < |keys| => (keys[i], Variant(params, keys[i])))
  }

  /**
   * Each variant lacks exactly its own key: it has one entry fewer, every
   * other entry is unchanged, and putting the key back gives the original.
   */
  lemma VariantsDropOneKey(params: Assignment, keys: seq<string>, i: int)
    requires 0 <= i < |keys| && keys[i] in params
    ensures var (key, v) := Variants(params, keys)[i];
      && key == keys[i]
      && key !in v
      && |v| == |params| - 1
      && (forall k :: k in v ==> v[k] == params[k])
      && v[key := params[key]] == params
  {
    var key := keys[i];
    var v := Variant(params, key);
    assert v.Keys == params.Keys - {key};
    assert |v.Keys| == |params.Keys| - 1;
  }

  // ---------------------------------------------------------------------
  // The leave-one-out loop
  // ---------------------------------------------------------------------

  /**
   * What the loop works with: the scorer, the full assignment, the number
   * of runs of every evaluation, the direction of the evaluator's metric,
   * and the full assignment's worst and mean score.
   */
  datatype Pruning = Pruning(setup: ScorerSetup, params: Assignment, runs: int, d: Direction, baseWorst: real, baseMean: real)
  {
    /** `accept_as_equal`. */
    function Accept(): real
    {
      (baseWorst + baseMean) / 2.0
    }
  }

  /**
   * The loop's state: the cache, the kept parameters with their values and
   * score differences, the kept keys in insertion order, and the mean
   * score without each key visited so far.
   */
  datatype Sweep = Sweep(state: CacheState, optimized: Assignment, diffs: map<string, real>, kept: seq<string>, without: map<string, real>)

  /** What `_evaluate_single_parameter` returns and leaves in the cache. */
  datatype Scored = Scored(score: Result<real>, state: CacheState)

  function Abs(x: real): (r: real)
    ensures r >= 0.0 && (r == x || r == -x)
  {
    if x < 0.0 then -x else x
  }

  /** `_evaluate_single_parameter`: the mean of `runs` runs of the variant; no scores raise ZeroDivisionError. */
  function SingleSpec(setup: ScorerSetup, st: CacheState, variant: Assignment, runs: int): Scored
  {
    var e := EvaluateSpec(setup, st, variant, runs, None);
    if |e.result.scores| == 0 then Scored(Err(ZeroDivisionError), e.state)
    else Scored(Ok(Mean(e.result.scores)), e.state)
  }

  /** A mean can only fail when no run was asked for, and then the cache is unchanged. */
  lemma SingleFailsOnlyWithoutRuns(setup: ScorerSetup, st: CacheState, variant: Assignment, runs: int)
    ensures var s := SingleSpec(setup, st, variant, runs);
      (s.score.Err? ==> s.score.error == ZeroDivisionError && runs <= 0)
      && (runs <= 0 ==> s.state == st)
  {
    var e := EvaluateSpec(setup, st, variant, runs, None);
    if runs <= 0 {
      EvaluateWithEnoughScores(setup, st, variant, runs, None);
    } else {
      EvaluateWithoutKnockout(setup, st, variant, runs, None);
    }
  }

  /** One turn of the loop for `key`: evaluate without it, and record the outcome. */
  function SweepStep(pr: Pruning, sw: Sweep, key: string): Result<Sweep>
    requires key in pr.params
  {
    Record(pr, sw, key, SingleSpec(pr.setup, sw.state, Variant(pr.params, key), pr.runs))
  }

  /** The outcome of the evaluation without `key`: the key is kept when its score is worse than the threshold. */
  function Record(pr: Pruning, sw: Sweep, key: string, s: Scored): Result<Sweep>
    requires key in pr.params
  {
    if s.score.Err? then Err(s.score.error)
    else
      var score := s.score.value;
      var next := sw.(state := s.state, without := sw.without[key := score]);
      if Comp(pr.d, score, pr.Accept()) in {Equal, Better} then Ok(next)
      else
        Ok(next.(optimized := sw.optimized[key := pr.params[key]],
                 diffs := sw.diffs[key := Abs(pr.baseMean - score)],
                 kept := sw.kept + [key]))
  }

  lemma RecordOk(pr: Pruning, sw: Sweep, key: string, s: Scored)
    requires key in pr.params && s.score.Ok?
    ensures var v := s.score.value;
      var next := Sweep(s.state, sw.optimized, sw.diffs, sw.kept, sw.without[key := v]);
      Record(pr, sw, key, s) == Ok(
        if Comp(pr.d, v, pr.Accept()) == Worse
        then next.(optimized := sw.optimized[key := pr.params[key]], diffs := sw.diffs[key := Abs(pr.baseMean - v)], kept := sw.kept + [key])
        else next)
  {
  }

  /** The loop over `keys`, starting from the cache state `st`. */
  function SweepFrom(pr: Pruning, keys: seq<string>, st: CacheState): Result<Sweep>
    requires forall k :: k in keys ==> k in pr.params
    decreases |keys|
  {
    if keys == [] then Ok(Sweep(st, map[], map[], [], map[]))
    else
      var prev := SweepFrom(pr, keys[..|keys| - 1], st);
      if prev.Err? then prev else SweepStep(pr, prev.value, keys[|keys| - 1])
  }

  /**
   * The loop's bookkeeping: every visited key has its score; the kept keys
   * are listed once each, are exactly the keys of `optimized` and `diffs`,
   * and are exactly the visited keys whose score compares WORSE to the
   * threshold; a kept key keeps its original value, and its difference is
   * the distance of its score from the full mean.
   */
  ghost predicate Consistent(pr: Pruning, keys: seq<string>, sw: Sweep)
  {
    && (forall k :: k in sw.without <==> k in keys)
    && (forall k :: k in sw.optimized <==> k in sw.kept)
    && sw.diffs.Keys == sw.optimized.Keys
    && Distinct(sw.kept)
    && (forall k :: k in keys ==> (k in sw.optimized <==> Comp(pr.d, sw.without[k], pr.Accept()) == Worse))
    && (forall k :: k in sw.optimized ==>
          && k in keys
          && k in pr.params
          && sw.optimized[k] == pr.params[k]
          && sw.diffs[k] == Abs(pr.baseMean - sw.without[k]))
  }

  /**
   * The loop keeps exactly the parameters whose removal scores worse than
   * the threshold, with their own values; the score of each removal is the
   * mean cached for its variant.
   */
  lemma SweepFromConsistent(pr: Pruning, keys: seq<string>, st: CacheState)
    requires Distinct(keys) && forall k :: k in keys ==> k in pr.params
    ensures SweepFrom(pr, keys, st).Ok? ==> Consistent(pr, keys, SweepFrom(pr, keys, st).value)
    ensures SweepFrom(pr, keys, st).Ok? ==> RecordsCachedMeans(pr, keys, SweepFrom(pr, keys, st).value)
  {
    SweepFromBookkeeping(pr, keys, st);
    SweepFromRecordsMeans(pr, keys, st);
  }

  /** The bookkeeping half of `SweepFromConsistent`, by induction on the keys. */
  lemma {:induction false} SweepFromBookkeeping(pr: Pruning, keys: seq<string>, st: CacheState)
    requires Distinct(keys) && forall k :: k in keys ==> k in pr.params
    ensures SweepFrom(pr, keys, st).Ok? ==> Consistent(pr, keys, SweepFrom(pr, keys, st).value)
    decreases |keys|
  {
    if keys != [] {
      var init := keys[..|keys| - 1];
      var key := keys[|keys| - 1];
      assert Distinct(init);
      assert key !in init;
      SweepFromBookkeeping(pr, init, st);
      var prev := SweepFrom(pr, init, st);
      if prev.Ok? {
        var sw := prev.value;
        assert init + [key] == keys;
        RecordConsistent(pr, init, sw, key, SingleSpec(pr.setup, sw.state, Variant(pr.params, key), pr.runs));
      }
    }
  }

  /** Recording one more key's outcome keeps the bookkeeping consistent. */
  lemma RecordConsistent(pr: Pruning, visited: seq<string>, sw: Sweep, key: string, s: Scored)
    requires key in pr.params && key !in visited
    requires Consistent(pr, visited, sw)
    ensures Record(pr, sw, key, s).Ok? ==> Consistent(pr, visited + [key], Record(pr, sw, key, s).value)
  {
    if s.score.Ok? {
      var v := s.score.value;
      RecordOk(pr, sw, key, s);
      if Comp(pr.d, v, pr.Accept()) == Worse {
        var kept := Sweep(s.state, sw.optimized[key := pr.params[key]], sw.diffs[key := Abs(pr.baseMean - v)],
                          sw.kept + [key], sw.without[key := v]);
        assert Record(pr, sw, key, s) == Ok(kept);
        KeepConsistent(pr, visited, sw, key, v, s.state);
      } else {
        var skipped := Sweep(s.state, sw.optimized, sw.diffs, sw.kept, sw.without[key := v]);
        assert Record(pr, sw, key, s) == Ok(skipped);
        SkipConsistent(pr, visited, sw, key, v, s.state);
      }
    }
  }

  /** Recording a removal that scores no worse than the threshold keeps the sweep consistent. */
  lemma SkipConsistent(pr: Pruning, visited: seq<string>, sw: Sweep, key: string, v: real, st: CacheState)
    requires key in pr.params && key !in visited
    requires Consistent(pr, visited, sw)
    requires Comp(pr.d, v, pr.Accept()) != Worse
    ensures Consistent(pr, visited + [key], Sweep(st, sw.optimized, sw.diffs, sw.kept, sw.without[key := v]))
  {
    var keys := visited + [key];
    assert key !in sw.optimized;
    forall k ensures k in sw.without[key := v] <==> k in keys {
      assert k in keys <==> k in visited || k == key;
    }
  }

  /** Recording a removal that scores worse than the threshold keeps the sweep consistent. */
  lemma KeepConsistent(pr: Pruning, visited: seq<string>, sw: Sweep, key: string, v: real, st: CacheState)
    requires key in pr.params && key !in visited
    requires Consistent(pr, visited, sw)
    requires Comp(pr.d, v, pr.Accept()) == Worse
    ensures Consistent(pr, visited + [key], Sweep(st, sw.optimized[key := pr.params[key]], sw.diffs[key := Abs(pr.baseMean - v)],
                                                 sw.kept + [key], sw.without[key := v]))
  {
    var keys := visited + [key];
    var kept := sw.kept + [key];
    assert key !in sw.kept;
    forall k ensures k in sw.without[key := v] <==> k in keys {
      assert k in keys <==> k in visited || k == key;
    }
    forall i, j | 0 <= i < j < |kept| ensures kept[i] != kept[j] {
      if j == |sw.kept| {
        assert kept[i] == sw.kept[i];
      }
    }
  }

  /**
   * The scores the loop records are the cache's: every visited key's score
   * is the mean of the result cached for its variant, which holds at least
   * `runs` scores.
   */
  ghost predicate RecordsCachedMeans(pr: Pruning, keys: seq<string>, sw: Sweep)
  {
    forall k :: k in keys ==>
      var s := Stored(pr.setup, sw.state, Variant(pr.params, k)).scores;
      k in sw.without && |s| > 0 && |s| >= pr.runs && sw.without[k] == Mean(s)
  }

  /** Each score the loop records is the mean of the variant's cached runs, and stays so until the loop ends. */
  lemma {:induction false} SweepFromRecordsMeans(pr: Pruning, keys: seq<string>, st: CacheState)
    requires forall k :: k in keys ==> k in pr.params
    ensures SweepFrom(pr, keys, st).Ok? ==> RecordsCachedMeans(pr, keys, SweepFrom(pr, keys, st).value)
    decreases |keys|
  {
    if keys != [] {
      var init := keys[..|keys| - 1];
      var key := keys[|keys| - 1];
      assert keys == init + [key];
      SweepFromRecordsMeans(pr, init, st);
      var prev := SweepFrom(pr, init, st);
      if prev.Ok? {
        var sw := prev.value;
        var v := Variant(pr.params, key);
        var e := EvaluateSpec(pr.setup, sw.state, v, pr.runs, None);
        var s := SingleSpec(pr.setup, sw.state, v, pr.runs);
        if s.score.Ok? {
          RecordOk(pr, sw, key, s);
          var next := Record(pr, sw, key, s).value;
          assert next.state == e.state && next.without == sw.without[key := Mean(e.result.scores)];
          EvaluateWithoutKnockout(pr.setup, sw.state, v, pr.runs, None);
          assert Stored(pr.setup, e.state, v) == e.result by {
            if e.state != sw.state {
              assert KeyOf(pr.setup, v) in e.state.entries;
            }
          }
          forall k | k in keys
            ensures var s' := Stored(pr.setup, next.state, Variant(pr.params, k)).scores;
              k in next.without && |s'| > 0 && |s'| >= pr.runs && next.without[k] == Mean(s')
          {
            if k != key {
              assert k in init;
              EvaluateKeepsSettledEntry(pr.setup, sw.state, v, Variant(pr.params, k), pr.runs, None);
            }
          }
        }
      }
    }
  }

  /** The evaluation of the pruned assignment after the loop leaves the recorded means cached. */
  lemma ConcludeKeepsRecords(pr: Pruning, keys: seq<string>, sw: Sweep)
    requires forall k :: k in sw.kept <==> k in sw.diffs
    requires RecordsCachedMeans(pr, keys, sw)
    ensures RecordsCachedMeans(pr, keys, sw.(state := Conclude(pr, sw).state))
  {
    var st' := Conclude(pr, sw).state;
    forall k | k in keys
      ensures Stored(pr.setup, st', Variant(pr.params, k)) == Stored(pr.setup, sw.state, Variant(pr.params, k))
    {
      EvaluateKeepsSettledEntry(pr.setup, sw.state, sw.optimized, Variant(pr.params, k), pr.runs, None);
    }
  }

  /** The loop keeps the cache consistent. */
  lemma {:induction false} SweepFromKeepsValid(pr: Pruning, keys: seq<string>, st: CacheState)
    requires forall k :: k in keys ==> k in pr.params
    requires ValidState(pr.setup, st)
    ensures SweepFrom(pr, keys, st).Ok? ==> ValidState(pr.setup, SweepFrom(pr, keys, st).value.state)
    decreases |keys|
  {
    if keys != [] {
      var init := keys[..|keys| - 1];
      var key := keys[|keys| - 1];
      SweepFromKeepsValid(pr, init, st);
      var prev := SweepFrom(pr, init, st);
      if prev.Ok? {
        EvaluatePreservesValid(pr.setup, prev.value.state, Variant(pr.params, key), pr.runs, None);
      }
    }
  }

  /** The loop fails only on a missing mean, which needs a non-positive run count; then the cache never changes. */
  lemma {:induction false} SweepFromFailsOnlyWithoutRuns(pr: Pruning, keys: seq<string>, st: CacheState)
    requires forall k :: k in keys ==> k in pr.params
    ensures var r := SweepFrom(pr, keys, st);
      (r.Err? ==> r.error == ZeroDivisionError && pr.runs <= 0)
      && (r.Ok? && pr.runs <= 0 ==> r.value.state == st)
    decreases |keys|
  {
    if keys != [] {
      var init := keys[..|keys| - 1];
      var key := keys[|keys| - 1];
      SweepFromFailsOnlyWithoutRuns(pr, init, st);
      var prev := SweepFrom(pr, init, st);
      if prev.Ok? {
        SingleFailsOnlyWithoutRuns(pr.setup, prev.value.state, Variant(pr.params, key), pr.runs);
      }
    }
  }

  lemma SweepFromStep(pr: Pruning, keys: seq<string>, st: CacheState, i: int)
    requires forall k :: k in keys ==> k in pr.params
    requires 0 <= i < |keys|
    ensures var prev := SweepFrom(pr, keys[..i], st);
      SweepFrom(pr, keys[..i + 1], st) == if prev.Err? then prev else SweepStep(pr, prev.value, keys[i])
  {
    assert keys[..i + 1][..i] == keys[..i];
  }

  /** Once a prefix of the keys fails, the whole loop fails the same way. */
  lemma {:induction false} SweepFromStopsAtError(pr: Pruning, keys: seq<string>, i: int, st: CacheState)
    requires forall k :: k in keys ==> k in pr.params
    requires 0 <= i <= |keys|
    requires SweepFrom(pr, keys[..i], st).Err?
    ensures SweepFrom(pr, keys, st) == SweepFrom(pr, keys[..i], st)
    decreases |keys| - i
  {
    if i < |keys| {
      SweepFromStep(pr, keys, st, i);
      SweepFromStopsAtError(pr, keys, i + 1, st);
    } else {
      assert keys[..i] == keys;
    }
  }

  // ---------------------------------------------------------------------
  // Contributions
  // ---------------------------------------------------------------------

  /** `sum(diffs.values())`, over the keys in insertion order. */
  function SumOver(m: map<string, real>, ks: seq<string>): real
    requires forall k :: k in ks ==> k in m
  {
    if ks == [] then 0.0 else m[ks[0]] + SumOver(m, ks[1..])
  }

  /** `significance`: each kept key's share of the total difference; no kept key gives no share. */
  function Normalize(diffs: map<string, real>, kept: seq<string>): Result<map<string, real>>
    requires forall k :: k in kept <==> k in diffs
  {
    if kept == [] then Ok(map[])
    else
      var total := SumOver(diffs, kept);
      if total == 0.0 then Err(ZeroDivisionError)
      else Ok(map k | k in diffs :: diffs[k] / total)
  }

  lemma {:induction false} SumOverNonNegative(m: map<string, real>, ks: seq<string>, k: string)
    requires forall x :: x in ks ==> x in m && m[x] >= 0.0
    ensures SumOver(m, ks) >= 0.0
    ensures k in ks ==> m[k] <= SumOver(m, ks)
    ensures SumOver(m, ks) == 0.0 ==> k in ks ==> m[k] == 0.0
    decreases |ks|
  {
    if ks != [] {
      assert forall x :: x in ks[1..] ==> x in ks;
      SumOverNonNegative(m, ks[1..], k);
      if k in ks && k != ks[0] {
        assert k in ks[1..];
      }
    }
  }

  lemma {:induction false} SumOverZero(m: map<string, real>, ks: seq<string>)
    requires forall x :: x in ks ==> x in m && m[x] == 0.0
    ensures SumOver(m, ks) == 0.0
    decreases |ks|
  {
    if ks != [] {
      assert forall x :: x in ks[1..] ==> x in ks;
      SumOverZero(m, ks[1..]);
    }
  }

  lemma {:induction false} SumOverScaled(m: map<string, real>, scaled: map<string, real>, ks: seq<string>, t: real)
    requires t != 0.0
    requires forall x :: x in ks ==> x in m && x in scaled && scaled[x] == m[x] / t
    ensures SumOver(scaled, ks) == SumOver(m, ks) / t
    decreases |ks|
  {
    if ks != [] {
      assert forall x :: x in ks[1..] ==> x in ks;
      SumOverScaled(m, scaled, ks[1..], t);
      DivideSum(m[ks[0]], SumOver(m, ks[1..]), t);
    }
  }

  lemma DivideSum(a: real, b: real, t: real)
    requires t != 0.0
    ensures a / t + b / t == (a + b) / t
  {
  }

  /** The division fails exactly when there are kept keys and all their differences are zero. */
  lemma NormalizeFailsIff(diffs: map<string, real>, kept: seq<string>)
    requires forall k :: k in kept <==> k in diffs
    requires forall k :: k in diffs ==> diffs[k] >= 0.0
    ensures var r := Normalize(diffs, kept);
      && (r.Err? <==> kept != [] && forall k :: k in diffs ==> diffs[k] == 0.0)
      && (r.Err? ==> r.error == ZeroDivisionError)
  {
    if kept != [] {
      if SumOver(diffs, kept) == 0.0 {
        forall k | k in diffs ensures diffs[k] == 0.0 {
          SumOverNonNegative(diffs, kept, k);
        }
      } else if forall k :: k in diffs ==> diffs[k] == 0.0 {
        SumOverZero(diffs, kept);
      }
    }
  }

  /** Non-negative differences normalise to shares in [0, 1] of the same keys. */
  lemma NormalizeSharesBounded(diffs: map<string, real>, kept: seq<string>)
    requires forall k :: k in kept <==> k in diffs
    requires forall k :: k in diffs ==> diffs[k] >= 0.0
    ensures var r := Normalize(diffs, kept);
      r.Ok? ==> r.value.Keys == diffs.Keys && forall k :: k in r.value ==> 0.0 <= r.value[k] <= 1.0
  {
    var r := Normalize(diffs, kept);
    if kept != [] && r.Ok? {
      var total := SumOver(diffs, kept);
      SumOverNonNegative(diffs, kept, kept[0]);
      forall k | k in r.value ensures 0.0 <= r.value[k] <= 1.0 {
        SumOverNonNegative(diffs, kept, k);
        DivideBounds(diffs[k], total, 0.0, 1.0);
      }
    }
  }

  /** The shares of the kept keys add up to 1. */
  lemma NormalizeSharesSumToOne(diffs: map<string, real>, kept: seq<string>)
    requires forall k :: k in kept <==> k in diffs
    ensures var r := Normalize(diffs, kept);
      r.Ok? && kept != [] ==> SumOver(r.value, kept) == 1.0
  {
    var r := Normalize(diffs, kept);
    if kept != [] && r.Ok? {
      var total := SumOver(diffs, kept);
      var shares := r.value;
      assert shares == map k | k in diffs :: diffs[k] / total;
      forall x | x in kept ensures x in diffs && x in shares && shares[x] == diffs[x] / total { }
      SumOverScaled(diffs, shares, kept, total);
      DivideSelf(total);
    }
  }

  lemma DivideSelf(t: real)
    requires t != 0.0
    ensures t / t == 1.0
  {
  }

  // ---------------------------------------------------------------------
  // The whole evaluation
  // ---------------------------------------------------------------------

  /** What `evaluate` returns, or the error it raises, and what it leaves in the cache. */
  datatype Outcome = Outcome(result: Result<EvaluationResult>, state: CacheState)

  /** The full assignment's evaluation, the threshold's source. */
  function Baseline(setup: ScorerSetup, st: CacheState, params: Assignment, runs: int): Evaluation
  {
    EvaluateSpec(setup, st, params, runs, None)
  }

  /**
   * `ParameterEvaluator.evaluate` on the cache state. The keys of `params`
   * come in insertion order. `worst` of no scores raises ValueError; a
   * failed leave-one-out mean raises ZeroDivisionError, which leaves the
   * cache as the baseline evaluation left it (SweepFromFailsOnlyWithoutRuns).
   */
  function EvaluateParams(setup: ScorerSetup, st: CacheState, metric: Metric, params: Assignment, keys: seq<string>, runs: int): Outcome
    requires Distinct(keys) && forall k :: k in keys ==> k in params
  {
    var d := DirectionOf(metric);
    var base := Baseline(setup, st, params, runs);
    var b := base.result.scores;
    if |b| == 0 then Outcome(Err(ValueError), base.state)
    else
      var pr := Pruning(setup, params, runs, d, Worst(d, b), Mean(b));
      var sweep := SweepFrom(pr, keys, base.state);
      if sweep.Err? then Outcome(Err(sweep.error), base.state)
      else
        SweepFromBookkeeping(pr, keys, base.state);
        Conclude(pr, sweep.value)
  }

  /**
   * The end of `evaluate` after the loop: the contributions, the pruned
   * assignment's evaluation (`best` of no scores raises ValueError), and
   * the revert to the full assignment when the full assignment's worst
   * score beats the pruned one's best.
   */
  function Conclude(pr: Pruning, sw: Sweep): Outcome
    requires forall k :: k in sw.kept <==> k in sw.diffs
  {
    var significance := Normalize(sw.diffs, sw.kept);
    if significance.Err? then Outcome(Err(significance.error), sw.state)
    else
      var pruned := EvaluateSpec(pr.setup, sw.state, sw.optimized, pr.runs, None);
      var p := pruned.result.scores;
      if |p| == 0 then Outcome(Err(ValueError), pruned.state)
      else if Comp(pr.d, pr.baseWorst, Best(pr.d, p)) == Better then
        Outcome(Ok(EvaluationResult(pr.params, map[], pr.baseMean)), pruned.state)
      else
        Outcome(Ok(EvaluationResult(sw.optimized, significance.value, Mean(p))), pruned.state)
  }

  /** The threshold lies between the full assignment's worst score and its mean. */
  lemma AcceptBetweenWorstAndMean(d: Direction, b: seq<real>)
    requires |b| > 0
    ensures var accept := (Worst(d, b) + Mean(b)) / 2.0;
      NoBetterThan(d, Worst(d, b), accept) && NoBetterThan(d, accept, Mean(b))
  {
    WorstIsExtreme(d, b);
    MeanBetweenMinAndMax(b);
  }

  /** A kept parameter's removal scores worse than the full mean, and its difference is positive. */
  lemma KeptOnlyIfRemovalHurts(pr: Pruning, keys: seq<string>, sw: Sweep, k: string, b: seq<real>)
    requires |b| > 0 && pr.baseWorst == Worst(pr.d, b) && pr.baseMean == Mean(b)
    requires Consistent(pr, keys, sw)
    requires k in sw.optimized
    ensures Comp(pr.d, sw.without[k], pr.baseMean) == Worse
    ensures sw.diffs[k] > 0.0
    ensures RecordsCachedMeans(pr, keys, sw) ==>
      Comp(pr.d, Mean(Stored(pr.setup, sw.state, Variant(pr.params, k)).scores), pr.baseMean) == Worse
  {
    AcceptBetweenWorstAndMean(pr.d, b);
  }

  /**
   * The reported parameters are a sub-assignment of the input: every
   * reported key is an input key with its input value.
   */
  lemma EvaluateParamsSubset(setup: ScorerSetup, st: CacheState, metric: Metric, params: Assignment, keys: seq<string>, runs: int)
    requires Distinct(keys) && forall k :: k in keys ==> k in params
    ensures var o := EvaluateParams(setup, st, metric, params, keys, runs);
      o.result.Ok? ==> forall k :: k in o.result.value.optimizedParams ==>
        k in params && o.result.value.optimizedParams[k] == params[k]
  {
    var d := DirectionOf(metric);
    var base := Baseline(setup, st, params, runs);
    var b := base.result.scores;
    if |b| > 0 {
      var pr := Pruning(setup, params, runs, d, Worst(d, b), Mean(b));
      var sweep := SweepFrom(pr, keys, base.state);
      SweepFromBookkeeping(pr, keys, base.state);
      if sweep.Ok? {
        assert EvaluateParams(setup, st, metric, params, keys, runs) == Conclude(pr, sweep.value);
        ConcludeSubset(pr, keys, sweep.value);
      }
    }
  }

  lemma ConcludeSubset(pr: Pruning, keys: seq<string>, sw: Sweep)
    requires Consistent(pr, keys, sw)
    ensures var o := Conclude(pr, sw);
      o.result.Ok? ==> forall k :: k in o.result.value.optimizedParams ==>
        k in pr.params && o.result.value.optimizedParams[k] == pr.params[k]
  {
  }

  /**
   * After a consistent loop the contributions are shares in [0, 1] of
   * exactly the reported keys and add up to 1 over the kept keys, or there
   * are none (no kept key, or the result reverted).
   */
  lemma ConcludeContributions(pr: Pruning, keys: seq<string>, sw: Sweep)
    requires Consistent(pr, keys, sw)
    ensures var o := Conclude(pr, sw);
      o.result.Ok? ==>
        var c := o.result.value.contribution;
        && (forall k :: k in c ==> 0.0 <= c[k] <= 1.0)
        && (c == map[] || (c.Keys == o.result.value.optimizedParams.Keys
                           && exists ks: seq<string> :: Distinct(ks) && (forall k :: k in ks <==> k in c) && SumOver(c, ks) == 1.0))
  {
    NormalizeSharesBounded(sw.diffs, sw.kept);
    NormalizeSharesSumToOne(sw.diffs, sw.kept);
    var o := Conclude(pr, sw);
    if o.result.Ok? && o.result.value.contribution != map[] {
      var c := o.result.value.contribution;
      assert Distinct(sw.kept) && (forall k :: k in sw.kept <==> k in c) && SumOver(c, sw.kept) == 1.0;
    }
  }

  /** The contributions are shares in [0, 1] of the reported keys that add up to 1, or there are none. */
  lemma EvaluateParamsContributions(setup: ScorerSetup, st: CacheState, metric: Metric, params: Assignment, keys: seq<string>, runs: int)
    requires Distinct(keys) && forall k :: k in keys ==> k in params
    ensures var o := EvaluateParams(setup, st, metric, params, keys, runs);
      o.result.Ok? ==>
        var c := o.result.value.contribution;
        && (forall k :: k in c ==> 0.0 <= c[k] <= 1.0)
        && (c == map[] || (c.Keys == o.result.value.optimizedParams.Keys
                           && exists ks: seq<string> :: Distinct(ks) && (forall k :: k in ks <==> k in c) && SumOver(c, ks) == 1.0))
  {
    var d := DirectionOf(metric);
    var base := Baseline(setup, st, params, runs);
    var b := base.result.scores;
    if |b| > 0 {
      var pr := Pruning(setup, params, runs, d, Worst(d, b), Mean(b));
      var sweep := SweepFrom(pr, keys, base.state);
      SweepFromBookkeeping(pr, keys, base.state);
      if sweep.Ok? {
        var sw := sweep.value;
        ConcludeContributions(pr, keys, sw);
        assert EvaluateParams(setup, st, metric, params, keys, runs) == Conclude(pr, sw);
      }
    }
  }

  /**
   * The revert rule after the loop: either the full assignment is reported
   * with no contributions and the full mean, or the pruned one is reported
   * with its own mean, and then the full assignment's worst score does not
   * beat the pruned assignment's best. Which of the two happens is decided
   * by that comparison alone: the full assignment comes back exactly when
   * its worst score beats the best score cached for the pruned one.
   */
  lemma ConcludeRevert(pr: Pruning, sw: Sweep)
    requires forall k :: k in sw.kept <==> k in sw.diffs
    ensures var o := Conclude(pr, sw);
      o.result.Ok? ==>
        var res := o.result.value;
        var pruned := Stored(pr.setup, o.state, res.optimizedParams).scores;
        || (res.optimizedParams == pr.params && res.contribution == map[] && res.optimizedScore == pr.baseMean)
        || (|pruned| > 0 && NoBetterThan(pr.d, pr.baseWorst, Best(pr.d, pruned)) && res.optimizedScore == Mean(pruned))
    ensures var o := Conclude(pr, sw);
      o.result.Ok? ==>
        var res := o.result.value;
        var p := Stored(pr.setup, o.state, sw.optimized).scores;
        && |p| > 0
        && (Comp(pr.d, pr.baseWorst, Best(pr.d, p)) == Better ==>
              res.optimizedParams == pr.params && res.contribution == map[] && res.optimizedScore == pr.baseMean)
        && (Comp(pr.d, pr.baseWorst, Best(pr.d, p)) != Better ==>
              res.optimizedParams == sw.optimized && Normalize(sw.diffs, sw.kept) == Ok(res.contribution) && res.optimizedScore == Mean(p))
  {
    var e := EvaluateSpec(pr.setup, sw.state, sw.optimized, pr.runs, None);
    assert Stored(pr.setup, e.state, sw.optimized) == e.result by {
      if e.state != sw.state {
        assert KeyOf(pr.setup, sw.optimized) in e.state.entries;
      }
    }
    if |e.result.scores| > 0 {
      CompAntisymmetric(pr.d, pr.baseWorst, Best(pr.d, e.result.scores));
    }
  }

  /**
   * The revert rule: either the input assignment is reported with no
   * contributions and the full mean, or the pruned assignment is reported
   * with its own mean, and then the full assignment's worst score does not
   * beat the pruned assignment's best score.
   */
  lemma EvaluateParamsRevert(setup: ScorerSetup, st: CacheState, metric: Metric, params: Assignment, keys: seq<string>, runs: int)
    requires Distinct(keys) && forall k :: k in keys ==> k in params
    ensures var o := EvaluateParams(setup, st, metric, params, keys, runs);
      var d := DirectionOf(metric);
      var b := Baseline(setup, st, params, runs).result.scores;
      o.result.Ok? ==>
        var res := o.result.value;
        var pruned := Stored(setup, o.state, res.optimizedParams).scores;
        && |b| > 0
        && ((res.optimizedParams == params && res.contribution == map[] && res.optimizedScore == Mean(b))
            || (|pruned| > 0 && NoBetterThan(d, Worst(d, b), Best(d, pruned)) && res.optimizedScore == Mean(pruned)))
    ensures var o := EvaluateParams(setup, st, metric, params, keys, runs);
      var d := DirectionOf(metric);
      var b := Baseline(setup, st, params, runs).result.scores;
      o.result.Ok? ==>
        var res := o.result.value;
        exists kept: Assignment :: PrunedTo(setup, o.state, d, params, b, kept, res) && KeptByRemoval(setup, o.state, d, params, b, keys, kept)
  {
    var d := DirectionOf(metric);
    var base := Baseline(setup, st, params, runs);
    var b := base.result.scores;
    if |b| > 0 {
      var pr := Pruning(setup, params, runs, d, Worst(d, b), Mean(b));
      SweepFromBookkeeping(pr, keys, base.state);
      SweepFromRecordsMeans(pr, keys, base.state);
      var sweep := SweepFrom(pr, keys, base.state);
      if sweep.Ok? {
        var sw := sweep.value;
        ConcludeRevert(pr, sw);
        ConcludeReportsPruned(pr, keys, sw, b);
        assert EvaluateParams(setup, st, metric, params, keys, runs) == Conclude(pr, sw);
      }
    }
  }

  /** After a consistent loop, the report is for the loop's kept parameters, which are kept by their variants' cached means. */
  lemma ConcludeReportsPruned(pr: Pruning, keys: seq<string>, sw: Sweep, b: seq<real>)
    requires |b| > 0 && pr.baseWorst == Worst(pr.d, b) && pr.baseMean == Mean(b)
    requires Consistent(pr, keys, sw) && RecordsCachedMeans(pr, keys, sw)
    ensures var o := Conclude(pr, sw);
      o.result.Ok? ==>
        PrunedTo(pr.setup, o.state, pr.d, pr.params, b, sw.optimized, o.result.value)
        && KeptByRemoval(pr.setup, o.state, pr.d, pr.params, b, keys, sw.optimized)
  {
    var o := Conclude(pr, sw);
    if o.result.Ok? {
      ConcludeRevert(pr, sw);
      ConcludeKeepsRecords(pr, keys, sw);
      RecordsGiveKept(pr, keys, sw, o.state, b);
      var p := Stored(pr.setup, o.state, sw.optimized).scores;
      assert pr.baseWorst == Worst(pr.d, b) && |p| > 0;
    }
  }

  /** Consistent bookkeeping over cached means: the kept keys are those whose variant's cached mean is worse than the threshold. */
  lemma RecordsGiveKept(pr: Pruning, keys: seq<string>, sw: Sweep, st: CacheState, b: seq<real>)
    requires |b| > 0 && pr.baseWorst == Worst(pr.d, b) && pr.baseMean == Mean(b)
    requires Consistent(pr, keys, sw) && RecordsCachedMeans(pr, keys, sw.(state := st))
    ensures KeptByRemoval(pr.setup, st, pr.d, pr.params, b, keys, sw.optimized)
  {
    assert pr.Accept() == (Worst(pr.d, b) + Mean(b)) / 2.0;
  }

  /**
   * `kept` holds exactly the keys whose variant's cached mean is worse than
   * the threshold halfway between the full worst score and the full mean.
   */
  ghost predicate KeptByRemoval(setup: ScorerSetup, st: CacheState, d: Direction, params: Assignment, b: seq<real>, keys: seq<string>, kept: Assignment)
    requires |b| > 0
  {
    && (forall k :: k in kept ==> k in keys)
    && (forall k :: k in keys ==>
          var s := Stored(setup, st, Variant(params, k)).scores;
          |s| > 0 && (k in kept <==> Comp(d, Mean(s), (Worst(d, b) + Mean(b)) / 2.0) == Worse))
  }

  /**
   * `res` is the report for the pruned sub-assignment `kept` of `params`:
   * the full assignment with no contributions and the full mean exactly
   * when the full worst score `Worst(d, b)` beats the best score cached
   * for `kept`, and otherwise `kept` itself with its own mean.
   */
  ghost predicate PrunedTo(setup: ScorerSetup, st: CacheState, d: Direction, params: Assignment, b: seq<real>, kept: Assignment, res: EvaluationResult)
    requires |b| > 0
  {
    var p := Stored(setup, st, kept).scores;
    && (forall k :: k in kept ==> k in params && kept[k] == params[k])
    && |p| > 0
    && (Comp(d, Worst(d, b), Best(d, p)) == Better ==>
          res.optimizedParams == params && res.contribution == map[] && res.optimizedScore == Mean(b))
    && (Comp(d, Worst(d, b), Best(d, p)) != Better ==>
          res.optimizedParams == kept && res.optimizedScore == Mean(p))
  }

  /** With at least one run, the end of `evaluate` fails only on a zero total difference. */
  lemma ConcludeWithRuns(pr: Pruning, sw: Sweep)
    requires forall k :: k in sw.kept <==> k in sw.diffs
    requires pr.runs >= 1
    ensures var o := Conclude(pr, sw);
      o.result.Err? ==> o.result.error == ZeroDivisionError
  {
    EvaluateWithoutKnockout(pr.setup, sw.state, sw.optimized, pr.runs, None);
  }

  /** With at least one run per evaluation the only possible failure is the division by a zero total difference. */
  lemma EvaluateParamsWithRuns(setup: ScorerSetup, st: CacheState, metric: Metric, params: Assignment, keys: seq<string>, runs: int)
    requires Distinct(keys) && forall k :: k in keys ==> k in params
    requires runs >= 1
    ensures var o := EvaluateParams(setup, st, metric, params, keys, runs);
      o.result.Err? ==> o.result.error == ZeroDivisionError
  {
    var d := DirectionOf(metric);
    var base := Baseline(setup, st, params, runs);
    EvaluateWithoutKnockout(setup, st, params, runs, None);
    var b := base.result.scores;
    var pr := Pruning(setup, params, runs, d, Worst(d, b), Mean(b));
    SweepFromFailsOnlyWithoutRuns(pr, keys, base.state);
    SweepFromBookkeeping(pr, keys, base.state);
    var sweep := SweepFrom(pr, keys, base.state);
    if sweep.Ok? {
      ConcludeWithRuns(pr, sweep.value);
    }
  }

  lemma ConcludeKeepsValid(pr: Pruning, sw: Sweep)
    requires forall k :: k in sw.kept <==> k in sw.diffs
    requires ValidState(pr.setup, sw.state)
    ensures ValidState(pr.setup, Conclude(pr, sw).state)
  {
    EvaluatePreservesValid(pr.setup, sw.state, sw.optimized, pr.runs, None);
  }

  /** Evaluation keeps the cache consistent. */
  lemma EvaluateParamsKeepsValid(setup: ScorerSetup, st: CacheState, metric: Metric, params: Assignment, keys: seq<string>, runs: int)
    requires Distinct(keys) && forall k :: k in keys ==> k in params
    requires ValidState(setup, st)
    ensures ValidState(setup, EvaluateParams(setup, st, metric, params, keys, runs).state)
  {
    var d := DirectionOf(metric);
    var base := Baseline(setup, st, params, runs);
    EvaluatePreservesValid(setup, st, params, runs, None);
    var b := base.result.scores;
    if |b| > 0 {
      var pr := Pruning(setup, params, runs, d, Worst(d, b), Mean(b));
      SweepFromKeepsValid(pr, keys, base.state);
      SweepFromBookkeeping(pr, keys, base.state);
      var sweep := SweepFrom(pr, keys, base.state);
      if sweep.Ok? {
        ConcludeKeepsValid(pr, sweep.value);
      }
    }
  }

  // ---------------------------------------------------------------------
  // The evaluator object
  // ---------------------------------------------------------------------

  class ParameterEvaluator {
    const params: Assignment
    /** The keys of `params` in the dictionary's insertion order. */
    const keys: seq<string>
    const scorer: CachingScorer
    const metric: Metric
    const minBaselineSize: int

    ghost predicate Valid()
      reads this, scorer
    {
      && scorer.Valid()
      && Distinct(keys)
      && (forall k :: k in keys <==> k in params)
    }

    /** `ParameterEvaluator.__init__`; the Python default for `minBaselineSize` is 10. */
    constructor (params: Assignment, keys: seq<string>, scorer: CachingScorer, metric: Metric, minBaselineSize: int)
      requires Distinct(keys) && forall k :: k in keys <==> k in params
      ensures this.params == params && this.keys == keys && this.scorer == scorer
      ensures this.metric == metric && this.minBaselineSize == minBaselineSize
    {
      this.params := params;
      this.keys := keys;
      this.scorer := scorer;
      this.metric := metric;
      this.minBaselineSize := minBaselineSize;
    }

    /** `_evaluate_single_parameter`. */
    method EvaluateSingleParameter(key: string, variant: Assignment) returns (score: Result<real>)
      requires scorer.Valid()
      modifies scorer
      ensures scorer.Valid()
      ensures Scored(score, scorer.State()) == SingleSpec(scorer.Setup(), old(scorer.State()), variant, minBaselineSize)
    {
      var r := scorer.Evaluate(variant, minBaselineSize, None);
      if |r.scores| == 0 {
        score := Err(ZeroDivisionError);
      } else {
        score := Ok(Mean(r.scores));
      }
    }

    /** `evaluate`. */
    method Evaluate() returns (r: Result<EvaluationResult>)
      requires Valid()
      modifies scorer
      ensures scorer.Valid()
      ensures Outcome(r, scorer.State()) == EvaluateParams(scorer.Setup(), old(scorer.State()), metric, params, keys, minBaselineSize)
    {
      var d := DirectionOf(metric);
      var baseline := scorer.Evaluate(params, minBaselineSize, None);
      if |baseline.scores| == 0 {
        return Err(ValueError);
      }
      ghost var st1 := scorer.State();
      var pr := Pruning(scorer.Setup(), params, minBaselineSize, d, Worst(d, baseline.scores), Mean(baseline.scores));
      var sweep := SweepVariants(pr);
      if sweep.Err? {
        return Err(sweep.error);
      }
      SweepFromBookkeeping(pr, keys, st1);
      r := Finish(pr, sweep.value, baseline);
    }

    /**
     * The loop of `evaluate` over the variants: evaluate each, and keep the
     * key when the score without it is worse than `accept_as_equal`.
     */
    method SweepVariants(pr: Pruning) returns (r: Result<Sweep>)
      requires Valid()
      requires pr.setup == scorer.Setup() && pr.params == params && pr.runs == minBaselineSize
      modifies scorer
      ensures scorer.Valid()
      ensures r == SweepFrom(pr, keys, old(scorer.State()))
      ensures scorer.State() == if r.Ok? then r.value.state else old(scorer.State())
    {
      ghost var st1 := scorer.State();
      var acceptAsEqual := pr.Accept();
      var optimized: Assignment := map[];
      var diffs: map<string, real> := map[];
      var kept: seq<string> := [];
      var without: map<string, real> := map[];
      var variants := Variants(params, keys);
      var i := 0;
      while i < |variants|
        invariant 0 <= i <= |keys|
        invariant scorer.Valid()
        invariant SweepFrom(pr, keys[..i], st1) == Ok(Sweep(scorer.State(), optimized, diffs, kept, without))
      {
        var (key, variant) := variants[i];
        SweepFromStep(pr, keys, st1, i);
        ghost var before := scorer.State();
        ghost var sw := Sweep(before, optimized, diffs, kept, without);
        assert key == keys[i] && variant == Variant(params, key);
        var score := EvaluateSingleParameter(key, variant);
        assert SweepFrom(pr, keys[..i + 1], st1) == Record(pr, sw, key, Scored(score, scorer.State()));
        if score.Err? {
          SweepFromStopsAtError(pr, keys, i + 1, st1);
          SweepFromFailsOnlyWithoutRuns(pr, keys[..i], st1);
          SingleFailsOnlyWithoutRuns(scorer.Setup(), before, variant, minBaselineSize);
          return Err(score.error);
        }
        without := without[key := score.value];
        if Comp(pr.d, score.value, acceptAsEqual) == Worse {
          // removing the key degrades the score: it is essential
          optimized := optimized[key := params[key]];
          diffs := diffs[key := Abs(pr.baseMean - score.value)];
          kept := kept + [key];
        }
        RecordOk(pr, sw, key, Scored(score, scorer.State()));
        i := i + 1;
      }
      assert keys[..i] == keys;
      r := Ok(Sweep(scorer.State(), optimized, diffs, kept, without));
    }

    /**
     * The end of `evaluate` after the loop: the contributions, the pruned
     * assignment's evaluation, and the revert to the full assignment.
     */
    method Finish(pr: Pruning, sw: Sweep, baseline: MultiResult) returns (r: Result<EvaluationResult>)
      requires scorer.Valid()
      requires pr.setup == scorer.Setup() && pr.params == params && pr.runs == minBaselineSize && pr.d == DirectionOf(metric)
      requires |baseline.scores| > 0 && pr.baseWorst == Worst(pr.d, baseline.scores) && pr.baseMean == Mean(baseline.scores)
      requires sw.state == scorer.State() && forall k :: k in sw.kept <==> k in sw.diffs
      modifies scorer
      ensures scorer.Valid()
      ensures Outcome(r, scorer.State()) == Conclude(pr, sw)
    {
      var d := pr.d;
      var significance := Normalize(sw.diffs, sw.kept);
      if significance.Err? {
        return Err(significance.error);
      }
      var optimizedScore := scorer.Evaluate(sw.optimized, minBaselineSize, None);
      if |optimizedScore.scores| == 0 {
        return Err(ValueError);
      }
      var chosen, contribution := sw.optimized, significance.value;
      if Comp(d, Worst(d, baseline.scores), Best(d, optimizedScore.scores)) == Better {
        // pruning hurt: revert to the full assignment
        chosen, optimizedScore, contribution := params, baseline, map[];
      }
      r := Ok(EvaluationResult(chosen, contribution, Mean(optimizedScore.scores)));
    }
  }
}
