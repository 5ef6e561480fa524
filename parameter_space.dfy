/**
 * The search space: which descriptors are tunable, which solver parameters
 * are fixed, how a trial becomes a solver assignment (with the cap on how
 * many parameters may leave their default), the search-side defaults, and
 * the difference of a trial from the solver defaults.
 */
module ParameterSpace {
  import opened Values
  import opened Parameters
  import opened CachingSolver

  /** The subsolvers the space's `ignore_subsolvers` parameter may exclude. */
  const SpaceSubsolvers: seq<Scalar> := [
    StrV("default_lp"), StrV("fixed"), StrV("no_lp"), StrV("max_lp"), StrV("pseudo_costs"),
    StrV("reduced_costs"), StrV("quick_restart"), StrV("quick_restart_no_lp"), StrV("lb_tree_search"),
    StrV("probing")
  ]

  /** `CpSatParameterSpace.parameter_space`, in its order. */
  function SpaceTable(): seq<CpSatParameter>
  {
    [
      BoolParameter("use_lns_only", false),
      BoolParameter("repair_hint", false),
      BoolParameter("use_lb_relax_lns", false),
      IntFromOrderedListParameter("preferred_variable_order", 0, [IntV(0), IntV(1), IntV(2)]),
      BoolParameter("use_erwa_heuristic", false),
      IntFromOrderedListParameter("linearization_level", 1, [IntV(0), IntV(1), IntV(2)]),
      CategoryParameter("fp_rounding", IntV(3), [IntV(0), IntV(1), IntV(3), IntV(2)]),
      BoolParameter("randomize_search", false),
      BoolParameter("diversify_lns_params", false),
      BoolParameter("add_objective_cut", false),
      BoolParameter("use_objective_lb_search", false),
      BoolParameter("use_objective_shaving_search", false),
      CategoryParameter("search_branching", IntV(0), [IntV(0), IntV(1), IntV(2), IntV(3), IntV(4), IntV(5), IntV(6), IntV(7), IntV(8)]),
      IntFromOrderedListParameter("cut_level", 1, [IntV(0), IntV(1)]),
      IntFromOrderedListParameter("max_all_diff_cut_size", 1, [IntV(32), IntV(64), IntV(128)]),
      IntFromOrderedListParameter("symmetry_level", 2, [IntV(0), IntV(1), IntV(2)]),
      IntFromOrderedListParameter("max_presolve_iterations", 2, [IntV(1), IntV(2), IntV(3), IntV(5), IntV(10)]),
      IntFromOrderedListParameter("cp_model_probing_level", 2, [IntV(0), IntV(1), IntV(2)]),
      IntFromOrderedListParameter("presolve_probing_deterministic_time_limit", 4,
        [FloatV(0.1), FloatV(1.0), FloatV(5.0), FloatV(10.0), FloatV(30.0)]),
      IntFromOrderedListParameter("presolve_bve_threshold", 1, [IntV(100), IntV(500), IntV(1000)]),
      NewListParameter("ignore_subsolvers", [], SpaceSubsolvers)
    ]
  }

  const SpaceNames: seq<string> := [
    "use_lns_only", "repair_hint", "use_lb_relax_lns", "preferred_variable_order", "use_erwa_heuristic",
    "linearization_level", "fp_rounding", "randomize_search", "diversify_lns_params", "add_objective_cut",
    "use_objective_lb_search", "use_objective_shaving_search", "search_branching", "cut_level",
    "max_all_diff_cut_size", "symmetry_level", "max_presolve_iterations", "cp_model_probing_level",
    "presolve_probing_deterministic_time_limit", "presolve_bve_threshold", "ignore_subsolvers"
  ]

  /** No two descriptors share a name, so the name-keyed dictionary of descriptors loses none. */
  predicate UniqueNames(ps: seq<CpSatParameter>)
  {
    forall i, j :: 0 <= i < j < |ps| ==> ps[i].name != ps[j].name
  }

  function NameSet(ps: seq<CpSatParameter>): set<string>
  {
    set p | p in ps :: p.name
  }

  lemma SpaceNamesInOrder()
    ensures |SpaceTable()| == |SpaceNames|
    ensures forall i :: 0 <= i < |SpaceTable()| ==> SpaceTable()[i].name == SpaceNames[i]
  {
  }

  /** Length and first letter of each name in `SpaceNames`, in three blocks; no two names share both. */
  const SpaceTagsA: seq<(int, char)> := [(12, 'u'), (11, 'r'), (16, 'u'), (24, 'p'), (18, 'u'), (19, 'l'), (11, 'f')]
  const SpaceTagsB: seq<(int, char)> := [(16, 'r'), (20, 'd'), (17, 'a'), (23, 'u'), (28, 'u'), (16, 's'), (9, 'c')]
  const SpaceTagsC: seq<(int, char)> := [(21, 'm'), (14, 's'), (23, 'm'), (22, 'c'), (41, 'p'), (22, 'p'), (17, 'i')]

  lemma SpaceTagsMatch()
    ensures |SpaceTagsA + SpaceTagsB + SpaceTagsC| == |SpaceNames|
    ensures forall i :: 0 <= i < |SpaceNames| ==>
      |SpaceNames[i]| > 0 && (SpaceTagsA + SpaceTagsB + SpaceTagsC)[i] == (|SpaceNames[i]|, SpaceNames[i][0])
  {
  }

  lemma SpaceTagBlocksApart()
    ensures Distinct(SpaceTagsA) && Distinct(SpaceTagsB) && Distinct(SpaceTagsC)
    ensures forall x :: x in SpaceTagsA ==> x !in SpaceTagsB && x !in SpaceTagsC
    ensures forall x :: x in SpaceTagsB ==> x !in SpaceTagsC
  {
  }

  lemma SpaceNamesListDistinct()
    ensures Distinct(SpaceNames)
  {
    var tags := SpaceTagsA + SpaceTagsB + SpaceTagsC;
    SpaceTagsMatch();
    SpaceTagBlocksApart();
    DistinctConcat(SpaceTagsA, SpaceTagsB);
    DistinctConcat(SpaceTagsA + SpaceTagsB, SpaceTagsC);
    forall i, j | 0 <= i < j < |SpaceNames| ensures SpaceNames[i] != SpaceNames[j] {
      assert tags[i] != tags[j];
    }
  }

  /** The space's descriptors have pairwise distinct names. */
  lemma SpaceNamesUnique()
    ensures UniqueNames(SpaceTable())
  {
    SpaceNamesInOrder();
    SpaceNamesListDistinct();
  }

  // ---------------------------------------------------------------------
  // Removing a tunable parameter
  // ---------------------------------------------------------------------

  /** `tunable_parameters.pop(name, None)`, on the dictionary's descriptors in insertion order. */
  function Without(ps: seq<CpSatParameter>, name: string): (r: seq<CpSatParameter>)
    ensures forall p :: p in r <==> p in ps && p.name != name
    ensures |r| <= |ps|
  {
    if ps == [] then []
    else
      var last := ps[|ps| - 1];
      Without(ps[..|ps| - 1], name) + (if last.name == name then [] else [last])
  }

  /** The names of a non-empty list are those of all but its last descriptor, and the last one's. */
  lemma NameSetLast(ps: seq<CpSatParameter>)
    requires ps != []
    ensures NameSet(ps) == NameSet(ps[..|ps| - 1]) + {ps[|ps| - 1].name}
  {
    var init, p := ps[..|ps| - 1], ps[|ps| - 1];
    assert ps == init + [p];
    forall n | n in NameSet(init) ensures n in NameSet(ps) {
      var q :| q in init && q.name == n;
      assert q in ps;
    }
    assert p in ps;
  }

  /** Removing a name keeps the remaining descriptors in their order and their names unique. */
  lemma WithoutKeepsOrder(ps: seq<CpSatParameter>, name: string)
    requires UniqueNames(ps)
    ensures UniqueNames(Without(ps, name))
    ensures name !in NameSet(ps) ==> Without(ps, name) == ps
  {
    WithoutUnique(ps, name);
    if name !in NameSet(ps) {
      assert forall i :: 0 <= i < |ps| ==> ps[i] in ps && ps[i].name in NameSet(ps);
      WithoutAbsent(ps, name);
    }
  }

  lemma {:induction false} WithoutUnique(ps: seq<CpSatParameter>, name: string)
    requires UniqueNames(ps)
    ensures UniqueNames(Without(ps, name))
    decreases |ps|
  {
    if ps != [] {
      var init, last := ps[..|ps| - 1], ps[|ps| - 1];
      assert UniqueNames(init);
      WithoutUnique(init, name);
      var r := Without(ps, name);
      forall i, j | 0 <= i < j < |r| ensures r[i].name != r[j].name {
        if j == |r| - 1 && last.name != name {
          assert r[i] in Without(init, name);
          assert r[i] in init;
          var k :| 0 <= k < |init| && init[k] == r[i];
          assert ps[k] == r[i];
        } else {
          assert r[i] == Without(init, name)[i] && r[j] == Without(init, name)[j];
        }
      }
    }
  }

  lemma {:induction false} WithoutAbsent(ps: seq<CpSatParameter>, name: string)
    requires forall i :: 0 <= i < |ps| ==> ps[i].name != name
    ensures Without(ps, name) == ps
    decreases |ps|
  {
    if ps != [] {
      var init, last := ps[..|ps| - 1], ps[|ps| - 1];
      WithoutAbsent(init, name);
      SplitLast(ps);
    }
  }

  // ---------------------------------------------------------------------
  // Counting parameters that leave their default
  // ---------------------------------------------------------------------

  /**
   * The test `sample` applies to count a parameter as changed, exactly as
   * written: Python's `!=` between the sampled value and the solver default.
   */
  predicate DiffersAsWritten(v: Value, d: Value)
  {
    v != d
  }

  /**
   * The test the count evidently intends: the values differ once list and
   * tuple values are compared as sorted tuples.
   */
  predicate Differs(v: Value, d: Value)
  {
    NormalizeValue(v) != NormalizeValue(d)
  }

  /** The intended test ignores element order and list-versus-tuple, and nothing else. */
  lemma DiffersIff(v: Value, d: Value)
    ensures Differs(v, d) <==> !SameUpToOrder(v, d)
  {
    if SameUpToOrder(v, d) && v != d {
      SortIgnoresOrder(v.items, d.items);
    }
    if !Differs(v, d) && !v.Atom? && !d.Atom? {
      assert multiset(v.items) == multiset(Sort(v.items)) == multiset(Sort(d.items)) == multiset(d.items);
    }
  }

  // ---------------------------------------------------------------------
  // `sample` as a function of the space's state
  // ---------------------------------------------------------------------

  /** The solver assignment built so far and the number of parameters that left their default. */
  datatype Sampled = Sampled(params: Assignment, numDifferent: nat)

  /**
   * One tunable descriptor in `sample`: skipped when fixed; otherwise its
   * value is sampled, compared with its solver default (counting a change,
   * and pruning once the count exceeds a non-negative limit), and set. The
   * comparison is the corrected one, `Differs`: a list sample equal to a
   * tuple default counts as unchanged (`DiffersAsWritten` is the source's
   * test, which counts it as changed).
   */
  function SampleStep(acc: Sampled, p: CpSatParameter, fixed: Assignment, t: SearchParams, limit: int): Result<Sampled>
  {
    if p.name in fixed then Ok(acc)
    else
      match SampleSpec(p, t)
      case Err(e) => Err(e)
      case Ok(v) =>
        match CpSatDefault(p)
        case Err(e) => Err(e)
        case Ok(d) =>
          if Differs(v, d) then
            if limit >= 0 && acc.numDifferent + 1 > limit then Err(TrialPruned)
            else Ok(Sampled(acc.params[p.name := v], acc.numDifferent + 1))
          else Ok(Sampled(acc.params[p.name := v], acc.numDifferent))
  }

  /** The loop of `sample` over the tunable descriptors, starting from the fixed assignment. */
  function SampleFrom(ps: seq<CpSatParameter>, fixed: Assignment, t: SearchParams, limit: int): Result<Sampled>
  {
    Steps(ps, Sampled(fixed, 0), (acc, p) => SampleStep(acc, p, fixed, t, limit))
  }

  /** Applies `step` to each descriptor in turn; the first error stops the loop. */
  function Steps(ps: seq<CpSatParameter>, start: Sampled, step: (Sampled, CpSatParameter) -> Result<Sampled>): Result<Sampled>
  {
    if ps == [] then Ok(start)
    else
      match Steps(ps[..|ps| - 1], start, step)
      case Err(e) => Err(e)
      case Ok(acc) => step(acc, ps[|ps| - 1])
  }

  /** `sample`: without a trial only the fixed parameters are set. */
  function SpaceSample(ps: seq<CpSatParameter>, fixed: Assignment, trial: Option<SearchParams>, limit: int): Result<Assignment>
  {
    match trial
    case None => Ok(fixed)
    case Some(t) =>
      match SampleFrom(ps, fixed, t, limit)
      case Ok(s) => Ok(s.params)
      case Err(e) => Err(e)
  }

  lemma SampleFromStep(ps: seq<CpSatParameter>, fixed: Assignment, t: SearchParams, limit: int, i: nat)
    requires i < |ps|
    ensures var before := SampleFrom(ps[..i], fixed, t, limit);
      SampleFrom(ps[..i + 1], fixed, t, limit)
      == if before.Err? then before else SampleStep(before.value, ps[i], fixed, t, limit)
  {
    assert ps[..i + 1][..i] == ps[..i];
  }

  /** The loop over a non-empty list: the loop over all but the last descriptor, then its step. */
  lemma SampleFromUnfold(ps: seq<CpSatParameter>, fixed: Assignment, t: SearchParams, limit: int)
    requires ps != []
    ensures var before := SampleFrom(ps[..|ps| - 1], fixed, t, limit);
      SampleFrom(ps, fixed, t, limit)
      == if before.Err? then before else SampleStep(before.value, ps[|ps| - 1], fixed, t, limit)
  {
  }

  /** Once a prefix fails, the whole loop fails with the same error. */
  lemma {:induction false} SampleFromStopsAtError(ps: seq<CpSatParameter>, fixed: Assignment, t: SearchParams, limit: int, k: nat)
    requires k <= |ps|
    requires SampleFrom(ps[..k], fixed, t, limit).Err?
    ensures SampleFrom(ps, fixed, t, limit) == SampleFrom(ps[..k], fixed, t, limit)
    decreases |ps| - k
  {
    if k < |ps| {
      SampleFromStep(ps, fixed, t, limit, k);
      SampleFromStopsAtError(ps, fixed, t, limit, k + 1);
    } else {
      assert ps[..k] == ps;
    }
  }

  // ---------------------------------------------------------------------
  // Search-side defaults and the difference from the solver defaults
  // ---------------------------------------------------------------------

  /** `get_default_params_for_optuna`: every descriptor's search-side default, later ones updating earlier ones. */
  function UnionDefaults(ps: seq<CpSatParameter>): SearchParams
  {
    if ps == [] then map[]
    else UnionDefaults(ps[..|ps| - 1]) + OptunaDefault(ps[|ps| - 1])
  }

  /** The loop of `get_cpsat_params_diff` that gathers each descriptor's solver-side entries. */
  function CollectCpSat(ps: seq<CpSatParameter>, t: SearchParams): Result<Assignment>
  {
    Gather(ps, p => GetCpSatParams(p, t))
  }

  /** Merges `entries(p)` for each descriptor in turn; the first error stops the loop. */
  function Gather(ps: seq<CpSatParameter>, entries: CpSatParameter -> Result<Assignment>): Result<Assignment>
  {
    if ps == [] then Ok(map[])
    else
      match Gather(ps[..|ps| - 1], entries)
      case Err(e) => Err(e)
      case Ok(acc) =>
        match entries(ps[|ps| - 1])
        case Err(e) => Err(e)
        case Ok(more) => Ok(acc + more)
  }

  /** The frozenset of (name, solver default) pairs; the first default that cannot be computed raises. */
  function DefaultPairs(ps: seq<CpSatParameter>): Result<set<(string, Value)>>
  {
    Pairs(ps, CpSatDefault)
  }

  /** The (name, value) pairs of the descriptors in turn; the first error stops the loop. */
  function Pairs(ps: seq<CpSatParameter>, value: CpSatParameter -> Result<Value>): Result<set<(string, Value)>>
  {
    if ps == [] then Ok({})
    else
      match Pairs(ps[..|ps| - 1], value)
      case Err(e) => Err(e)
      case Ok(acc) =>
        match value(ps[|ps| - 1])
        case Err(e) => Err(e)
        case Ok(d) => Ok(acc + {(ps[|ps| - 1].name, d)})
  }

  /** `get_cpsat_params_diff`: the trial's solver-side pairs that are not a default pair, as a dictionary. */
  function ParamsDiff(ps: seq<CpSatParameter>, t: SearchParams): Result<Assignment>
  {
    match CollectCpSat(ps, t)
    case Err(e) => Err(e)
    case Ok(params) =>
      match DefaultPairs(ps)
      case Err(e) => Err(e)
      case Ok(defaults) =>
        var diff := (set name | name in params :: (name, params[name])) - defaults;
        Ok(map name | name in params && (name, params[name]) in diff :: params[name])
  }

  /** `distance_to_default`: how many solver parameters the trial sets away from their default. */
  function DistanceToDefault(ps: seq<CpSatParameter>, t: SearchParams): Result<nat>
  {
    match ParamsDiff(ps, t)
    case Err(e) => Err(e)
    case Ok(diff) => Ok(|diff.Keys|)
  }

  lemma CollectCpSatStep(ps: seq<CpSatParameter>, t: SearchParams, i: nat)
    requires i < |ps|
    ensures var before := CollectCpSat(ps[..i], t);
      var entries := GetCpSatParams(ps[i], t);
      CollectCpSat(ps[..i + 1], t)
      == if before.Err? then before else if entries.Err? then Err(entries.error) else Ok(before.value + entries.value)
  {
    assert ps[..i + 1][..i] == ps[..i];
  }

  lemma {:induction false} CollectCpSatStopsAtError(ps: seq<CpSatParameter>, t: SearchParams, k: nat)
    requires k <= |ps|
    requires CollectCpSat(ps[..k], t).Err?
    ensures CollectCpSat(ps, t) == CollectCpSat(ps[..k], t)
    decreases |ps| - k
  {
    if k < |ps| {
      CollectCpSatStep(ps, t, k);
      CollectCpSatStopsAtError(ps, t, k + 1);
    } else {
      assert ps[..k] == ps;
    }
  }

  // ---------------------------------------------------------------------
  // Properties of sampling
  // ---------------------------------------------------------------------

  /** The number of non-fixed descriptors whose sampled value differs from their solver default. */
  function DiffCount(ps: seq<CpSatParameter>, fixed: Assignment, t: SearchParams): nat
  {
    if ps == [] then 0
    else
      var p := ps[|ps| - 1];
      DiffCount(ps[..|ps| - 1], fixed, t) +
      (if p.name !in fixed && SampleSpec(p, t).Ok? && CpSatDefault(p).Ok? && Differs(SampleSpec(p, t).value, CpSatDefault(p).value)
       then 1 else 0)
  }

  /** Every descriptor that is not fixed can be sampled from the trial and has a solver default. */
  predicate AllSampleable(ps: seq<CpSatParameter>, fixed: Assignment, t: SearchParams)
  {
    forall i :: 0 <= i < |ps| && ps[i].name !in fixed ==> SampleSpec(ps[i], t).Ok? && CpSatDefault(ps[i]).Ok?
  }

  /** A successful sample of a non-empty list: the sample of all but the last descriptor, then the last one's value. */
  lemma SampleFromLast(ps: seq<CpSatParameter>, fixed: Assignment, t: SearchParams, limit: int)
    requires ps != [] && SampleFrom(ps, fixed, t, limit).Ok?
    ensures var init, p := ps[..|ps| - 1], ps[|ps| - 1];
      && SampleFrom(init, fixed, t, limit).Ok?
      && (p.name !in fixed ==> SampleSpec(p, t).Ok?)
      && SampleFrom(ps, fixed, t, limit).value.params
         == if p.name in fixed then SampleFrom(init, fixed, t, limit).value.params
            else SampleFrom(init, fixed, t, limit).value.params[p.name := SampleSpec(p, t).value]
  {
    var init, p := ps[..|ps| - 1], ps[|ps| - 1];
    SampleStepSets(SampleFrom(init, fixed, t, limit).value, p, fixed, t, limit);
  }

  /** A successful sample sets exactly the fixed parameters and the tunable ones. */
  lemma {:induction false} SampleFromKeys(ps: seq<CpSatParameter>, fixed: Assignment, t: SearchParams, limit: int)
    requires SampleFrom(ps, fixed, t, limit).Ok?
    ensures SampleFrom(ps, fixed, t, limit).value.params.Keys == fixed.Keys + NameSet(ps)
    decreases |ps|
  {
    if ps != [] {
      var init, p := ps[..|ps| - 1], ps[|ps| - 1];
      SampleFromLast(ps, fixed, t, limit);
      SampleFromKeys(init, fixed, t, limit);
      var before := SampleFrom(init, fixed, t, limit).value.params;
      var after := SampleFrom(ps, fixed, t, limit).value.params;
      assert after.Keys == before.Keys + {p.name} by {
        if p.name in fixed {
          assert p.name in before.Keys;
        }
      }
      NameSetLast(ps);
    }
  }

  /** A successful sample keeps every fixed parameter at its fixed value. */
  lemma {:induction false} SampleFromKeepsFixed(ps: seq<CpSatParameter>, fixed: Assignment, t: SearchParams, limit: int)
    requires SampleFrom(ps, fixed, t, limit).Ok?
    ensures forall name :: name in fixed ==>
      name in SampleFrom(ps, fixed, t, limit).value.params && SampleFrom(ps, fixed, t, limit).value.params[name] == fixed[name]
    decreases |ps|
  {
    if ps != [] {
      SampleFromLast(ps, fixed, t, limit);
      SampleFromKeepsFixed(ps[..|ps| - 1], fixed, t, limit);
    }
  }

  /** A successful sample sets every tunable parameter that is not fixed to the value sampled for it. */
  lemma SampleFromValues(ps: seq<CpSatParameter>, fixed: Assignment, t: SearchParams, limit: int)
    requires UniqueNames(ps)
    requires SampleFrom(ps, fixed, t, limit).Ok?
    ensures var s := SampleFrom(ps, fixed, t, limit).value;
      forall i :: 0 <= i < |ps| && ps[i].name !in fixed ==>
        SampleSpec(ps[i], t).Ok? && ps[i].name in s.params && s.params[ps[i].name] == SampleSpec(ps[i], t).value
  {
    var s := SampleFrom(ps, fixed, t, limit).value;
    forall i | 0 <= i < |ps| && ps[i].name !in fixed
      ensures SampleSpec(ps[i], t).Ok? && ps[i].name in s.params && s.params[ps[i].name] == SampleSpec(ps[i], t).value
    {
      var step := (acc, p) => SampleStep(acc, p, fixed, t, limit);
      var sample := p => SampleSpec(p, t);
      forall acc, p | step(acc, p).Ok? ensures
        if p.name in fixed then step(acc, p).value.params == acc.params
        else sample(p).Ok? && step(acc, p).value.params == acc.params[p.name := sample(p).value]
      {
        SampleStepSets(acc, p, fixed, t, limit);
      }
      StepsValueAt(ps, Sampled(fixed, 0), step, fixed, sample, i);
    }
  }

  /**
   * A step that sets each descriptor not in `fixed` to `sample` of it, and
   * nothing else.
   */
  ghost predicate SetsSampled(step: (Sampled, CpSatParameter) -> Result<Sampled>, fixed: Assignment, sample: CpSatParameter -> Result<Value>)
  {
    forall acc, p :: step(acc, p).Ok? ==>
      if p.name in fixed then step(acc, p).value.params == acc.params
      else sample(p).Ok? && step(acc, p).value.params == acc.params[p.name := sample(p).value]
  }

  lemma {:induction false} StepsValueAt(ps: seq<CpSatParameter>, start: Sampled, step: (Sampled, CpSatParameter) -> Result<Sampled>,
                                        fixed: Assignment, sample: CpSatParameter -> Result<Value>, i: nat)
    requires SetsSampled(step, fixed, sample)
    requires UniqueNames(ps) && Steps(ps, start, step).Ok?
    requires i < |ps| && ps[i].name !in fixed
    ensures sample(ps[i]).Ok? && ps[i].name in Steps(ps, start, step).value.params
    ensures Steps(ps, start, step).value.params[ps[i].name] == sample(ps[i]).value
    decreases |ps|
  {
    var init, p := ps[..|ps| - 1], ps[|ps| - 1];
    var before := Steps(init, start, step).value;
    assert Steps(ps, start, step) == step(before, p);
    if i < |init| {
      assert init[i] == ps[i] && ps[i].name != p.name;
      assert UniqueNames(init);
      StepsValueAt(init, start, step, fixed, sample, i);
    }
  }

  /** A successful step sets the descriptor's sampled value unless it is fixed. */
  lemma SampleStepSets(acc: Sampled, p: CpSatParameter, fixed: Assignment, t: SearchParams, limit: int)
    requires SampleStep(acc, p, fixed, t, limit).Ok?
    ensures p.name !in fixed ==> SampleSpec(p, t).Ok?
    ensures SampleStep(acc, p, fixed, t, limit).value.params
         == if p.name in fixed then acc.params else acc.params[p.name := SampleSpec(p, t).value]
  {
  }

  /**
   * A successful sample counted exactly the parameters that left their
   * default, and under a non-negative limit no more than the limit.
   */
  lemma {:induction false} SampleFromCount(ps: seq<CpSatParameter>, fixed: Assignment, t: SearchParams, limit: int)
    requires SampleFrom(ps, fixed, t, limit).Ok?
    ensures SampleFrom(ps, fixed, t, limit).value.numDifferent == DiffCount(ps, fixed, t)
    ensures limit >= 0 ==> SampleFrom(ps, fixed, t, limit).value.numDifferent <= limit
    decreases |ps|
  {
    if ps != [] {
      SampleFromCount(ps[..|ps| - 1], fixed, t, limit);
    }
  }

  /**
   * When every non-fixed descriptor can be sampled, `sample` is pruned
   * exactly when the limit is non-negative and more parameters left their
   * default than it allows; otherwise it succeeds.
   */
  lemma {:induction false} SamplePrunedIff(ps: seq<CpSatParameter>, fixed: Assignment, t: SearchParams, limit: int)
    requires AllSampleable(ps, fixed, t)
    ensures SampleFrom(ps, fixed, t, limit).Err? <==> limit >= 0 && DiffCount(ps, fixed, t) > limit
    ensures SampleFrom(ps, fixed, t, limit).Err? ==> SampleFrom(ps, fixed, t, limit).error == TrialPruned
    ensures SampleFrom(ps, fixed, t, limit).Ok? ==> SampleFrom(ps, fixed, t, limit).value.numDifferent == DiffCount(ps, fixed, t)
    decreases |ps|
  {
    if ps != [] {
      var init := ps[..|ps| - 1];
      assert AllSampleable(init, fixed, t) by {
        forall i | 0 <= i < |init| ensures init[i] == ps[i] { }
      }
      SamplePrunedIff(init, fixed, t, limit);
    }
  }

  /** With a negative limit (-1, the default) `sample` never prunes. */
  lemma {:induction false} NoLimitNeverPrunes(ps: seq<CpSatParameter>, fixed: Assignment, t: SearchParams, limit: int)
    requires limit < 0
    ensures SampleFrom(ps, fixed, t, limit) != Err(TrialPruned)
    decreases |ps|
  {
    if ps != [] {
      var init := ps[..|ps| - 1];
      NoLimitNeverPrunes(init, fixed, t, limit);
      SampleFromUnfold(ps, fixed, t, limit);
      if SampleFrom(init, fixed, t, limit).Ok? {
        NoLimitStepNeverPrunes(SampleFrom(init, fixed, t, limit).value, ps[|ps| - 1], fixed, t, limit);
      }
    }
  }

  lemma NoLimitStepNeverPrunes(acc: Sampled, p: CpSatParameter, fixed: Assignment, t: SearchParams, limit: int)
    requires limit < 0
    ensures SampleStep(acc, p, fixed, t, limit) != Err(TrialPruned)
  {
  }

  /** `sample`'s count as written counts every list parameter, whatever the trial selects. */
  lemma AsWrittenCountsEveryList(p: CpSatParameter, t: SearchParams)
    requires p.ListParameter? && SampleSpec(p, t).Ok?
    ensures DiffersAsWritten(SampleSpec(p, t).value, CpSatDefault(p).value)
  {
    var v := SampleSpec(p, t).value;
    match SelectFlags(t, p.name, p.values)
    case Ok(selected) => assert v == ListV(selected);
    case Err(_) =>
  }

  // ---------------------------------------------------------------------
  // The search-side defaults
  // ---------------------------------------------------------------------

  /** Two trials hold the same entries for every dimension of one parameter name. */
  ghost predicate AgreeOn(o: SearchParams, o': SearchParams, name: string)
  {
    forall d: Dim :: d.name == name ==> (d in o <==> d in o') && (d in o ==> o[d] == o'[d])
  }

  /** A descriptor's search-side default only uses dimensions of its own name. */
  lemma OptunaDefaultDims(p: CpSatParameter)
    ensures forall d :: d in OptunaDefault(p) ==> d.name == p.name
  {
  }

  /** The solver-side reading of a trial depends only on the descriptor's own dimensions. */
  lemma GetCpSatParamsLocal(p: CpSatParameter, o: SearchParams, o': SearchParams)
    requires AgreeOn(o, o', p.name)
    ensures GetCpSatParams(p, o) == GetCpSatParams(p, o')
  {
    if p.ListParameter? {
      forall v ensures v in FlaggedIn(o, p.name) <==> v in FlaggedIn(o', p.name) {
        FlaggedInIff(o, p.name, v);
        FlaggedInIff(o', p.name, v);
      }
      assert FlaggedIn(o, p.name) == FlaggedIn(o', p.name);
    } else {
      assert Plain(p.name).name == p.name;
    }
  }

  /** Sampling a descriptor depends only on its own dimensions of the trial. */
  lemma SampleSpecLocal(p: CpSatParameter, o: SearchParams, o': SearchParams)
    requires AgreeOn(o, o', p.name)
    ensures SampleSpec(p, o) == SampleSpec(p, o')
  {
    if p.ListParameter? {
      forall v | v in p.values
        ensures SuggestCategorical(o, Flag(p.name, v), [BoolV(true), BoolV(false)])
             == SuggestCategorical(o', Flag(p.name, v), [BoolV(true), BoolV(false)])
      {
        assert Flag(p.name, v).name == p.name;
      }
      if SelectFlags(o, p.name, p.values).Ok? {
        SelectFlagsFilters(o, p.name, p.values);
        SelectFlagsFilters(o', p.name, p.values);
        forall v ensures v in FlaggedIn(o, p.name) <==> v in FlaggedIn(o', p.name) {
          FlaggedInIff(o, p.name, v);
          FlaggedInIff(o', p.name, v);
        }
        assert FlaggedIn(o, p.name) == FlaggedIn(o', p.name);
      }
    } else {
      assert Plain(p.name).name == p.name;
    }
  }

  lemma {:induction false} UnionDefaultsDims(ps: seq<CpSatParameter>)
    ensures forall d :: d in UnionDefaults(ps) ==> d.name in NameSet(ps)
    decreases |ps|
  {
    if ps != [] {
      var init, p := ps[..|ps| - 1], ps[|ps| - 1];
      UnionDefaultsDims(init);
      OptunaDefaultDims(p);
      NameSetLast(ps);
    }
  }

  /**
   * `get_default_params_for_optuna` holds each tunable descriptor's own
   * search-side default: names are unique, so no descriptor's entries are
   * overwritten by another's.
   */
  lemma {:induction false} UnionDefaultsAgree(ps: seq<CpSatParameter>, i: int)
    requires UniqueNames(ps) && 0 <= i < |ps|
    ensures AgreeOn(UnionDefaults(ps), OptunaDefault(ps[i]), ps[i].name)
    decreases |ps|
  {
    var init, p := ps[..|ps| - 1], ps[|ps| - 1];
    OptunaDefaultDims(p);
    assert UniqueNames(init);
    if i == |ps| - 1 {
      UnionDefaultsDims(init);
      assert p.name !in NameSet(init) by {
        forall q | q in init ensures q.name != p.name {
          var k :| 0 <= k < |init| && init[k] == q;
          assert ps[k] == q;
        }
      }
    } else {
      UnionDefaultsAgree(init, i);
      assert ps[i] == init[i];
    }
  }

  /** A descriptor whose integer request is valid: a log scale needs a positive lower bound. */
  predicate Suggestable(p: CpSatParameter)
  {
    p.IntParameter? ==> !(p.log && p.lb < 1)
  }

  /** A well-formed descriptor sampled from its own search-side default yields its solver default. */
  lemma DefaultSampleIsDefault(p: CpSatParameter)
    requires WellFormed(p) && Suggestable(p)
    ensures SampleSpec(p, OptunaDefault(p)).Ok? && CpSatDefault(p).Ok?
    ensures !Differs(SampleSpec(p, OptunaDefault(p)).value, CpSatDefault(p).value)
  {
    var o := OptunaDefault(p);
    if p.ListParameter? {
      forall v | v in p.values ensures SuggestCategorical(o, Flag(p.name, v), [BoolV(true), BoolV(false)]).Ok? {
        assert Flag(p.name, v) in FlagDims(p.name, p.values);
      }
      assert SelectFlags(o, p.name, p.values).Ok?;
    }
    assert SampleSpec(p, o).Ok?;
    SampleAgreesWithCpSatParams(p, o);
    DefaultsAgree(p);
    if p.ListParameter? {
      SortOfSorted(p.defaultSubset);
    }
  }

  /** Within `sample`, the example: the space's `ignore_subsolvers` at its default selection. */
  lemma DefaultListCountedAsWritten()
    ensures var p := SpaceTable()[20];
      var v := SampleSpec(p, OptunaDefault(p)).value;
      SampleSpec(p, OptunaDefault(p)).Ok? && DiffersAsWritten(v, CpSatDefault(p).value) && !Differs(v, CpSatDefault(p).value)
  {
    var p := SpaceTable()[20];
    SpaceTableWellFormed();
    DefaultSampleIsDefault(p);
    AsWrittenCountsEveryList(p, OptunaDefault(p));
  }

  lemma SpaceTableWellFormed()
    ensures forall i :: 0 <= i < |SpaceTable()| ==> WellFormed(SpaceTable()[i]) && Suggestable(SpaceTable()[i])
  {
    forall i | 0 <= i < |SpaceTable()| ensures WellFormed(SpaceTable()[i]) && Suggestable(SpaceTable()[i]) {
      if i < 10 {
        LeadingSpaceEntriesWellFormed(i);
      } else if i < 20 {
        MiddleSpaceEntriesWellFormed(i);
      } else {
        IgnoreSubsolversSpaceEntryWellFormed();
      }
    }
  }

  lemma LeadingSpaceEntriesWellFormed(i: int)
    requires 0 <= i < 10
    ensures WellFormed(SpaceTable()[i]) && Suggestable(SpaceTable()[i])
  {
  }

  lemma MiddleSpaceEntriesWellFormed(i: int)
    requires 10 <= i < 20
    ensures WellFormed(SpaceTable()[i]) && Suggestable(SpaceTable()[i])
  {
  }

  lemma IgnoreSubsolversSpaceEntryWellFormed()
    ensures WellFormed(SpaceTable()[20]) && Suggestable(SpaceTable()[20])
  {
    assert Distinct(SpaceSubsolvers);
    NewListParameterWellFormed("ignore_subsolvers", [], SpaceSubsolvers);
  }

  /** Every descriptor in the sequence is well formed and can be sampled. */
  predicate AllWellFormed(ps: seq<CpSatParameter>)
  {
    forall i :: 0 <= i < |ps| ==> WellFormed(ps[i]) && Suggestable(ps[i])
  }

  /** Each descriptor, sampled from the whole default trial, yields its solver default. */
  lemma DefaultTrialSamplesDefaults(ps: seq<CpSatParameter>, i: int)
    requires UniqueNames(ps) && AllWellFormed(ps) && 0 <= i < |ps|
    ensures SampleSpec(ps[i], UnionDefaults(ps)).Ok? && CpSatDefault(ps[i]).Ok?
    ensures !Differs(SampleSpec(ps[i], UnionDefaults(ps)).value, CpSatDefault(ps[i]).value)
  {
    UnionDefaultsAgree(ps, i);
    SampleSpecLocal(ps[i], UnionDefaults(ps), OptunaDefault(ps[i]));
    DefaultSampleIsDefault(ps[i]);
  }

  lemma {:induction false} NothingDiffersCountsZero(ps: seq<CpSatParameter>, fixed: Assignment, t: SearchParams)
    requires forall i :: 0 <= i < |ps| ==>
      SampleSpec(ps[i], t).Ok? && CpSatDefault(ps[i]).Ok? && !Differs(SampleSpec(ps[i], t).value, CpSatDefault(ps[i]).value)
    ensures DiffCount(ps, fixed, t) == 0
    decreases |ps|
  {
    if ps != [] {
      var init := ps[..|ps| - 1];
      forall i | 0 <= i < |init| ensures init[i] == ps[i] { }
      NothingDiffersCountsZero(init, fixed, t);
    }
  }

  /**
   * Sampling the space's own search-side defaults counts no parameter as
   * changed, so it is never pruned, whatever the limit.
   */
  lemma DefaultTrialNeverPruned(ps: seq<CpSatParameter>, fixed: Assignment, limit: int)
    requires UniqueNames(ps) && AllWellFormed(ps)
    ensures SampleFrom(ps, fixed, UnionDefaults(ps), limit).Ok?
    ensures SampleFrom(ps, fixed, UnionDefaults(ps), limit).value.numDifferent == 0
  {
    var t := UnionDefaults(ps);
    forall i | 0 <= i < |ps|
      ensures SampleSpec(ps[i], t).Ok? && CpSatDefault(ps[i]).Ok? && !Differs(SampleSpec(ps[i], t).value, CpSatDefault(ps[i]).value)
    {
      DefaultTrialSamplesDefaults(ps, i);
    }
    NothingDiffersCountsZero(ps, fixed, t);
    SamplePrunedIff(ps, fixed, t, limit);
  }

  // ---------------------------------------------------------------------
  // Properties of the difference from the defaults
  // ---------------------------------------------------------------------

  /** The gathered solver-side entries: one per descriptor name, each read by its own descriptor. */
  lemma CollectCpSatResult(ps: seq<CpSatParameter>, t: SearchParams)
    requires UniqueNames(ps)
    ensures CollectCpSat(ps, t).Ok? <==> forall i :: 0 <= i < |ps| ==> GetCpSatParams(ps[i], t).Ok?
    ensures CollectCpSat(ps, t).Ok? ==>
      && CollectCpSat(ps, t).value.Keys == NameSet(ps)
      && forall i :: 0 <= i < |ps| ==> CollectCpSat(ps, t).value[ps[i].name] == GetCpSatParams(ps[i], t).value[ps[i].name]
  {
    var entries := p => GetCpSatParams(p, t);
    GatherOk(ps, entries);
    if CollectCpSat(ps, t).Ok? {
      GatherKeys(ps, entries);
      GatherValues(ps, entries);
    }
  }

  lemma {:induction false} GatherOk(ps: seq<CpSatParameter>, entries: CpSatParameter -> Result<Assignment>)
    ensures Gather(ps, entries).Ok? <==> forall i :: 0 <= i < |ps| ==> entries(ps[i]).Ok?
    decreases |ps|
  {
    if ps != [] {
      var init := ps[..|ps| - 1];
      GatherOk(init, entries);
      assert forall i :: 0 <= i < |init| ==> init[i] == ps[i];
    }
  }

  lemma {:induction false} GatherKeys(ps: seq<CpSatParameter>, entries: CpSatParameter -> Result<Assignment>)
    requires forall p :: entries(p).Ok? ==> entries(p).value.Keys == {p.name}
    requires Gather(ps, entries).Ok?
    ensures Gather(ps, entries).value.Keys == NameSet(ps)
    decreases |ps|
  {
    if ps != [] {
      GatherKeys(ps[..|ps| - 1], entries);
      NameSetLast(ps);
    }
  }

  /** One more descriptor: the entries merged so far, updated with its own. */
  lemma GatherLast(ps: seq<CpSatParameter>, entries: CpSatParameter -> Result<Assignment>)
    requires ps != [] && Gather(ps, entries).Ok?
    ensures Gather(ps[..|ps| - 1], entries).Ok? && entries(ps[|ps| - 1]).Ok?
    ensures Gather(ps, entries).value == Gather(ps[..|ps| - 1], entries).value + entries(ps[|ps| - 1]).value
  {
  }

  lemma GatherValues(ps: seq<CpSatParameter>, entries: CpSatParameter -> Result<Assignment>)
    requires forall p :: entries(p).Ok? ==> entries(p).value.Keys == {p.name}
    requires UniqueNames(ps) && Gather(ps, entries).Ok?
    ensures forall i :: 0 <= i < |ps| ==>
      && ps[i].name in Gather(ps, entries).value && entries(ps[i]).Ok?
      && Gather(ps, entries).value[ps[i].name] == entries(ps[i]).value[ps[i].name]
  {
    forall i | 0 <= i < |ps| ensures
      && ps[i].name in Gather(ps, entries).value && entries(ps[i]).Ok?
      && Gather(ps, entries).value[ps[i].name] == entries(ps[i]).value[ps[i].name]
    {
      GatherValueAt(ps, entries, i);
    }
  }

  /** The entry gathered under a descriptor's name is the one its own descriptor produced. */
  lemma {:induction false} GatherValueAt(ps: seq<CpSatParameter>, entries: CpSatParameter -> Result<Assignment>, i: nat)
    requires forall p :: entries(p).Ok? ==> entries(p).value.Keys == {p.name}
    requires UniqueNames(ps) && Gather(ps, entries).Ok? && i < |ps|
    ensures ps[i].name in Gather(ps, entries).value && entries(ps[i]).Ok?
    ensures Gather(ps, entries).value[ps[i].name] == entries(ps[i]).value[ps[i].name]
    decreases |ps|
  {
    var init, p := ps[..|ps| - 1], ps[|ps| - 1];
    GatherLast(ps, entries);
    if i < |init| {
      assert UniqueNames(init);
      GatherValueAt(init, entries, i);
      assert init[i] == ps[i] && ps[i].name != p.name;
    }
  }

  /** The default pairs: one per descriptor, its name with its solver default. */
  lemma DefaultPairsResult(ps: seq<CpSatParameter>)
    ensures DefaultPairs(ps).Ok? <==> forall i :: 0 <= i < |ps| ==> CpSatDefault(ps[i]).Ok?
    ensures DefaultPairs(ps).Ok? ==> forall name, v ::
      (name, v) in DefaultPairs(ps).value <==> exists i :: 0 <= i < |ps| && ps[i].name == name && CpSatDefault(ps[i]).value == v
  {
    PairsOk(ps, CpSatDefault);
    if DefaultPairs(ps).Ok? {
      forall name, v ensures
        (name, v) in DefaultPairs(ps).value <==> exists i :: 0 <= i < |ps| && ps[i].name == name && CpSatDefault(ps[i]).value == v
      {
        PairsMember(ps, CpSatDefault, name, v);
      }
    }
  }

  lemma {:induction false} PairsOk(ps: seq<CpSatParameter>, value: CpSatParameter -> Result<Value>)
    ensures Pairs(ps, value).Ok? <==> forall i :: 0 <= i < |ps| ==> value(ps[i]).Ok?
    decreases |ps|
  {
    if ps != [] {
      var init := ps[..|ps| - 1];
      PairsOk(init, value);
      assert forall i :: 0 <= i < |init| ==> init[i] == ps[i];
    }
  }

  /** A pair is present exactly when some descriptor has that name and that value. */
  lemma {:induction false} PairsMember(ps: seq<CpSatParameter>, value: CpSatParameter -> Result<Value>, name: string, v: Value)
    requires Pairs(ps, value).Ok?
    ensures (name, v) in Pairs(ps, value).value <==> exists i :: 0 <= i < |ps| && ps[i].name == name && value(ps[i]) == Ok(v)
    decreases |ps|
  {
    if ps != [] {
      var init, p := ps[..|ps| - 1], ps[|ps| - 1];
      PairsMember(init, value, name, v);
      if (name, v) in Pairs(init, value).value {
        var i :| 0 <= i < |init| && init[i].name == name && value(init[i]) == Ok(v);
        assert init[i] == ps[i];
      }
      if exists i :: 0 <= i < |ps| && ps[i].name == name && value(ps[i]) == Ok(v) {
        var i :| 0 <= i < |ps| && ps[i].name == name && value(ps[i]) == Ok(v);
        if i < |init| {
          assert init[i] == ps[i];
        }
      }
    }
  }

  /**
   * `get_cpsat_params_diff` holds exactly the tunable parameters whose
   * solver-side value in the trial is not their solver default, with that value.
   */
  lemma ParamsDiffExactly(ps: seq<CpSatParameter>, t: SearchParams)
    requires UniqueNames(ps) && ParamsDiff(ps, t).Ok?
    ensures var diff := ParamsDiff(ps, t).value;
      && diff.Keys <= NameSet(ps)
      && forall i :: 0 <= i < |ps| ==>
        && GetCpSatParams(ps[i], t).Ok? && CpSatDefault(ps[i]).Ok?
        && var value := GetCpSatParams(ps[i], t).value[ps[i].name];
           && (ps[i].name in diff <==> value != CpSatDefault(ps[i]).value)
           && (ps[i].name in diff ==> diff[ps[i].name] == value)
  {
    CollectCpSatResult(ps, t);
    DefaultPairsResult(ps);
    var params := CollectCpSat(ps, t).value;
    var defaults := DefaultPairs(ps).value;
    forall i | 0 <= i < |ps| ensures (ps[i].name, params[ps[i].name]) in defaults <==> params[ps[i].name] == CpSatDefault(ps[i]).value {
      if (ps[i].name, params[ps[i].name]) in defaults {
        var j :| 0 <= j < |ps| && ps[j].name == ps[i].name && CpSatDefault(ps[j]).value == params[ps[i].name];
        assert i == j;
      }
    }
  }

  lemma {:induction false} NameSetSize(ps: seq<CpSatParameter>)
    ensures |NameSet(ps)| <= |ps|
    decreases |ps|
  {
    if ps != [] {
      var init, p := ps[..|ps| - 1], ps[|ps| - 1];
      NameSetSize(init);
      NameSetLast(ps);
    }
  }

  /** The distance to the default is at most the number of tunable parameters. */
  lemma DistanceBounded(ps: seq<CpSatParameter>, t: SearchParams)
    requires UniqueNames(ps) && DistanceToDefault(ps, t).Ok?
    ensures DistanceToDefault(ps, t).value <= |ps|
  {
    ParamsDiffExactly(ps, t);
    NameSetSize(ps);
    var diff := ParamsDiff(ps, t).value;
    assert |diff.Keys| <= |NameSet(ps)| by {
      SubsetSize(diff.Keys, NameSet(ps));
    }
  }

  lemma SubsetSize<T>(a: set<T>, b: set<T>)
    requires a <= b
    ensures |a| <= |b|
  {
    assert b == a + (b - a);
  }

  /** The space's own search-side defaults are at distance 0 from the solver defaults. */
  lemma DefaultTrialAtDistanceZero(ps: seq<CpSatParameter>)
    requires UniqueNames(ps) && AllWellFormed(ps)
    ensures ParamsDiff(ps, UnionDefaults(ps)) == Ok(map[])
    ensures DistanceToDefault(ps, UnionDefaults(ps)) == Ok(0)
  {
    var t := UnionDefaults(ps);
    forall i | 0 <= i < |ps| ensures CpSatDefault(ps[i]).Ok? && GetCpSatParams(ps[i], t) == Ok(map[ps[i].name := CpSatDefault(ps[i]).value]) {
      UnionDefaultsAgree(ps, i);
      GetCpSatParamsLocal(ps[i], t, OptunaDefault(ps[i]));
      DefaultsAgree(ps[i]);
    }
    CollectCpSatResult(ps, t);
    DefaultPairsResult(ps);
    assert ParamsDiff(ps, t).Ok?;
    ParamsDiffExactly(ps, t);
    var diff := ParamsDiff(ps, t).value;
    forall name | name in NameSet(ps) ensures name !in diff {
      var p :| p in ps && p.name == name;
      var i :| 0 <= i < |ps| && ps[i] == p;
    }
    assert diff.Keys == {};
  }

  // ---------------------------------------------------------------------
  // The space as an object
  // ---------------------------------------------------------------------

  class CpSatParameterSpace {
    /** `tunable_parameters`: the descriptors in insertion order; each is keyed by its own name. */
    var tunable: seq<CpSatParameter>
    /** `fixed_parameters`: solver parameter name to the value it is fixed to. */
    var fixed: Assignment
    const maxDifferenceToDefault: int

    ghost predicate Valid()
      reads this
    {
      UniqueNames(tunable)
    }

    /** Every descriptor of the space is tunable and nothing is fixed; the default limit is -1, no limit. */
    constructor (maxDifferenceToDefault: int)
      ensures Valid()
      ensures tunable == SpaceTable() && fixed == map[]
      ensures this.maxDifferenceToDefault == maxDifferenceToDefault
    {
      tunable := SpaceTable();
      fixed := map[];
      this.maxDifferenceToDefault := maxDifferenceToDefault;
      SpaceNamesUnique();
    }

    /** `fix_parameter`: the name stops being tunable, and is fixed when a value is given. */
    method FixParameter(name: string, value: Option<Value>)
      requires Valid()
      modifies this
      ensures Valid()
      ensures tunable == Without(old(tunable), name)
      ensures fixed == if value.Some? then old(fixed)[name := value.value] else old(fixed)
    {
      WithoutKeepsOrder(tunable, name);
      tunable := Without(tunable, name);
      if value.Some? {
        fixed := fixed[name := value.value];
      }
    }

    /** `sample`: the solver assignment for a trial, or the error or pruning it raises. */
    method Sample(trial: Option<SearchParams>) returns (r: Result<Assignment>)
      ensures r == SpaceSample(tunable, fixed, trial, maxDifferenceToDefault)
    {
      if trial.None? {
        return Ok(fixed);
      }
      var t := trial.value;
      var limit := maxDifferenceToDefault;
      var params := fixed;
      var numDifferent: nat := 0;
      var i := 0;
      while i < |tunable|
        invariant 0 <= i <= |tunable|
        invariant SampleFrom(tunable[..i], fixed, t, limit) == Ok(Sampled(params, numDifferent))
      {
        var p := tunable[i];
        SampleFromStep(tunable, fixed, t, limit, i);
        if p.name !in fixed {
          var value := SampleParameter(p, t);
          if value.Err? {
            SampleFromStopsAtError(tunable, fixed, t, limit, i + 1);
            return Err(value.error);
          }
          var default := CpSatDefault(p);
          if default.Err? {
            SampleFromStopsAtError(tunable, fixed, t, limit, i + 1);
            return Err(default.error);
          }
          if Differs(value.value, default.value) {
            numDifferent := numDifferent + 1;
            if limit >= 0 && numDifferent > limit {
              SampleFromStopsAtError(tunable, fixed, t, limit, i + 1);
              return Err(TrialPruned);
            }
          }
          params := params[p.name := value.value];
        }
        i := i + 1;
      }
      assert tunable[..i] == tunable;
      return Ok(params);
    }

    /** `get_default_params_for_optuna`. */
    method GetDefaultParamsForOptuna() returns (r: SearchParams)
      ensures r == UnionDefaults(tunable)
    {
      r := map[];
      var i := 0;
      while i < |tunable|
        invariant 0 <= i <= |tunable|
        invariant r == UnionDefaults(tunable[..i])
      {
        assert tunable[..i + 1][..i] == tunable[..i];
        r := r + OptunaDefault(tunable[i]);
        i := i + 1;
      }
      assert tunable[..i] == tunable;
    }

    /** `get_cpsat_params_diff`. */
    method GetCpSatParamsDiff(t: SearchParams) returns (r: Result<Assignment>)
      ensures r == ParamsDiff(tunable, t)
    {
      var params: Assignment := map[];
      var i := 0;
      while i < |tunable|
        invariant 0 <= i <= |tunable|
        invariant CollectCpSat(tunable[..i], t) == Ok(params)
      {
        CollectCpSatStep(tunable, t, i);
        var entries := GetCpSatParams(tunable[i], t);
        if entries.Err? {
          CollectCpSatStopsAtError(tunable, t, i + 1);
          return Err(entries.error);
        }
        params := params + entries.value;
        i := i + 1;
      }
      assert tunable[..i] == tunable;
      var defaults := DefaultPairs(tunable);
      if defaults.Err? {
        return Err(defaults.error);
      }
      var diff := (set name | name in params :: (name, params[name])) - defaults.value;
      r := Ok(map name | name in params && (name, params[name]) in diff :: params[name]);
    }

    /** `distance_to_default`. */
    method DistanceToDefaultOf(t: SearchParams) returns (r: Result<nat>)
      ensures r == DistanceToDefault(tunable, t)
    {
      var diff := GetCpSatParamsDiff(t);
      r := match diff
        case Ok(d) => Ok(|d.Keys|)
        case Err(e) => Err(e);
    }
  }
}
