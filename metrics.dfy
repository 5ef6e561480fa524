/**
 * Metrics: how a single solver run is turned into a score, which direction
 * is better, and the direction-aware `best`, `worst` and `comp` that every
 * other component uses instead of raw numeric comparison.
 */
module Metrics {
  import opened Values

  datatype Direction = Minimize | Maximize

  datatype Comparison = Worse | Equal | Better

  /** `Metric.__init__`: only "minimize" and "maximize" are accepted. */
  function ParseDirection(s: string): (r: Result<Direction>)
    ensures r.Ok? <==> s == "minimize" || s == "maximize"
    ensures r == Ok(Minimize) <==> s == "minimize"
    ensures r == Ok(Maximize) <==> s == "maximize"
    ensures r.Err? ==> r.error == ValueError
  {
    if s == "minimize" then Ok(Minimize)
    else if s == "maximize" then Ok(Maximize)
    else Err(ValueError)
  }

  /** `Metric.comp`: how `a` compares to `b` under the direction. */
  function Comp(d: Direction, a: real, b: real): (c: Comparison)
    ensures c == Equal <==> a == b
    ensures c == Better <==> (if d == Maximize then a > b else a < b)
    ensures c == Worse <==> (if d == Maximize then a < b else a > b)
  {
    if a == b then Equal
    else if d == Maximize then (if a > b then Better else Worse)
    else (if a < b then Better else Worse)
  }

  /** "Worse or equal", the test the knockout rule applies. */
  predicate NoBetterThan(d: Direction, a: real, b: real)
  {
    Comp(d, a, b) in {Worse, Equal}
  }

  lemma CompAntisymmetric(d: Direction, a: real, b: real)
    ensures Comp(d, a, b) == Better <==> Comp(d, b, a) == Worse
    ensures Comp(d, a, b) == Equal <==> Comp(d, b, a) == Equal
  {
  }

  lemma NoBetterThanTransitive(d: Direction, a: real, b: real, c: real)
    requires NoBetterThan(d, a, b) && NoBetterThan(d, b, c)
    ensures NoBetterThan(d, a, c)
  {
  }

  /**
   * Index of the element `max(values, key=...)` returns: the scan keeps the
   * current best and replaces it only by a strictly better element, so the
   * first of several equally good elements wins.
   */
  function BestIndex(d: Direction, s: seq<real>): (i: nat)
    requires |s| > 0
    ensures i < |s|
    ensures forall k :: 0 <= k < |s| ==> Comp(d, s[k], s[i]) != Better
    ensures forall k :: 0 <= k < i ==> Comp(d, s[i], s[k]) == Better
  {
    if |s| == 1 then 0
    else
      var j := BestIndex(d, s[..|s| - 1]);
      assert forall k :: 0 <= k < |s| - 1 ==> s[..|s| - 1][k] == s[k];
      if Comp(d, s[|s| - 1], s[j]) == Better then |s| - 1 else j
  }

  /** Index of the element `min(values, key=...)` returns: the first worst one. */
  function WorstIndex(d: Direction, s: seq<real>): (i: nat)
    requires |s| > 0
    ensures i < |s|
    ensures forall k :: 0 <= k < |s| ==> Comp(d, s[k], s[i]) != Worse
    ensures forall k :: 0 <= k < i ==> Comp(d, s[i], s[k]) == Worse
  {
    if |s| == 1 then 0
    else
      var j := WorstIndex(d, s[..|s| - 1]);
      assert forall k :: 0 <= k < |s| - 1 ==> s[..|s| - 1][k] == s[k];
      if Comp(d, s[|s| - 1], s[j]) == Worse then |s| - 1 else j
  }

  /** `Metric.best` on scores: a score no score beats. */
  function Best(d: Direction, s: seq<real>): (r: real)
    requires |s| > 0
    ensures r in s
    ensures forall x :: x in s ==> Comp(d, x, r) != Better
  {
    s[BestIndex(d, s)]
  }

  /** `Metric.worst` on scores: a score that beats no score. */
  function Worst(d: Direction, s: seq<real>): (r: real)
    requires |s| > 0
    ensures r in s
    ensures forall x :: x in s ==> Comp(d, x, r) != Worse
  {
    s[WorstIndex(d, s)]
  }

  /** The worst score never beats the best one. */
  lemma WorstNoBetterThanBest(d: Direction, s: seq<real>)
    requires |s| > 0
    ensures NoBetterThan(d, Worst(d, s), Best(d, s))
  {
    var w := Worst(d, s);
    var b := Best(d, s);
    assert Comp(d, b, w) != Worse;
    CompAntisymmetric(d, w, b);
  }

  /** For minimize, best([3, 1, 2]) is 1 and worst is 3; for maximize the other way round. */
  lemma BestWorstExample()
    ensures Best(Minimize, [3.0, 1.0, 2.0]) == 1.0 && Worst(Minimize, [3.0, 1.0, 2.0]) == 3.0
    ensures Best(Maximize, [3.0, 1.0, 2.0]) == 3.0 && Worst(Maximize, [3.0, 1.0, 2.0]) == 1.0
  {
    var s := [3.0, 1.0, 2.0];
    assert s[..2] == [3.0, 1.0] && s[..2][..1] == [3.0];
  }

  // ---------------------------------------------------------------------
  // Concrete metrics
  // ---------------------------------------------------------------------

  /** Status codes the solver reports. */
  datatype Status = Optimal | Feasible | Infeasible | ModelInvalid | Unknown

  /** What one solver run reports: its status, the objective value and the wall-clock time it took. */
  datatype SolveOutcome = SolveOutcome(status: Status, objectiveValue: real, wallSeconds: real)

  /**
   * The concrete metrics. `MinTimeToOptimal` defaults to
   * relativeGapLimit = absoluteGapLimit = 0.0 and parMultiplier = 10.
   */
  datatype Metric =
    | MaxObjective(maxTimeInSeconds: real, objForTimeout: int)
    | MinObjective(maxTimeInSeconds: real, objForTimeout: int)
    | MinTimeToOptimal(maxTimeInSeconds: real, relativeGapLimit: real, absoluteGapLimit: real, parMultiplier: int)

  /** The direction string each metric hands to `Metric.__init__`. */
  function DirectionName(m: Metric): string
  {
    match m
    case MaxObjective(_, _) => "maximize"
    case MinObjective(_, _) => "minimize"
    case MinTimeToOptimal(_, _, _, _) => "minimize"
  }

  /** The direction fixed by the metric's constructor; the base check never rejects it. */
  function DirectionOf(m: Metric): (d: Direction)
    ensures ParseDirection(DirectionName(m)) == Ok(d)
    ensures d == Maximize <==> m.MaxObjective?
  {
    ParseDirection(DirectionName(m)).value
  }

  /** `knockout_score`: the score a run gets when it misses its criterion. */
  function KnockoutScore(m: Metric): real
  {
    match m
    case MaxObjective(_, t) => t as real
    case MinObjective(_, t) => t as real
    case MinTimeToOptimal(limit, _, _, par) => limit * (par as real)
  }

  /** Whether a run met the metric's criterion: a solution for the objective metrics, proven optimality for the time metric. */
  predicate Solved(m: Metric, o: SolveOutcome)
  {
    if m.MinTimeToOptimal? then o.status == Optimal
    else o.status in {Optimal, Feasible}
  }

  /** The measurement a successful run is scored with. */
  function Measured(m: Metric, o: SolveOutcome): real
  {
    if m.MinTimeToOptimal? then o.wallSeconds else o.objectiveValue
  }

  /**
   * `Metric.__call__` after the solve: the objective value (unchanged, also
   * for `MinObjective`) or the elapsed seconds when the run met the
   * criterion, the knockout score otherwise.
   */
  function Score(m: Metric, o: SolveOutcome): (r: real)
    ensures Solved(m, o) ==> r == Measured(m, o)
    ensures !Solved(m, o) ==> r == KnockoutScore(m)
  {
    match m
    case MaxObjective(_, t) =>
      if o.status == Optimal || o.status == Feasible then o.objectiveValue else t as real
    case MinObjective(_, t) =>
      if o.status == Optimal || o.status == Feasible then o.objectiveValue else t as real
    case MinTimeToOptimal(limit, _, _, par) =>
      if o.status == Optimal then o.wallSeconds else limit * (par as real)
  }

  /**
   * PAR-k scoring: with a multiplier of at least 1, a run proven optimal
   * within the time limit scores better than any run that was not.
   */
  lemma ProvenRunBeatsCutoff(m: Metric, proven: SolveOutcome, cutoff: SolveOutcome)
    requires m.MinTimeToOptimal? && m.parMultiplier >= 1
    requires proven.status == Optimal && 0.0 <= proven.wallSeconds < m.maxTimeInSeconds
    requires cutoff.status != Optimal
    ensures Comp(DirectionOf(m), Score(m, proven), Score(m, cutoff)) == Better
  {
    var limit := m.maxTimeInSeconds;
    var par := m.parMultiplier as real;
    assert limit * par - limit == limit * (par - 1.0);
    assert limit * (par - 1.0) >= 0.0;
  }
}
