/**
 * Parameter descriptors: how one solver parameter is presented to the
 * search (the "search side", the names and values a trial suggests) and to
 * the solver (the "solver side", parameter name to value), and the
 * conversions between the two.
 *
 * A list parameter is one yes/no flag per possible value on the search
 * side; an ordered-list parameter is an index on the search side and the
 * value at that index on the solver side.
 *
 * A trial is the map of values it suggests, as optuna's FixedTrial holds
 * them: asking for a name it does not hold, or for a categorical value
 * outside the offered choices, raises ValueError.
 */
module Parameters {
  import opened Values

  /**
   * A search-side name: the parameter's own name, or the flag
   * "<name>:<value>" of one possible value of a list parameter.
   */
  datatype Dim = Plain(name: string) | Flag(name: string, value: Scalar)

  /** Search-side values, as a trial holds them or as the conversions produce them. */
  type SearchParams = map<Dim, Value>

  /** The descriptors. Descriptions, the subsolver flag and the applicability filter are not modelled. */
  datatype CpSatParameter =
    | BoolParameter(name: string, defaultBool: bool)
    | CategoryParameter(name: string, defaultChoice: Scalar, values: seq<Scalar>)
    | IntParameter(name: string, defaultInt: int, lb: int, ub: int, log: bool)
    /** The default is stored sorted. */
    | ListParameter(name: string, defaultSubset: seq<Scalar>, values: seq<Scalar>)
    /** The default is an index into `values`. */
    | IntFromOrderedListParameter(name: string, defaultIndex: int, values: seq<Scalar>)

  // ---------------------------------------------------------------------
  // Construction
  // ---------------------------------------------------------------------

  /** `CategoryParameter.__init__`: a default outside the values is rejected. */
  function NewCategoryParameter(name: string, defaultValue: Scalar, values: seq<Scalar>): (r: Result<CpSatParameter>)
    ensures r.Ok? <==> defaultValue in values
    ensures r.Ok? ==>
      r.value.CategoryParameter? && r.value.name == name && r.value.defaultChoice == defaultValue && r.value.values == values
    ensures r.Err? ==> r.error == ValueError
  {
    if defaultValue in values then Ok(CategoryParameter(name, defaultValue, values)) else Err(ValueError)
  }

  /** `ListParameter.__init__`: the default subset is stored as a sorted tuple. */
  function NewListParameter(name: string, defaultValue: seq<Scalar>, values: seq<Scalar>): (p: CpSatParameter)
    ensures p.ListParameter? && p.name == name && p.values == values
    ensures Sorted(p.defaultSubset) && multiset(p.defaultSubset) == multiset(defaultValue)
  {
    ListParameter(name, Sort(defaultValue), values)
  }

  /**
   * The conditions under which the conversions are mutually inverse: a
   * categorical default among the values, an integer default within its
   * bounds, a list default that is a sorted duplicate-free subset of
   * duplicate-free values, an ordered default index that is valid for
   * duplicate-free values.
   */
  predicate WellFormed(p: CpSatParameter)
  {
    match p
    case BoolParameter(_, _) => true
    case CategoryParameter(_, d, values) => d in values
    case IntParameter(_, d, lb, ub, _) => lb <= d <= ub
    case ListParameter(_, d, values) =>
      Sorted(d) && Distinct(d) && (forall x :: x in d ==> x in values) && Distinct(values)
    case IntFromOrderedListParameter(_, i, values) => 0 <= i < |values| && Distinct(values)
  }

  /** A list parameter built from a duplicate-free subset of duplicate-free values is well formed. */
  lemma NewListParameterWellFormed(name: string, defaultValue: seq<Scalar>, values: seq<Scalar>)
    requires Distinct(defaultValue) && Distinct(values)
    requires forall x :: x in defaultValue ==> x in values
    ensures WellFormed(NewListParameter(name, defaultValue, values))
  {
    var p := NewListParameter(name, defaultValue, values);
    forall x | x in p.defaultSubset ensures x in defaultValue {
      assert x in multiset(p.defaultSubset);
    }
    DistinctPermutation(p.defaultSubset, defaultValue);
  }

  // ---------------------------------------------------------------------
  // Defaults
  // ---------------------------------------------------------------------

  /** `get_optuna_default`: the default on the search side. */
  function OptunaDefault(p: CpSatParameter): SearchParams
  {
    match p
    case BoolParameter(name, d) => map[Plain(name) := Atom(BoolV(d))]
    case CategoryParameter(name, d, _) => map[Plain(name) := Atom(d)]
    case IntParameter(name, d, _, _, _) => map[Plain(name) := Atom(IntV(d))]
    case ListParameter(name, subset, values) => map d | d in FlagDims(name, values) :: Atom(BoolV(d.value in subset))
    case IntFromOrderedListParameter(name, i, _) => map[Plain(name) := Atom(IntV(i))]
  }

  /** `get_cpsat_default`: the default on the solver side; an ordered default index outside the values raises IndexError. */
  function CpSatDefault(p: CpSatParameter): (r: Result<Value>)
    ensures r.Err? <==> p.IntFromOrderedListParameter? && !(-|p.values| <= p.defaultIndex < |p.values|)
    ensures p.IntFromOrderedListParameter? && r.Ok? ==> r.value.Atom? && r.value.a in p.values
  {
    match p
    case BoolParameter(_, d) => Ok(Atom(BoolV(d)))
    case CategoryParameter(_, d, _) => Ok(Atom(d))
    case IntParameter(_, d, _, _, _) => Ok(Atom(IntV(d)))
    case ListParameter(_, d, _) => Ok(TupleV(d))
    case IntFromOrderedListParameter(_, i, values) =>
      match PyIndex(values, i)
      case Ok(x) => Ok(Atom(x))
      case Err(e) => Err(e)
  }

  // ---------------------------------------------------------------------
  // Conversions
  // ---------------------------------------------------------------------

  /** The elements of `values` that are in `chosen`, in the order of `values`. */
  function FilterIn(values: seq<Scalar>, chosen: set<Scalar>): (r: seq<Scalar>)
    ensures forall x :: x in r <==> x in values && x in chosen
    ensures |r| <= |values|
  {
    if values == [] then []
    else
      var last := values[|values| - 1];
      FilterIn(values[..|values| - 1], chosen) + (if last in chosen then [last] else [])
  }

  lemma {:induction false} FilterInDistinct(values: seq<Scalar>, chosen: set<Scalar>)
    requires Distinct(values)
    ensures Distinct(FilterIn(values, chosen))
    decreases |values|
  {
    if values != [] {
      var init := values[..|values| - 1];
      assert Distinct(init);
      FilterInDistinct(init, chosen);
    }
  }

  /** The flags "<name>:<value>" of the given values. */
  function FlagDims(name: string, values: seq<Scalar>): (r: set<Dim>)
    ensures forall d :: d in r <==> d.Flag? && d.name == name && d.value in values
  {
    set v | v in values :: Flag(name, v)
  }

  /** The values whose flag in `o` is truthy. */
  function FlaggedIn(o: SearchParams, name: string): set<Scalar>
  {
    set d | d in o && d.Flag? && d.name == name && Truthy(o[d]) :: d.value
  }

  /** A value is flagged exactly when its flag is present and truthy. */
  lemma FlaggedInIff(o: SearchParams, name: string, v: Scalar)
    ensures v in FlaggedIn(o, name) <==> Flag(name, v) in o && Truthy(o[Flag(name, v)])
  {
    var d := Flag(name, v);
    if d in o && Truthy(o[d]) {
      assert d.Flag? && d.name == name && d.value == v;
    }
  }

  /** `get_cpsat_params`: the solver-side entry for this parameter, read from search-side values. */
  function GetCpSatParams(p: CpSatParameter, o: SearchParams): (r: Result<Assignment>)
    ensures r.Ok? ==> r.value.Keys == {p.name}
    ensures !p.ListParameter? ==> (Plain(p.name) !in o ==> r == Err(KeyError))
    ensures p.ListParameter? ==> (r.Ok? <==> forall v :: v in p.values ==> Flag(p.name, v) in o)
    ensures r.Err? ==> r.error in {KeyError, IndexError, TypeError}
  {
    match p
    case ListParameter(name, _, values) =>
      if forall v :: v in values ==> Flag(name, v) in o then
        Ok(map[name := TupleV(Sort(FilterIn(values, FlaggedIn(o, name))))])
      else Err(KeyError)
    case IntFromOrderedListParameter(name, _, values) =>
      if Plain(name) !in o then Err(KeyError)
      else
        (match o[Plain(name)]
         case Atom(IntV(i)) =>
           (match PyIndex(values, i)
            case Ok(x) => Ok(map[name := Atom(x)])
            case Err(e) => Err(e))
         case Atom(BoolV(b)) =>
           (match PyIndex(values, if b then 1 else 0)
            case Ok(x) => Ok(map[name := Atom(x)])
            case Err(e) => Err(e))
         case _ => Err(TypeError))
    case _ =>
      if Plain(p.name) in o then Ok(map[p.name := o[Plain(p.name)]]) else Err(KeyError)
  }

  /** Membership of every possible value in the given container, or the TypeError `in` raises. */
  function Memberships(container: Value, values: seq<Scalar>): (r: Result<map<Scalar, bool>>)
    ensures r.Ok? <==> forall v :: v in values ==> Contains(container, v).Ok?
    ensures r.Ok? ==> r.value.Keys == set v | v in values
    ensures r.Ok? ==> forall v :: v in values ==> r.value[v] == Contains(container, v).value
    ensures r.Err? ==> r.error == TypeError
  {
    if forall v :: v in values ==> Contains(container, v).Ok? then
      Ok(map v | v in values :: Contains(container, v).value)
    else Err(TypeError)
  }

  /** `get_optuna_params`: the search-side entries for this parameter, read from solver-side values. */
  function GetOptunaParams(p: CpSatParameter, c: Assignment): (r: Result<SearchParams>)
    ensures !p.ListParameter? && r.Ok? ==> r.value.Keys == {Plain(p.name)}
    ensures !p.ListParameter? ==> (p.name !in c ==> r == Err(KeyError))
    ensures p.ListParameter? && r.Ok? ==> r.value.Keys == FlagDims(p.name, p.values)
    ensures r.Err? ==> r.error in {KeyError, ValueError, TypeError}
  {
    match p
    case ListParameter(name, _, values) =>
      if values == [] then Ok(map[])
      else if name !in c then Err(KeyError)
      else
        (match Memberships(c[name], values)
         case Ok(member) => Ok(map d | d in FlagDims(name, values) :: Atom(BoolV(member[d.value])))
         case Err(e) => Err(e))
    case IntFromOrderedListParameter(name, _, values) =>
      if name !in c then Err(KeyError)
      else
        (match IndexOf(values, c[name])
         case Ok(i) => Ok(map[Plain(name) := Atom(IntV(i))])
         case Err(e) => Err(e))
    case _ =>
      if p.name in c then Ok(map[Plain(p.name) := c[p.name]]) else Err(KeyError)
  }

  // ---------------------------------------------------------------------
  // Sampling from a trial
  // ---------------------------------------------------------------------

  /** `trial.suggest_categorical(dim, choices)` on a fixed trial. */
  function SuggestCategorical(t: SearchParams, dim: Dim, choices: seq<Scalar>): (r: Result<Scalar>)
    ensures r.Ok? <==> dim in t && t[dim].Atom? && t[dim].a in choices
    ensures r.Ok? ==> Atom(r.value) == t[dim]
    ensures r.Err? ==> r.error == ValueError
  {
    if dim in t && t[dim].Atom? && t[dim].a in choices then Ok(t[dim].a) else Err(ValueError)
  }

  /** Python's `int(x)` on a float: truncation toward zero. */
  function Truncate(x: real): (r: int)
    ensures x >= 0.0 ==> r >= 0 && r as real <= x < r as real + 1.0
    ensures x < 0.0 ==> r <= 0 && r as real - 1.0 < x <= r as real
  {
    if x >= 0.0 then x.Floor else -((-x).Floor)
  }

  /**
   * `trial.suggest_int(dim, low, high, log)` on a fixed trial: an empty
   * range, or a log scale reaching below 1, is rejected; a held number is
   * converted with `int` and returned without a range check.
   */
  function SuggestInt(t: SearchParams, dim: Dim, low: int, high: int, log: bool): (r: Result<int>)
    ensures (low > high || (log && low < 1) || dim !in t) ==> r == Err(ValueError)
    ensures r.Ok? ==> dim in t && t[dim].Atom? && !t[dim].a.StrV?
    ensures low <= high && !(log && low < 1) && dim in t && t[dim].Atom? && t[dim].a.IntV? ==> r == Ok(t[dim].a.i)
    ensures r.Err? ==> r.error == ValueError
  {
    if low > high || (log && low < 1) || dim !in t then Err(ValueError)
    else
      match t[dim]
      case Atom(IntV(i)) => Ok(i)
      case Atom(BoolV(b)) => Ok(if b then 1 else 0)
      case Atom(FloatV(x)) => Ok(Truncate(x))
      case _ => Err(ValueError)
  }

  /**
   * The list sampling loop as a function: each value's flag is asked for in
   * turn, and the values whose flag is set are kept in their order.
   */
  function SelectFlags(t: SearchParams, name: string, values: seq<Scalar>): (r: Result<seq<Scalar>>)
    ensures r.Ok? <==> forall v :: v in values ==> SuggestCategorical(t, Flag(name, v), [BoolV(true), BoolV(false)]).Ok?
    ensures r.Err? ==> r.error == ValueError
  {
    if values == [] then Ok([])
    else
      var last := values[|values| - 1];
      match SelectFlags(t, name, values[..|values| - 1])
      case Err(e) => Err(e)
      case Ok(acc) =>
        match SuggestCategorical(t, Flag(name, last), [BoolV(true), BoolV(false)])
        case Err(e) => Err(e)
        case Ok(select) => Ok(acc + if select == BoolV(true) then [last] else [])
  }

  /** The flags a successful list sample read select exactly the values whose flag is set, in their order. */
  lemma {:induction false} SelectFlagsFilters(t: SearchParams, name: string, values: seq<Scalar>)
    requires SelectFlags(t, name, values).Ok?
    ensures SelectFlags(t, name, values).value == FilterIn(values, FlaggedIn(t, name))
    decreases |values|
  {
    if values != [] {
      var last := values[|values| - 1];
      SelectFlagsFilters(t, name, values[..|values| - 1]);
      assert Flag(name, last) in t;
      if t[Flag(name, last)] == Atom(BoolV(true)) {
        assert last in FlaggedIn(t, name);
      }
    }
  }

  /** `sample(trial)`: the value this parameter takes in the trial. */
  function SampleSpec(p: CpSatParameter, t: SearchParams): Result<Value>
  {
    match p
    case BoolParameter(name, _) =>
      (match SuggestCategorical(t, Plain(name), [BoolV(true), BoolV(false)])
       case Ok(b) => Ok(Atom(b))
       case Err(e) => Err(e))
    case CategoryParameter(name, _, values) =>
      (match SuggestCategorical(t, Plain(name), values)
       case Ok(x) => Ok(Atom(x))
       case Err(e) => Err(e))
    case IntParameter(name, _, lb, ub, log) =>
      (match SuggestInt(t, Plain(name), lb, ub, log)
       case Ok(i) => Ok(Atom(IntV(i)))
       case Err(e) => Err(e))
    case ListParameter(name, _, values) =>
      (match SelectFlags(t, name, values)
       case Ok(selected) => Ok(ListV(selected))
       case Err(e) => Err(e))
    case IntFromOrderedListParameter(name, _, values) =>
      (match SuggestInt(t, Plain(name), 0, |values| - 1, false)
       case Err(e) => Err(e)
       case Ok(i) =>
         match PyIndex(values, i)
         case Ok(x) => Ok(Atom(x))
         case Err(e) => Err(e))
  }

  /** `ListParameter.sample`: asks for each value's flag in turn and appends the selected values. */
  method SampleList(t: SearchParams, name: string, values: seq<Scalar>) returns (r: Result<seq<Scalar>>)
    ensures r == SelectFlags(t, name, values)
  {
    var sampled: seq<Scalar> := [];
    var i := 0;
    while i < |values|
      invariant 0 <= i <= |values|
      invariant SelectFlags(t, name, values[..i]) == Ok(sampled)
    {
      var value := values[i];
      var select := SuggestCategorical(t, Flag(name, value), [BoolV(true), BoolV(false)]);
      if select.Err? {
        SelectFlagsStopsAtError(t, name, values, i + 1);
        return Err(select.error);
      }
      ghost var prev := sampled;
      if select.value == BoolV(true) {
        sampled := sampled + [value];
      } else {
        assert prev + [] == prev;
      }
      assert sampled == prev + if select.value == BoolV(true) then [value] else [];
      SelectFlagsStep(t, name, values, i);
      i := i + 1;
    }
    assert values[..i] == values;
    return Ok(sampled);
  }

  /** `sample(trial)` of any descriptor: the list kind runs its loop, the others read one entry. */
  method SampleParameter(p: CpSatParameter, t: SearchParams) returns (r: Result<Value>)
    ensures r == SampleSpec(p, t)
  {
    if p.ListParameter? {
      var selected := SampleList(t, p.name, p.values);
      r := match selected
        case Ok(items) => Ok(ListV(items))
        case Err(e) => Err(e);
    } else {
      r := SampleSpec(p, t);
    }
  }

  /** One more value: its flag is read after those of the values before it. */
  lemma SelectFlagsStep(t: SearchParams, name: string, values: seq<Scalar>, i: nat)
    requires i < |values|
    ensures SelectFlags(t, name, values[..i + 1])
         == match SelectFlags(t, name, values[..i])
            case Err(e) => Err(e)
            case Ok(acc) =>
              match SuggestCategorical(t, Flag(name, values[i]), [BoolV(true), BoolV(false)])
              case Err(e) => Err(e)
              case Ok(select) => Ok(acc + if select == BoolV(true) then [values[i]] else [])
  {
    assert values[..i + 1][..i] == values[..i];
  }

  /** Once the flags of a prefix cannot be read, the whole sample fails with the same error. */
  lemma {:induction false} SelectFlagsStopsAtError(t: SearchParams, name: string, values: seq<Scalar>, k: nat)
    requires k <= |values|
    requires SelectFlags(t, name, values[..k]).Err?
    ensures SelectFlags(t, name, values) == SelectFlags(t, name, values[..k])
    decreases |values| - k
  {
    if k < |values| {
      assert values[..k + 1][..k] == values[..k];
      SelectFlagsStopsAtError(t, name, values, k + 1);
    } else {
      assert values[..k] == values;
    }
  }

  // ---------------------------------------------------------------------
  // Properties
  // ---------------------------------------------------------------------

  /**
   * A sampled value lies in the parameter's domain: a boolean; one of the
   * categorical or ordered values; the values whose flag is set, in their
   * order. An integer is only sampled from a valid request (a non-empty
   * range, positive when on a log scale) and is the integer the trial holds.
   */
  lemma SampleInDomain(p: CpSatParameter, t: SearchParams)
    requires SampleSpec(p, t).Ok?
    ensures var v := SampleSpec(p, t).value;
      match p
      case BoolParameter(_, _) => v.Atom? && v.a.BoolV?
      case CategoryParameter(_, _, values) => v.Atom? && v.a in values
      case IntFromOrderedListParameter(_, _, values) => v.Atom? && v.a in values
      case ListParameter(name, _, values) => v.ListV? && v.items == FilterIn(values, FlaggedIn(t, name))
      case IntParameter(name, _, lb, ub, log) =>
        v.Atom? && v.a.IntV? && lb <= ub && !(log && lb < 1)
        && (t[Plain(name)].Atom? && t[Plain(name)].a.IntV? ==> v == t[Plain(name)])
  {
    if p.ListParameter? {
      SelectFlagsFilters(t, p.name, p.values);
    }
  }

  /**
   * What `sample` returns for a parameter is what `get_cpsat_params` reads
   * from the same trial's values: the same entry for the plain kinds (an
   * integer when the trial holds one), the same element for the ordered
   * kind, and the sorted tuple of the same selection for the list kind.
   */
  lemma SampleAgreesWithCpSatParams(p: CpSatParameter, t: SearchParams)
    requires SampleSpec(p, t).Ok?
    requires (p.IntParameter? || p.IntFromOrderedListParameter?) ==> t[Plain(p.name)].Atom? && t[Plain(p.name)].a.IntV?
    ensures var v := SampleSpec(p, t).value;
      GetCpSatParams(p, t) == Ok(map[p.name := if p.ListParameter? then TupleV(Sort(v.items)) else v])
  {
    if p.ListParameter? {
      SelectFlagsFilters(t, p.name, p.values);
    }
  }

  /** Plain kinds: both conversions copy the parameter's single entry, and the two defaults agree. */
  lemma PlainConversionsCopy(p: CpSatParameter, o: SearchParams, c: Assignment)
    requires p.BoolParameter? || p.CategoryParameter? || p.IntParameter?
    ensures GetCpSatParams(p, o) == if Plain(p.name) in o then Ok(map[p.name := o[Plain(p.name)]]) else Err(KeyError)
    ensures GetOptunaParams(p, c) == if p.name in c then Ok(map[Plain(p.name) := c[p.name]]) else Err(KeyError)
    ensures OptunaDefault(p) == map[Plain(p.name) := CpSatDefault(p).value]
  {
  }

  /**
   * List kind, flags to tuple to flags: boolean flags for every value are
   * recovered exactly (repeated values share one flag).
   */
  lemma ListFlagsRoundTrip(p: CpSatParameter, o: SearchParams)
    requires p.ListParameter?
    requires forall v :: v in p.values ==> Flag(p.name, v) in o && o[Flag(p.name, v)].Atom? && o[Flag(p.name, v)].a.BoolV?
    ensures GetCpSatParams(p, o).Ok?
    ensures GetOptunaParams(p, GetCpSatParams(p, o).value)
         == Ok(map d | d in FlagDims(p.name, p.values) :: o[d])
  {
    var name := p.name;
    var chosen := FlaggedIn(o, name);
    var items := Sort(FilterIn(p.values, chosen));
    var c := GetCpSatParams(p, o).value;
    assert c == map[name := TupleV(items)];
    var expected := map d | d in FlagDims(name, p.values) :: o[d];
    if p.values == [] {
      assert expected == map[];
    } else {
      var m := Memberships(TupleV(items), p.values);
      assert m.Ok?;
      var back := map d | d in FlagDims(name, p.values) :: Atom(BoolV(m.value[d.value]));
      assert GetOptunaParams(p, c) == Ok(back);
      forall d | d in FlagDims(name, p.values) ensures back[d] == expected[d] {
        assert d == Flag(name, d.value);
        FlagRecovered(o, name, p.values, d, items);
      }
      assert back == expected;
    }
  }

  lemma FlagRecovered(o: SearchParams, name: string, values: seq<Scalar>, d: Dim, items: seq<Scalar>)
    requires d in FlagDims(name, values) && d in o
    requires o[d].Atom? && o[d].a.BoolV?
    requires items == Sort(FilterIn(values, FlaggedIn(o, name)))
    ensures Atom(BoolV(Contains(TupleV(items), d.value).value)) == o[d]
  {
    var v := d.value;
    assert d == Flag(name, v);
    var selected := FilterIn(values, FlaggedIn(o, name));
    assert v in items <==> v in selected by {
      assert v in items <==> v in multiset(items);
      assert v in selected <==> v in multiset(selected);
    }
    FlaggedInIff(o, name, v);
  }

  /**
   * List kind, tuple to flags to tuple: a sorted duplicate-free selection of
   * duplicate-free values comes back unchanged.
   */
  lemma ListTupleRoundTrip(p: CpSatParameter, items: seq<Scalar>)
    requires p.ListParameter? && Distinct(p.values)
    requires Sorted(items) && Distinct(items) && forall x :: x in items ==> x in p.values
    ensures GetOptunaParams(p, map[p.name := TupleV(items)]).Ok?
    ensures GetCpSatParams(p, GetOptunaParams(p, map[p.name := TupleV(items)]).value)
         == Ok(map[p.name := TupleV(items)])
  {
    var name := p.name;
    var o := GetOptunaParams(p, map[name := TupleV(items)]).value;
    var chosen := FlaggedIn(o, name);
    var selected := FilterIn(p.values, chosen);
    if p.values != [] {
      var m := Memberships(TupleV(items), p.values);
      assert m.Ok?;
      assert o == map d | d in FlagDims(name, p.values) :: Atom(BoolV(m.value[d.value]));
    }
    forall x ensures x in selected <==> x in items {
      FlaggedInIff(o, name, x);
      if x in p.values {
        assert Flag(name, x) in FlagDims(name, p.values);
        assert o[Flag(name, x)] == Atom(BoolV(x in items));
      }
    }
    FilterInDistinct(p.values, chosen);
    DistinctSameElements(selected, items);
    SortedUnique(Sort(selected), items);
  }

  /** Ordered kind, index to value to index: the identity on valid indices into duplicate-free values. */
  lemma OrderedIndexRoundTrip(p: CpSatParameter, i: int)
    requires p.IntFromOrderedListParameter? && Distinct(p.values)
    requires 0 <= i < |p.values|
    ensures GetCpSatParams(p, map[Plain(p.name) := Atom(IntV(i))]) == Ok(map[p.name := Atom(p.values[i])])
    ensures GetOptunaParams(p, map[p.name := Atom(p.values[i])]) == Ok(map[Plain(p.name) := Atom(IntV(i))])
  {
    var r := IndexOf(p.values, Atom(p.values[i]));
    assert r.Ok?;
  }

  /** Ordered kind, value to index to value: the identity on every listed value. */
  lemma OrderedValueRoundTrip(p: CpSatParameter, x: Scalar)
    requires p.IntFromOrderedListParameter? && x in p.values
    ensures GetOptunaParams(p, map[p.name := Atom(x)]).Ok?
    ensures GetCpSatParams(p, GetOptunaParams(p, map[p.name := Atom(x)]).value) == Ok(map[p.name := Atom(x)])
  {
  }

  /** With a repeated value, index to value to index is not the identity: `values.index` finds the first copy. */
  lemma OrderedRepeatedValueExample()
    ensures var p := IntFromOrderedListParameter("level", 0, [IntV(7), IntV(7)]);
      GetOptunaParams(p, GetCpSatParams(p, map[Plain("level") := Atom(IntV(1))]).value)
      == Ok(map[Plain("level") := Atom(IntV(0))])
  {
    var p := IntFromOrderedListParameter("level", 0, [IntV(7), IntV(7)]);
    assert GetCpSatParams(p, map[Plain("level") := Atom(IntV(1))]) == Ok(map["level" := Atom(IntV(7))]);
  }

  /** For a well-formed descriptor the search-side default converts to the solver-side default. */
  lemma DefaultsAgree(p: CpSatParameter)
    requires WellFormed(p)
    ensures CpSatDefault(p).Ok?
    ensures GetCpSatParams(p, OptunaDefault(p)) == Ok(map[p.name := CpSatDefault(p).value])
  {
    if p.ListParameter? {
      var name := p.name;
      var o := OptunaDefault(p);
      var chosen := FlaggedIn(o, name);
      var selected := FilterIn(p.values, chosen);
      forall x ensures x in selected <==> x in p.defaultSubset {
        if x in p.defaultSubset {
          var d := Flag(name, x);
          assert x in p.values;
          assert o[d] == Atom(BoolV(true));
          assert d in o && d.Flag? && d.name == name && Truthy(o[d]) && d.value == x;
          assert x in chosen;
        }
        if x in selected {
          var d :| d in o && d.Flag? && d.name == name && Truthy(o[d]) && d.value == x;
          assert d == Flag(name, x);
        }
      }
      FilterInDistinct(p.values, chosen);
      DistinctSameElements(selected, p.defaultSubset);
      SortedUnique(Sort(selected), p.defaultSubset);
    }
  }
}
