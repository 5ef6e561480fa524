/**
 * The static table of tunable solver parameters and lookup by name.
 */
module CpSatParameters {
  import opened Values
  import opened Parameters

  /** The subsolvers that the `ignore_subsolvers` list parameter may exclude. */
  const Subsolvers: seq<Scalar> := [
    StrV("default_lp"), StrV("fixed"), StrV("no_lp"), StrV("max_lp"), StrV("pseudo_costs"),
    StrV("reduced_costs"), StrV("quick_restart"), StrV("quick_restart_no_lp"), StrV("lb_tree_search"),
    StrV("probing")
  ]

  /** `CPSAT_PARAMETERS`, in its order. */
  function Table(): seq<CpSatParameter>
  {
    [
      IntFromOrderedListParameter("preferred_variable_order", 0, [IntV(0), IntV(1), IntV(2)]),
      BoolParameter("use_erwa_heuristic", false),
      BoolParameter("also_bump_variables_in_conflict_reasons", false),
      CategoryParameter("binary_minimization_algorithm", IntV(1), [IntV(0), IntV(1), IntV(2), IntV(3), IntV(4)]),
      CategoryParameter("clause_cleanup_protection", IntV(0), [IntV(0), IntV(1), IntV(2)]),
      IntFromOrderedListParameter("presolve_bve_threshold", 1, [IntV(100), IntV(500), IntV(1000)]),
      IntFromOrderedListParameter("max_presolve_iterations", 2, [IntV(1), IntV(2), IntV(3), IntV(5), IntV(10)]),
      IntFromOrderedListParameter("cp_model_probing_level", 2, [IntV(0), IntV(1), IntV(2)]),
      IntFromOrderedListParameter("presolve_probing_deterministic_time_limit", 4,
        [FloatV(0.1), FloatV(1.0), FloatV(5.0), FloatV(10.0), FloatV(30.0)]),
      BoolParameter("encode_complex_linear_constraint_with_integer", false),
      NewListParameter("ignore_subsolvers", [], Subsolvers),
      CategoryParameter("search_branching", IntV(0), [IntV(0), IntV(1), IntV(2), IntV(3), IntV(4), IntV(5), IntV(6), IntV(7), IntV(8)]),
      BoolParameter("repair_hint", false),
      BoolParameter("use_lns_only", false),
      BoolParameter("use_lb_relax_lns", false),
      BoolParameter("use_objective_lb_search", false),
      BoolParameter("use_objective_shaving_search", false),
      BoolParameter("optimize_with_core", false),
      IntParameter("feasibility_jump_linearization_level", 2, 0, 2, false),
      CategoryParameter("fp_rounding", IntV(2), [IntV(0), IntV(1), IntV(3), IntV(2)]),
      BoolParameter("diversify_lns_params", false),
      BoolParameter("polish_lp_solution", false),
      IntFromOrderedListParameter("linearization_level", 1, [IntV(0), IntV(1), IntV(2)]),
      BoolParameter("add_objective_cut", false),
      IntParameter("cut_level", 1, 0, 2, false),
      IntFromOrderedListParameter("max_all_diff_cut_size", 1, [IntV(32), IntV(64), IntV(128)]),
      IntFromOrderedListParameter("symmetry_level", 2, [IntV(0), IntV(1), IntV(2)])
    ]
  }

  /** The first descriptor in `params` with the given name, or KeyError. */
  function FindByName(params: seq<CpSatParameter>, name: string): (r: Result<CpSatParameter>)
    ensures r.Ok? <==> exists i :: 0 <= i < |params| && params[i].name == name
    ensures r.Ok? ==> exists i :: 0 <= i < |params| && params[i] == r.value && r.value.name == name &&
                                (forall j :: 0 <= j < i ==> params[j].name != name)
    ensures r.Err? ==> r.error == KeyError
  {
    if params == [] then Err(KeyError)
    else if params[0].name == name then
      Ok(params[0])
    else
      var r := FindByName(params[1..], name);
      assert forall i :: 1 <= i < |params| ==> params[i] == params[1..][i - 1];
      if r.Ok? then
        var k :| 0 <= k < |params[1..]| && params[1..][k] == r.value && r.value.name == name
          && forall j :: 0 <= j < k ==> params[1..][j].name != name;
        assert params[k + 1] == r.value;
        r
      else r
  }

  /** When names are unique, the lookup returns the one entry with that name. */
  lemma FindUnique(params: seq<CpSatParameter>, i: int, name: string)
    requires forall j, k :: 0 <= j < k < |params| ==> params[j].name != params[k].name
    requires 0 <= i < |params| && params[i].name == name
    ensures FindByName(params, name) == Ok(params[i])
  {
    var r := FindByName(params, name);
    var k :| 0 <= k < |params| && params[k] == r.value && r.value.name == name;
    assert k == i;
  }

  /** `get_parameter_by_name`. */
  function GetParameterByName(name: string): Result<CpSatParameter>
  {
    FindByName(Table(), name)
  }

  /** The names in the table, in its order. */
  const TableNames: seq<string> := [
    "preferred_variable_order", "use_erwa_heuristic", "also_bump_variables_in_conflict_reasons",
    "binary_minimization_algorithm", "clause_cleanup_protection", "presolve_bve_threshold",
    "max_presolve_iterations", "cp_model_probing_level", "presolve_probing_deterministic_time_limit",
    "encode_complex_linear_constraint_with_integer", "ignore_subsolvers", "search_branching",
    "repair_hint", "use_lns_only", "use_lb_relax_lns", "use_objective_lb_search",
    "use_objective_shaving_search", "optimize_with_core", "feasibility_jump_linearization_level",
    "fp_rounding", "diversify_lns_params", "polish_lp_solution", "linearization_level",
    "add_objective_cut", "cut_level", "max_all_diff_cut_size", "symmetry_level"
  ]

  lemma TableNamesInOrder()
    ensures |Table()| == |TableNames|
    ensures forall i :: 0 <= i < |Table()| ==> Table()[i].name == TableNames[i]
  {
  }

  /** Length and first letter of each name in `TableNames`, in four blocks; no two names share both. */
  const TagsA: seq<(int, char)> := [(24, 'p'), (18, 'u'), (39, 'a'), (29, 'b'), (25, 'c'), (22, 'p'), (23, 'm')]
  const TagsB: seq<(int, char)> := [(22, 'c'), (41, 'p'), (45, 'e'), (17, 'i'), (16, 's'), (11, 'r'), (12, 'u')]
  const TagsC: seq<(int, char)> := [(16, 'u'), (23, 'u'), (28, 'u'), (18, 'o'), (36, 'f'), (11, 'f'), (20, 'd')]
  const TagsD: seq<(int, char)> := [(18, 'p'), (19, 'l'), (17, 'a'), (9, 'c'), (21, 'm'), (14, 's')]
  const TableTags: seq<(int, char)> := TagsA + TagsB + TagsC + TagsD

  lemma TableTagsMatch()
    ensures |TableTags| == |TableNames|
    ensures forall i :: 0 <= i < |TableNames| ==> |TableNames[i]| > 0 && TableTags[i] == (|TableNames[i]|, TableNames[i][0])
  {
  }

  lemma TagBlocksDistinct()
    ensures Distinct(TagsA) && Distinct(TagsB) && Distinct(TagsC) && Distinct(TagsD)
  {
  }

  lemma TagBlocksApartA()
    ensures forall x :: x in TagsA ==> x !in TagsB && x !in TagsC && x !in TagsD
  {
  }

  lemma TagBlocksApartB()
    ensures forall x :: x in TagsB ==> x !in TagsC && x !in TagsD
  {
  }

  lemma TagBlocksApartC()
    ensures forall x :: x in TagsC ==> x !in TagsD
  {
  }

  lemma TableTagsDistinct()
    ensures Distinct(TableTags)
  {
    TagBlocksDistinct();
    TagBlocksApartA();
    TagBlocksApartB();
    TagBlocksApartC();
    DistinctConcat(TagsA, TagsB);
    DistinctConcat(TagsA + TagsB, TagsC);
    DistinctConcat(TagsA + TagsB + TagsC, TagsD);
  }

  lemma TableNamesListDistinct()
    ensures Distinct(TableNames)
  {
    TableTagsMatch();
    TableTagsDistinct();
    forall i, j | 0 <= i < j < |TableNames| ensures TableNames[i] != TableNames[j] {
      assert TableTags[i] != TableTags[j];
    }
  }

  /** No two descriptors in the table share a name, so a lookup finds the only match. */
  lemma TableNamesDistinct()
    ensures forall i, j :: 0 <= i < j < |Table()| ==> Table()[i].name != Table()[j].name
  {
    TableNamesInOrder();
    TableNamesListDistinct();
  }

  lemma SubsolversDistinct()
    ensures Distinct(Subsolvers)
  {
  }

  lemma IgnoreSubsolversWellFormed()
    ensures WellFormed(Table()[10])
  {
    SubsolversDistinct();
    NewListParameterWellFormed("ignore_subsolvers", [], Subsolvers);
  }

  /** Every descriptor in the table is well formed: valid defaults, duplicate-free values. */
  lemma TableWellFormed()
    ensures forall i :: 0 <= i < |Table()| ==> WellFormed(Table()[i])
  {
    forall i | 0 <= i < |Table()| ensures WellFormed(Table()[i]) {
      if i < 5 {
        FirstEntriesWellFormed(i);
      } else if i < 8 {
        LeadingEntriesWellFormed(i);
      } else if i < 10 {
        MiddleEntriesWellFormed(i);
      } else if i == 10 {
        IgnoreSubsolversWellFormed();
      } else {
        TrailingEntriesWellFormed(i);
      }
    }
  }

  lemma FirstEntriesWellFormed(i: int)
    requires 0 <= i < 5
    ensures WellFormed(Table()[i])
  {
  }

  lemma LeadingEntriesWellFormed(i: int)
    requires 5 <= i < 8
    ensures WellFormed(Table()[i])
  {
  }

  lemma MiddleEntriesWellFormed(i: int)
    requires 8 <= i < 10
    ensures WellFormed(Table()[i])
  {
  }

  lemma TrailingEntriesWellFormed(i: int)
    requires 10 < i < |Table()|
    ensures WellFormed(Table()[i])
  {
  }

  /** Every categorical entry would pass its constructor's check. */
  lemma TableCategoriesConstruct()
    ensures forall i :: 0 <= i < |Table()| && Table()[i].CategoryParameter? ==>
      NewCategoryParameter(Table()[i].name, Table()[i].defaultChoice, Table()[i].values) == Ok(Table()[i])
  {
    TableWellFormed();
  }

  /** Looking up a listed name returns that entry. */
  lemma GetParameterByNameFinds()
    ensures GetParameterByName("cut_level") == Ok(IntParameter("cut_level", 1, 0, 2, false))
  {
    TableNamesDistinct();
    CutLevelEntry();
    FindUnique(Table(), 24, "cut_level");
  }

  lemma CutLevelEntry()
    ensures 24 < |Table()| && Table()[24] == IntParameter("cut_level", 1, 0, 2, false)
  {
  }

  /** An unlisted name raises KeyError. */
  lemma GetParameterByNameMisses()
    ensures GetParameterByName("num_workers") == Err(KeyError)
  {
    TableNamesInOrder();
    NumWorkersUnlisted();
    assert forall i :: 0 <= i < |TableNames| ==> TableNames[i] in TableNames;
  }

  lemma NumWorkersUnlisted()
    ensures "num_workers" !in TableNames
  {
  }

  /** The table's ordered defaults select: presolve_probing_deterministic_time_limit defaults to 30.0, symmetry_level to 2. */
  lemma TableOrderedDefaults()
    ensures CpSatDefault(Table()[8]) == Ok(Atom(FloatV(30.0)))
    ensures CpSatDefault(Table()[26]) == Ok(Atom(IntV(2)))
  {
  }
}
