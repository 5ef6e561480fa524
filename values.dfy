/**
 * The Python values the tuner moves around: parameter values (scalars,
 * lists and tuples), parameter assignments (dictionaries from a parameter
 * name to a value), the exceptions the core raises, and the handful of
 * Python built-ins the core relies on (sorting, indexing, `list.index`,
 * truthiness, `in`).
 */
module Values {

  /** The exceptions raised by the modelled code. */
  datatype PyError =
    | KeyError
    | ValueError
    | IndexError
    | TypeError
    | ZeroDivisionError
    | AttributeError
    | TrialPruned

  /** A value or the exception that was raised instead of returning it. */
  datatype Result<+T> = Ok(value: T) | Err(error: PyError)

  datatype Option<+T> = None | Some(value: T)

  /**
   * A scalar parameter value. Booleans, integers, floats and strings are
   * kept apart: every comparison the core makes is between values of the
   * same parameter, which share one Python type.
   */
  datatype Scalar =
    | BoolV(b: bool)
    | IntV(i: int)
    | FloatV(x: real)
    | StrV(s: string)

  /** A parameter value: a scalar, a Python list or a Python tuple of scalars. */
  datatype Value =
    | Atom(a: Scalar)
    | ListV(items: seq<Scalar>)
    | TupleV(items: seq<Scalar>)

  /** A parameter assignment: solver parameter name to value. */
  type Assignment = map<string, Value>

  // ---------------------------------------------------------------------
  // Ordering used by `sorted`
  // ---------------------------------------------------------------------

  /** Lexicographic order on strings by character code, as Python compares `str`. */
  predicate StrLe(a: string, b: string)
    decreases |a|
  {
    |a| == 0 || (|b| > 0 && (a[0] < b[0] || (a[0] == b[0] && StrLe(a[1..], b[1..]))))
  }

  lemma {:induction false} StrLeTotal(a: string, b: string)
    ensures StrLe(a, b) || StrLe(b, a)
    decreases |a|
  {
    if |a| > 0 && |b| > 0 && a[0] == b[0] {
      StrLeTotal(a[1..], b[1..]);
    }
  }

  lemma {:induction false} StrLeAntisymmetric(a: string, b: string)
    requires StrLe(a, b) && StrLe(b, a)
    ensures a == b
    decreases |a|
  {
    if |a| > 0 {
      StrLeAntisymmetric(a[1..], b[1..]);
      assert a == [a[0]] + a[1..];
      assert b == [b[0]] + b[1..];
    }
  }

  lemma {:induction false} StrLeTransitive(a: string, b: string, c: string)
    requires StrLe(a, b) && StrLe(b, c)
    ensures StrLe(a, c)
    decreases |a|
  {
    if |a| > 0 && a[0] == b[0] && b[0] == c[0] {
      StrLeTransitive(a[1..], b[1..], c[1..]);
    }
  }

  /** Position of a scalar's kind in the model's sort order. */
  function KindRank(s: Scalar): nat
  {
    match s
    case BoolV(_) => 0
    case IntV(_) => 1
    case FloatV(_) => 2
    case StrV(_) => 3
  }

  /**
   * The order `sorted` uses on scalars of one kind (False < True, numbers
   * by value, strings lexicographically). Scalars of different kinds are
   * ordered by kind; Python would raise TypeError for a list mixing
   * strings and numbers.
   */
  predicate ScalarLe(a: Scalar, b: Scalar)
  {
    if KindRank(a) != KindRank(b) then KindRank(a) < KindRank(b)
    else match (a, b)
      case (BoolV(x), BoolV(y)) => !x || y
      case (IntV(x), IntV(y)) => x <= y
      case (FloatV(x), FloatV(y)) => x <= y
      case (StrV(x), StrV(y)) => StrLe(x, y)
      case _ => false
  }

  lemma ScalarLeTotal(a: Scalar, b: Scalar)
    ensures ScalarLe(a, b) || ScalarLe(b, a)
  {
    if a.StrV? && b.StrV? {
      StrLeTotal(a.s, b.s);
    }
  }

  lemma ScalarLeAntisymmetric(a: Scalar, b: Scalar)
    requires ScalarLe(a, b) && ScalarLe(b, a)
    ensures a == b
  {
    if a.StrV? && b.StrV? {
      StrLeAntisymmetric(a.s, b.s);
    }
  }

  lemma ScalarLeTransitive(a: Scalar, b: Scalar, c: Scalar)
    requires ScalarLe(a, b) && ScalarLe(b, c)
    ensures ScalarLe(a, c)
  {
    if a.StrV? && b.StrV? && c.StrV? {
      StrLeTransitive(a.s, b.s, c.s);
    }
  }

  predicate Sorted(s: seq<Scalar>)
  {
    forall i, j :: 0 <= i < j < |s| ==> ScalarLe(s[i], s[j])
  }

  /** Inserts `x` before the first element it is not greater than. */
  function Insert(x: Scalar, s: seq<Scalar>): (r: seq<Scalar>)
    requires Sorted(s)
    ensures multiset(r) == multiset(s) + multiset{x}
    ensures Sorted(r)
  {
    if s == [] then [x]
    else if ScalarLe(x, s[0]) then
      BelowHead(x, s);
      SortedCons(x, s);
      [x] + s
    else
      var rest := Insert(x, s[1..]);
      assert s == [s[0]] + s[1..];
      ScalarLeTotal(x, s[0]);
      forall y | y in multiset(rest) ensures ScalarLe(s[0], y) {
        if y != x {
          assert y in multiset(s);
          SortedHeadIsLeast(s, y);
        }
      }
      SortedCons(s[0], rest);
      [s[0]] + rest
  }

  /** A scalar below the head of a sorted sequence is below all of it. */
  lemma BelowHead(x: Scalar, s: seq<Scalar>)
    requires Sorted(s) && s != [] && ScalarLe(x, s[0])
    ensures forall y :: y in multiset(s) ==> ScalarLe(x, y)
  {
    forall y | y in multiset(s) ensures ScalarLe(x, y) {
      SortedHeadIsLeast(s, y);
      ScalarLeTransitive(x, s[0], y);
    }
  }

  /** Putting a scalar below every element in front of a sorted sequence keeps it sorted. */
  lemma SortedCons(a: Scalar, s: seq<Scalar>)
    requires Sorted(s)
    requires forall y :: y in multiset(s) ==> ScalarLe(a, y)
    ensures Sorted([a] + s)
  {
    var t := [a] + s;
    forall i, j | 0 <= i < j < |t| ensures ScalarLe(t[i], t[j]) {
      assert t[j] == s[j - 1] && s[j - 1] in multiset(s);
      if i > 0 {
        assert t[i] == s[i - 1];
      }
    }
  }

  /** Python's `sorted` on a list or tuple of scalars. */
  function Sort(s: seq<Scalar>): (r: seq<Scalar>)
    ensures multiset(r) == multiset(s)
    ensures Sorted(r)
  {
    if s == [] then []
    else
      assert s == [s[0]] + s[1..];
      Insert(s[0], Sort(s[1..]))
  }

  /** The head of a sorted sequence is below every element of it. */
  lemma SortedHeadIsLeast(a: seq<Scalar>, y: Scalar)
    requires Sorted(a) && a != []
    requires y in multiset(a)
    ensures ScalarLe(a[0], y)
  {
    var k :| 0 <= k < |a| && a[k] == y;
    if k == 0 { ScalarLeTotal(y, y); }
  }

  lemma SortedTail(a: seq<Scalar>)
    requires Sorted(a) && a != []
    ensures Sorted(a[1..])
  {
    forall i, j | 0 <= i < j < |a| - 1 ensures ScalarLe(a[1..][i], a[1..][j]) {
      assert a[1..][i] == a[i + 1] && a[1..][j] == a[j + 1];
    }
  }

  /** Two sorted sequences holding the same elements are equal. */
  lemma {:induction false} SortedUnique(a: seq<Scalar>, b: seq<Scalar>)
    requires Sorted(a) && Sorted(b)
    requires multiset(a) == multiset(b)
    ensures a == b
    decreases |a|
  {
    if a != [] {
      assert |b| == |a| by { assert |multiset(a)| == |a| && |multiset(b)| == |b|; }
      assert a[0] in multiset(a);
      assert b[0] in multiset(b);
      SortedHeadIsLeast(a, b[0]);
      SortedHeadIsLeast(b, a[0]);
      ScalarLeAntisymmetric(a[0], b[0]);
      assert a == [a[0]] + a[1..];
      assert b == [b[0]] + b[1..];
      assert multiset(a) == multiset{a[0]} + multiset(a[1..]);
      assert multiset(b) == multiset{b[0]} + multiset(b[1..]);
      assert multiset(a[1..]) == multiset(a) - multiset{a[0]};
      assert multiset(b[1..]) == multiset(b) - multiset{b[0]};
      SortedTail(a);
      SortedTail(b);
      SortedUnique(a[1..], b[1..]);
    }
  }

  /** Sorting forgets the order of the input: permutations sort to the same sequence. */
  lemma SortIgnoresOrder(a: seq<Scalar>, b: seq<Scalar>)
    requires multiset(a) == multiset(b)
    ensures Sort(a) == Sort(b)
  {
    SortedUnique(Sort(a), Sort(b));
  }

  /** Sorting an already sorted sequence changes nothing. */
  lemma SortOfSorted(a: seq<Scalar>)
    requires Sorted(a)
    ensures Sort(a) == a
  {
    SortedUnique(Sort(a), a);
  }

  /** No element occurs twice. */
  predicate Distinct<T(==)>(s: seq<T>)
  {
    forall i, j :: 0 <= i < j < |s| ==> s[i] != s[j]
  }

  /** In a sequence without duplicates every element occurs exactly once. */
  lemma {:induction false} DistinctCount<T>(s: seq<T>, x: T)
    requires Distinct(s)
    ensures multiset(s)[x] == if x in s then 1 else 0
    decreases |s|
  {
    if s != [] {
      var init, last := s[..|s| - 1], s[|s| - 1];
      assert s == init + [last];
      assert Distinct(init);
      assert last !in init;
      DistinctCount(init, x);
    }
  }

  /** Two duplicate-free sequences with the same elements hold the same multiset. */
  lemma DistinctSameElements<T>(a: seq<T>, b: seq<T>)
    requires Distinct(a) && Distinct(b)
    requires forall x :: x in a <==> x in b
    ensures multiset(a) == multiset(b)
  {
    forall x ensures multiset(a)[x] == multiset(b)[x] {
      DistinctCount(a, x);
      DistinctCount(b, x);
    }
  }

  lemma SplitLast<T>(s: seq<T>)
    requires s != []
    ensures s == s[..|s| - 1] + [s[|s| - 1]]
  {
  }

  lemma SplitFirst<T>(s: seq<T>)
    requires s != []
    ensures s == [s[0]] + s[1..]
  {
  }

  /** Two duplicate-free sequences with no element in common concatenate to a duplicate-free one. */
  lemma DistinctConcat<T>(a: seq<T>, b: seq<T>)
    requires Distinct(a) && Distinct(b)
    requires forall x :: x in a ==> x !in b
    ensures Distinct(a + b)
  {
    var t := a + b;
    forall i, j | 0 <= i < j < |t| ensures t[i] != t[j] {
      if j < |a| {
        assert t[i] == a[i] && t[j] == a[j];
      } else if i >= |a| {
        assert t[i] == b[i - |a|] && t[j] == b[j - |a|];
      } else {
        assert t[i] == a[i] && t[j] == b[j - |a|];
        assert a[i] in a && b[j - |a|] in b;
      }
    }
  }

  /** An element at two positions occurs at least twice. */
  lemma TwiceCounted<T>(s: seq<T>, i: int, j: int)
    requires 0 <= i < j < |s| && s[i] == s[j]
    ensures multiset(s)[s[i]] >= 2
  {
    var x := s[i];
    assert s == s[..i] + [x] + s[i + 1..j] + [x] + s[j + 1..];
  }

  /** A rearrangement of a duplicate-free sequence is duplicate-free. */
  lemma DistinctPermutation<T>(a: seq<T>, b: seq<T>)
    requires multiset(a) == multiset(b) && Distinct(b)
    ensures Distinct(a)
  {
    forall i, j | 0 <= i < j < |a| ensures a[i] != a[j] {
      if a[i] == a[j] {
        TwiceCounted(a, i, j);
        DistinctCount(b, a[i]);
        assert false;
      }
    }
  }

  // ---------------------------------------------------------------------
  // Built-ins
  // ---------------------------------------------------------------------

  /** Python's `xs[i]`: negative indices count from the end, others raise IndexError. */
  function PyIndex<T>(xs: seq<T>, i: int): (r: Result<T>)
    ensures r.Ok? <==> -|xs| <= i < |xs|
    ensures 0 <= i < |xs| ==> r == Ok(xs[i])
    ensures r.Ok? ==> r.value in xs
    ensures r.Err? ==> r.error == IndexError
  {
    if 0 <= i < |xs| then Ok(xs[i])
    else if -|xs| <= i < 0 then Ok(xs[|xs| + i])
    else Err(IndexError)
  }

  /** Python's `values.index(v)`: the first position holding `v`, or ValueError. */
  function IndexOf(xs: seq<Scalar>, v: Value): (r: Result<int>)
    ensures r.Ok? <==> v.Atom? && v.a in xs
    ensures r.Ok? ==> 0 <= r.value < |xs| && Atom(xs[r.value]) == v
    ensures r.Ok? ==> forall k :: 0 <= k < r.value ==> Atom(xs[k]) != v
    ensures r.Err? ==> r.error == ValueError
    decreases |xs|
  {
    if xs == [] then Err(ValueError)
    else if Atom(xs[0]) == v then Ok(0)
    else match IndexOf(xs[1..], v)
      case Ok(k) => Ok(k + 1)
      case Err(e) => Err(e)
  }

  /** Python truthiness of a value (`if value:`). */
  predicate Truthy(v: Value)
  {
    match v
    case Atom(BoolV(b)) => b
    case Atom(IntV(i)) => i != 0
    case Atom(FloatV(x)) => x != 0.0
    case Atom(StrV(s)) => s != ""
    case ListV(items) => items != []
    case TupleV(items) => items != []
  }

  /** `needle` occurs as a contiguous piece of `hay`. */
  predicate IsSubstring(needle: string, hay: string)
  {
    exists i :: 0 <= i <= |hay| && needle <= hay[i..]
  }

  /**
   * Python's `x in container`: membership for lists and tuples, substring
   * search for a string, TypeError otherwise.
   */
  function Contains(container: Value, x: Scalar): (r: Result<bool>)
    ensures (container.ListV? || container.TupleV?) ==> r == Ok(x in container.items)
    ensures r.Err? <==> container.Atom? && !(container.a.StrV? && x.StrV?)
  {
    match container
    case ListV(items) => Ok(x in items)
    case TupleV(items) => Ok(x in items)
    case Atom(StrV(hay)) => if x.StrV? then Ok(IsSubstring(x.s, hay)) else Err(TypeError)
    case Atom(_) => Err(TypeError)
  }
}
