/**
 * The values the migration handles: scalar JSON attribute values, raw
 * database columns, and the order Python's `sorted` puts them in.
 */
module Values {

  /** One JSON scalar, or one column value of a database row. Numbers are
      passed through untouched, so they are kept opaque. */
  datatype Scalar = Null | Bool(b: bool) | Num(x: real) | Str(s: string)

  /** A decoded attribute payload: a JSON object of scalars. */
  type Attrs = map<string, Scalar>

  /** A positional result row of the source database. */
  type Row = seq<Scalar>

  /** Lexicographic order on strings by code point, as Python compares `str`. */
  predicate StrLess(a: string, b: string)
    decreases |a|
  {
    if |a| == 0 then |b| > 0
    else if |b| == 0 then false
    else if a[0] == b[0] then StrLess(a[1..], b[1..])
    else a[0] < b[0]
  }

  lemma {:induction false} StrLessIrreflexive(a: string)
    ensures !StrLess(a, a)
  {
    if |a| > 0 {
      StrLessIrreflexive(a[1..]);
    }
  }

  lemma {:induction false} StrLessTransitive(a: string, b: string, c: string)
    requires StrLess(a, b) && StrLess(b, c)
    ensures StrLess(a, c)
  {
    if |a| > 0 && |b| > 0 && |c| > 0 && a[0] == b[0] && b[0] == c[0] {
      StrLessTransitive(a[1..], b[1..], c[1..]);
    }
  }

  lemma {:induction false} StrLessTotal(a: string, b: string)
    requires a != b
    ensures StrLess(a, b) || StrLess(b, a)
  {
    if |a| > 0 && |b| > 0 && a[0] == b[0] {
      assert a == [a[0]] + a[1..] && b == [b[0]] + b[1..];
      StrLessTotal(a[1..], b[1..]);
    }
  }

  /** The kind of a scalar, ranking the kinds against each other. Booleans
      and numbers share a rank: Python compares them as numbers. */
  function Rank(v: Scalar): nat
  {
    match v
    case Null => 0
    case Bool(_) => 1
    case Num(_) => 1
    case Str(_) => 2
  }

  /** The numeric value Python compares a boolean or a number by. */
  function Numeric(v: Scalar): real
  {
    match v
    case Bool(b) => if b then 1.0 else 0.0
    case Num(x) => x
    case _ => 0.0
  }

  /** The order in which the final report lists entity ids and friendly
      names. Booleans and numbers are ordered by value, `False` and `True`
      counting as 0 and 1, a boolean before a number of the same value;
      strings are ordered lexicographically. Kinds Python cannot compare
      with each other are ordered by rank. */
  predicate ScalarLess(a: Scalar, b: Scalar)
  {
    if Rank(a) != Rank(b) then Rank(a) < Rank(b)
    else match (a, b)
      case (Str(x), Str(y)) => StrLess(x, y)
      case (Null, _) => false
      case _ => Numeric(a) < Numeric(b) || (Numeric(a) == Numeric(b) && a.Bool? && b.Num?)
  }

  lemma ScalarLessIrreflexive(a: Scalar)
    ensures !ScalarLess(a, a)
  {
    if a.Str? {
      StrLessIrreflexive(a.s);
    }
  }

  lemma ScalarLessTransitive(a: Scalar, b: Scalar, c: Scalar)
    requires ScalarLess(a, b) && ScalarLess(b, c)
    ensures ScalarLess(a, c)
  {
    if a.Str? && b.Str? && c.Str? {
      StrLessTransitive(a.s, b.s, c.s);
    }
  }

  lemma ScalarLessTotal(a: Scalar, b: Scalar)
    requires a != b
    ensures ScalarLess(a, b) || ScalarLess(b, a)
  {
    if a.Str? && b.Str? {
      StrLessTotal(a.s, b.s);
    }
  }

}
