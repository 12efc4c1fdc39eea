/**
 * The tabular data the training script and the serving endpoint handle: a
 * dataframe is an ordered list of column names, a dtype per column and a
 * sequence of rows over that shared column set.
 */
module Table {

  /** A scalar cell: an integer, a float, a string, or a missing value (NaN). */
  datatype Value = Int(i: int) | Float(x: real) | Str(s: string) | Missing

  /**
   * The column dtypes the script distinguishes. `Other` stands for every
   * dtype that is neither numeric nor textual (bool, datetime, ...).
   */
  datatype ColType = Int64 | Float64 | Object | Category | Other

  type Row = map<string, Value>

  datatype Frame = Frame(columns: seq<string>, dtypes: map<string, ColType>, rows: seq<Row>)

  /** A value a column of dtype `t` can hold. */
  predicate Fits(v: Value, t: ColType)
  {
    match t
    case Int64 => v.Int?
    case Float64 => v.Float? || v.Missing?
    case _ => true
  }

  predicate Distinct<T(==)>(s: seq<T>)
  {
    forall i, j :: 0 <= i < j < |s| ==> s[i] != s[j]
  }

  /**
   * Column names are distinct, every column has a dtype, every row has exactly
   * the frame's columns and every cell fits its column's dtype.
   */
  predicate WellFormed(f: Frame)
  {
    && Distinct(f.columns)
    && (forall c :: c in f.columns ==> c in f.dtypes)
    && (forall i :: 0 <= i < |f.rows| ==> f.rows[i].Keys == set c | c in f.columns)
    && (forall i, c :: 0 <= i < |f.rows| && c in f.columns ==> Fits(f.rows[i][c], f.dtypes[c]))
  }

  /** The cells of column `c`, top to bottom. */
  function ColumnValues(f: Frame, c: string): (vs: seq<Value>)
    requires WellFormed(f) && c in f.columns
    ensures |vs| == |f.rows|
    ensures forall i :: 0 <= i < |vs| ==> vs[i] == f.rows[i][c] && Fits(vs[i], f.dtypes[c])
  {
    seq(|f.rows|, i requires 0 <= i < |f.rows| => f.rows[i][c])
  }

  /** `a` can be obtained from `b` by deleting elements: `a` keeps `b`'s order. */
  predicate IsSubsequence<T(==)>(a: seq<T>, b: seq<T>)
    decreases |b|
  {
    if a == [] then true
    else if b == [] then false
    else if a[0] == b[0] then IsSubsequence(a[1..], b[1..])
    else IsSubsequence(a, b[1..])
  }

  /** The elements of `s` that satisfy `keep`, in their order in `s` (a list comprehension with a condition). */
  function Filter<T(==,!new)>(s: seq<T>, keep: T -> bool): (r: seq<T>)
    ensures forall x :: x in r <==> x in s && keep(x)
    ensures IsSubsequence(r, s)
    ensures |r| <= |s|
    ensures forall x :: multiset(r)[x] == if keep(x) then multiset(s)[x] else 0
  {
    if s == [] then []
    else
      assert s == [s[0]] + s[1..];
      var rest := Filter(s[1..], keep);
      if keep(s[0]) then
        assert ([s[0]] + rest)[1..] == rest;
        [s[0]] + rest
      else
        assert rest != [] ==> rest[0] in rest && rest[0] != s[0];
        rest
  }

  /**
   * The names of `wanted` that are not in `present`, in `wanted`'s order. This is
   * the comprehension `[col for col in wanted if col not in present]` used both
   * for the dataset's required features and for a request's required keys.
   */
  function MissingNames(wanted: seq<string>, present: set<string>): (r: seq<string>)
    ensures forall x :: x in r <==> x in wanted && x !in present
    ensures IsSubsequence(r, wanted)
    ensures r == [] <==> forall x :: x in wanted ==> x in present
    ensures forall x :: multiset(r)[x] == if x in present then 0 else multiset(wanted)[x]
  {
    var r := Filter(wanted, x => x !in present);
    assert r != [] ==> r[0] in r;
    r
  }

  /** The position of the first `v` in `s`, or -1 when `v` does not occur. */
  function IndexOf<T(==)>(s: seq<T>, v: T): (k: int)
    ensures v in s ==> 0 <= k < |s| && s[k] == v
    ensures v !in s ==> k == -1
    ensures v in s ==> v !in s[..k]
  {
    if s == [] then -1
    else if s[0] == v then 0
    else
      var k := IndexOf(s[1..], v);
      if k == -1 then -1 else k + 1
  }
}
