/**
 * The slice of a pandas DataFrame that the pipelines rely on: an ordered list of
 * column names, an ordered index of instrument ids and, for each id, a row that maps
 * column names to cells. Every operation returns a new frame; none mutates its input.
 */
module Frames {
  import opened Wrappers

  type Ticker = string
  type ColName = string

  datatype Cell = Num(x: real) | Text(s: string)

  type Row = map<ColName, Cell>

  datatype Frame = Frame(columns: seq<ColName>, index: seq<Ticker>, rows: map<Ticker, Row>)

  /** The exceptions the modelled code can raise, named after their Python types. */
  datatype Error =
    | ProviderError          // a call into the market-data provider raised
    | KeyError(col: ColName) // a row or frame lacks a column that is read
    | TypeError(col: ColName) // a column holds text where a number is needed
    | ColumnsOverlap         // pandas' join refuses frames that share a column name

  function Elems<T>(s: seq<T>): set<T> { set x | x in s }

  predicate Distinct<T(==)>(s: seq<T>) {
    forall i, j :: 0 <= i < j < |s| ==> s[i] != s[j]
  }

  /** Appending a new element keeps a sequence free of duplicates. */
  lemma DistinctSnoc(s: seq<string>, x: string)
    requires Distinct(s) && x !in s
    ensures Distinct(s + [x])
  {
    forall i, j | 0 <= i < j < |s + [x]| ensures (s + [x])[i] != (s + [x])[j] {
      if j == |s| { assert (s + [x])[i] == s[i]; }
    }
  }

  /** A rectangular frame with a unique index and unique column names. */
  predicate WellFormed(f: Frame) {
    && Distinct(f.columns)
    && Distinct(f.index)
    && f.rows.Keys == Elems(f.index)
    && forall t :: t in f.rows ==> f.rows[t].Keys == Elems(f.columns)
  }

  /** pandas' `DataFrame.empty`: no rows or no columns. */
  predicate IsEmpty(f: Frame) {
    |f.index| == 0 || |f.columns| == 0
  }

  predicate HasNum(r: Row, c: ColName) {
    c in r && r[c].Num?
  }

  function Min(a: int, b: int): int { if a <= b then a else b }

  /** `a` is obtained from `b` by deleting elements, keeping the order of the rest. */
  ghost predicate IsSubsequence(a: seq<string>, b: seq<string>)
    decreases |b|
  {
    if a == [] then true
    else if b == [] then false
    else if a[0] == b[0] then IsSubsequence(a[1..], b[1..])
    else IsSubsequence(a, b[1..])
  }

  lemma {:induction false} SubsequenceTransitive(a: seq<string>, b: seq<string>, c: seq<string>)
    requires IsSubsequence(a, b) && IsSubsequence(b, c)
    ensures IsSubsequence(a, c)
    decreases |c|
  {
    if a != [] && b != [] && c != [] {
      if b[0] == c[0] {
        if a[0] == b[0] {
          SubsequenceTransitive(a[1..], b[1..], c[1..]);
        } else {
          SubsequenceTransitive(a, b[1..], c[1..]);
        }
      } else {
        SubsequenceTransitive(a, b, c[1..]);
        if a[0] == c[0] {
          SubsequenceDropHead(a, c[1..]);
        }
      }
    }
  }

  /** Removing the first element of a subsequence leaves a subsequence. */
  lemma {:induction false} SubsequenceDropHead(a: seq<string>, x: seq<string>)
    requires a != [] && IsSubsequence(a, x)
    ensures IsSubsequence(a[1..], x)
    decreases |x|, |a|
  {
    if x != [] {
      if a[0] == x[0] {
        SubsequenceFromTail(a[1..], x);
      } else {
        SubsequenceDropHead(a, x[1..]);
        SubsequenceFromTail(a[1..], x);
      }
    }
  }

  /** A subsequence of the tail of `x` is a subsequence of `x`. */
  lemma {:induction false} SubsequenceFromTail(a: seq<string>, x: seq<string>)
    requires x != [] && IsSubsequence(a, x[1..])
    ensures IsSubsequence(a, x)
    decreases |x|, |a|
  {
    if a != [] && a[0] == x[0] {
      SubsequenceDropHead(a, x[1..]);
    }
  }

  /** The elements of `s` that belong to `keep`, in the order of `s`. */
  function Filter(s: seq<string>, keep: set<string>): (r: seq<string>)
    ensures forall x :: x in r <==> x in s && x in keep
    ensures |r| <= |s|
    ensures IsSubsequence(r, s)
    ensures Distinct(s) ==> Distinct(r)
  {
    if s == [] then []
    else
      var rest := Filter(s[1..], keep);
      if s[0] in keep then
        assert Distinct(s) ==> s[0] !in s[1..] by {
          if Distinct(s) {
            assert forall k :: 0 <= k < |s[1..]| ==> s[1..][k] == s[k + 1] && s[k + 1] != s[0];
          }
        }
        assert ([s[0]] + rest)[1..] == rest;
        [s[0]] + rest
      else
        assert rest != [] ==> rest[0] in keep && rest[0] != s[0];
        rest
  }

  /**
   * `[col for col in wish if col in df.columns]`: the wished-for columns that the frame
   * has, in wish-list order.
   */
  function ExistingColumns(wish: seq<ColName>, f: Frame): (cols: seq<ColName>)
    ensures IsSubsequence(cols, wish)
    ensures forall c :: c in cols <==> c in wish && c in f.columns
    ensures Distinct(wish) ==> Distinct(cols)
    ensures Elems(cols) <= Elems(f.columns)
  {
    Filter(wish, Elems(f.columns))
  }

  /** The cells of `r` whose column is in `cs`. */
  function Restrict(r: Row, cs: set<ColName>): (q: Row)
    ensures q.Keys == r.Keys * cs
    ensures forall c :: c in q ==> q[c] == r[c]
  {
    map c | c in r && c in cs :: r[c]
  }

  /** `df[c] = vals`: overwrite column `c` in place, or append it as the last column. */
  function WithColumn(f: Frame, c: ColName, vals: map<Ticker, Cell>): (g: Frame)
    requires f.rows.Keys <= vals.Keys
    ensures g.index == f.index && g.rows.Keys == f.rows.Keys
    ensures Elems(g.columns) == Elems(f.columns) + {c}
    ensures c in f.columns ==> g.columns == f.columns
    ensures c !in f.columns ==> g.columns == f.columns + [c]
    ensures forall t :: t in g.rows ==>
              g.rows[t].Keys == f.rows[t].Keys + {c} && g.rows[t][c] == vals[t]
    ensures forall t, c' :: t in g.rows && c' in f.rows[t] && c' != c ==> g.rows[t][c'] == f.rows[t][c']
  {
    var cols := if c in f.columns then f.columns else f.columns + [c];
    var rows := map t | t in f.rows :: f.rows[t][c := vals[t]];
    assert Elems(cols) == Elems(f.columns) + {c};
    assert forall t :: t in rows ==> rows[t] == f.rows[t][c := vals[t]];
    Frame(cols, f.index, rows)
  }

  /** Setting a column keeps a frame rectangular, its index and its column names unique. */
  lemma WithColumnWellFormed(f: Frame, c: ColName, vals: map<Ticker, Cell>)
    requires f.rows.Keys <= vals.Keys
    requires WellFormed(f)
    ensures WellFormed(WithColumn(f, c, vals))
  {
    if c !in f.columns { DistinctSnoc(f.columns, c); }
  }

  /** `df[cols]` for columns that all exist: the same rows, keeping only `cols`. */
  function Project(f: Frame, cols: seq<ColName>): (g: Frame)
    requires Elems(cols) <= Elems(f.columns)
    ensures g.columns == cols && g.index == f.index && g.rows.Keys == f.rows.Keys
    ensures forall t, c :: t in g.rows && c in cols && c in f.rows[t] ==> c in g.rows[t] && g.rows[t][c] == f.rows[t][c]
    ensures forall t, c :: t in g.rows && c in g.rows[t] ==> c in cols
    ensures WellFormed(f) && Distinct(cols) ==> WellFormed(g)
  {
    Frame(cols, f.index, map t | t in f.rows :: Restrict(f.rows[t], Elems(cols)))
  }

  /**
   * `left.join(right, how='inner')` on the index: the ids present on both sides, in the
   * order of `left`, each row the union of its two halves. pandas raises when the two
   * frames share a column name and no suffix is given.
   */
  function Join(l: Frame, r: Frame): (res: Result<Frame, Error>)
    ensures res.Success? <==> Elems(l.columns) !! Elems(r.columns)
    ensures res.Failure? ==> res.error == ColumnsOverlap
    ensures res.Success? ==> res.value.rows.Keys == l.rows.Keys * r.rows.Keys
    ensures res.Success? ==> res.value.columns == l.columns + r.columns
    ensures res.Success? ==> IsSubsequence(res.value.index, l.index)
    ensures res.Success? ==> forall t :: t in res.value.index <==> t in l.index && t in r.rows
    ensures res.Success? ==> forall t :: t in res.value.rows ==> res.value.rows[t].Keys == l.rows[t].Keys + r.rows[t].Keys
    ensures res.Success? ==> forall t, c :: t in res.value.rows && c in l.rows[t] && c !in r.rows[t] ==> res.value.rows[t][c] == l.rows[t][c]
    ensures res.Success? ==> forall t, c :: t in res.value.rows && c in r.rows[t] ==> res.value.rows[t][c] == r.rows[t][c]
    ensures res.Success? && WellFormed(l) && WellFormed(r) ==> WellFormed(res.value)
  {
    if Elems(l.columns) !! Elems(r.columns) then
      JoinedCells(l, r);
      assert WellFormed(l) && WellFormed(r) ==> WellFormed(JoinedFrame(l, r)) by {
        if WellFormed(l) && WellFormed(r) { JoinedWellFormed(l, r); }
      }
      Success(JoinedFrame(l, r))
    else
      Failure(ColumnsOverlap)
  }

  function JoinedFrame(l: Frame, r: Frame): Frame {
    Frame(l.columns + r.columns, Filter(l.index, r.rows.Keys),
          map t | t in l.rows && t in r.rows :: l.rows[t] + r.rows[t])
  }

  lemma JoinedCells(l: Frame, r: Frame)
    requires Elems(l.columns) !! Elems(r.columns)
    ensures var g := JoinedFrame(l, r);
      && (forall t, c :: t in g.rows && c in r.rows[t] ==> g.rows[t][c] == r.rows[t][c])
      && (forall t, c :: t in g.rows && c in l.rows[t] && c !in r.rows[t] ==> g.rows[t][c] == l.rows[t][c])
  {
  }

  lemma JoinedWellFormed(l: Frame, r: Frame)
    requires Elems(l.columns) !! Elems(r.columns)
    requires WellFormed(l) && WellFormed(r)
    ensures WellFormed(JoinedFrame(l, r))
  {
    var g := JoinedFrame(l, r);
    var cols := l.columns + r.columns;
    forall i, j | 0 <= i < j < |cols| ensures cols[i] != cols[j] {
      if i < |l.columns| <= j {
        assert cols[i] in Elems(l.columns) && cols[j] in Elems(r.columns);
      }
    }
    forall t | t in g.rows ensures g.rows[t].Keys == Elems(cols) {
      assert forall c :: c in Elems(cols) <==> c in Elems(l.columns) || c in Elems(r.columns);
    }
  }

  /** Every key that `key` gives is non-increasing along `s`. */
  predicate SortedDesc(s: seq<Ticker>, key: Ticker -> real) {
    forall i, j :: 0 <= i < j < |s| ==> key(s[i]) >= key(s[j])
  }

  function InsertDesc(x: Ticker, s: seq<Ticker>, key: Ticker -> real): (r: seq<Ticker>)
    requires SortedDesc(s, key)
    ensures multiset(r) == multiset(s) + multiset{x}
    ensures SortedDesc(r, key)
  {
    if s == [] then [x]
    else if key(x) >= key(s[0]) then [x] + s
    else
      var rest := InsertDesc(x, s[1..], key);
      assert s == [s[0]] + s[1..];
      InsertDescStep(x, s, key, rest);
      [s[0]] + rest
  }

  /** Putting the head back in front of the sorted tail with `x` inserted keeps the order. */
  lemma InsertDescStep(x: Ticker, s: seq<Ticker>, key: Ticker -> real, rest: seq<Ticker>)
    requires s != [] && SortedDesc(s, key) && key(x) < key(s[0])
    requires multiset(rest) == multiset(s[1..]) + multiset{x} && SortedDesc(rest, key)
    ensures SortedDesc([s[0]] + rest, key)
  {
    forall y | y in rest ensures key(s[0]) >= key(y) {
      assert y in multiset(rest);
      if y != x {
        assert y in multiset(s[1..]);
        var k :| 0 <= k < |s[1..]| && s[1..][k] == y;
        assert s[k + 1] == y;
      }
    }
    var r := [s[0]] + rest;
    assert forall j :: 1 <= j < |r| ==> r[j] == rest[j - 1];
  }

  /** A projected row of a well-formed frame holds exactly the projected columns, with the row's cells. */
  lemma ProjectRow(f: Frame, cols: seq<ColName>, t: Ticker)
    requires WellFormed(f) && Elems(cols) <= Elems(f.columns) && t in f.rows
    ensures t in Project(f, cols).rows
    ensures Project(f, cols).rows[t].Keys == Elems(cols)
    ensures forall c :: c in cols ==> Project(f, cols).rows[t][c] == f.rows[t][c]
  {
    assert f.rows[t].Keys == Elems(f.columns);
  }

  /** An insertion sort by a numeric key, largest first. */
  function SortIndexDesc(s: seq<Ticker>, key: Ticker -> real): (r: seq<Ticker>)
    ensures multiset(r) == multiset(s) && |r| == |s|
    ensures SortedDesc(r, key)
  {
    if s == [] then []
    else
      assert s == [s[0]] + s[1..];
      InsertDesc(s[0], SortIndexDesc(s[1..], key), key)
  }

  /** The number in column `col` of row `t`, 0 where there is none. */
  function NumAt(f: Frame, t: Ticker, col: ColName): real {
    if t in f.rows && HasNum(f.rows[t], col) then f.rows[t][col].x else 0.0
  }

  /** A multiset holds each element of a sequence without duplicates at most once. */
  lemma {:induction false} DistinctCounts(s: seq<Ticker>, x: Ticker)
    requires Distinct(s)
    ensures multiset(s)[x] <= 1
  {
    if s != [] {
      assert s == [s[0]] + s[1..];
      assert Distinct(s[1..]) by {
        forall i, j | 0 <= i < j < |s[1..]| ensures s[1..][i] != s[1..][j] {
          assert s[1..][i] == s[i + 1] && s[1..][j] == s[j + 1];
        }
      }
      DistinctCounts(s[1..], x);
      if x == s[0] {
        assert x !in s[1..] by {
          forall k | 0 <= k < |s[1..]| ensures s[1..][k] != x {
            assert s[1..][k] == s[k + 1];
          }
        }
      }
    }
  }

  /** A permutation of a sequence without duplicates has none either. */
  lemma PermutationDistinct(a: seq<Ticker>, b: seq<Ticker>)
    requires Distinct(a) && multiset(a) == multiset(b)
    ensures Distinct(b)
  {
    forall i, j | 0 <= i < j < |b| ensures b[i] != b[j] {
      if b[i] == b[j] {
        var x := b[i];
        assert b == b[..i] + [x] + b[i + 1..j] + [x] + b[j + 1..];
        assert multiset(b)[x] >= 2;
        DistinctCounts(a, x);
        assert false;
      }
    }
  }

  /** `df.sort_values(by=col, ascending=False)`; which of two equal rows comes first is unspecified. */
  function SortDesc(f: Frame, col: ColName): (g: Frame)
    ensures g.columns == f.columns && g.rows == f.rows
    ensures multiset(g.index) == multiset(f.index) && |g.index| == |f.index|
    ensures SortedDesc(g.index, t => NumAt(f, t, col))
  {
    Frame(f.columns, SortIndexDesc(f.index, t => NumAt(f, t, col)), f.rows)
  }

  /** Sorting keeps a frame well formed: the sorted index is still free of duplicates and names every row. */
  lemma SortDescWellFormed(f: Frame, col: ColName)
    requires WellFormed(f)
    ensures WellFormed(SortDesc(f, col))
  {
    var index := SortDesc(f, col).index;
    PermutationDistinct(f.index, index);
    assert forall t :: t in index <==> t in multiset(index);
    assert forall t :: t in f.index <==> t in multiset(f.index);
  }

  /** The sorted frame's own column is non-increasing down its index. */
  lemma SortDescOrdered(f: Frame, col: ColName)
    ensures var g := SortDesc(f, col);
            forall i, j :: 0 <= i < j < |g.index| ==> NumAt(g, g.index[i], col) >= NumAt(g, g.index[j], col)
  {
    var g := SortDesc(f, col);
    forall i, j | 0 <= i < j < |g.index|
      ensures NumAt(g, g.index[i], col) >= NumAt(g, g.index[j], col)
    {
      assert NumAt(g, g.index[i], col) == NumAt(f, g.index[i], col);
      assert NumAt(g, g.index[j], col) == NumAt(f, g.index[j], col);
    }
  }

  /** `df.head(n)`: the first `n` rows in index order. */
  function Head(f: Frame, n: nat): (g: Frame)
    ensures g.columns == f.columns
    ensures g.index == f.index[..Min(n, |f.index|)]
    ensures forall t :: t in g.rows ==> t in f.rows && g.rows[t] == f.rows[t]
    ensures g.rows.Keys == f.rows.Keys * Elems(g.index)
  {
    var k := Min(n, |f.index|);
    Frame(f.columns, f.index[..k], map t | t in f.rows && t in f.index[..k] :: f.rows[t])
  }

  /** `df.to_dict('records')`: one dictionary per row, in index order, without the index. */
  function Records(f: Frame): (recs: seq<Row>)
    ensures |recs| == |f.index|
    ensures forall i :: 0 <= i < |f.index| && f.index[i] in f.rows ==> recs[i] == f.rows[f.index[i]]
  {
    seq(|f.index|, i requires 0 <= i < |f.index| =>
      if f.index[i] in f.rows then f.rows[f.index[i]] else map[])
  }
}
