/**
  The final ordering of the report rows: `list.sort` with the key
  `(row[2], row[9 + n])`, under Python 3. The sort computes every key first,
  and is stable. Two keys compare component by component: equal application
  ids fall through to the second cells, and those must then be of one type
  (numbers by value, texts by code point, None only equal to None), or the
  comparison raises TypeError.
 */
module Sorting {
  import opened Wrappers
  import opened Records

  /** Lexicographic order on texts, by code point. */
  predicate StrLe(s: string, t: string) {
    s == [] || (t != [] && (s[0] < t[0] || (s[0] == t[0] && StrLe(s[1..], t[1..]))))
  }

  lemma {:induction false} StrLeTotal(s: string, t: string)
    ensures StrLe(s, t) || StrLe(t, s)
  {
    if s != [] && t != [] && s[0] == t[0] {
      StrLeTotal(s[1..], t[1..]);
    }
  }

  lemma {:induction false} StrLeTransitive(s: string, t: string, u: string)
    requires StrLe(s, t) && StrLe(t, u)
    ensures StrLe(s, u)
  {
    if s != [] && s[0] == t[0] && t[0] == u[0] {
      StrLeTransitive(s[1..], t[1..], u[1..]);
    }
  }

  lemma {:induction false} StrLeAntisymmetric(s: string, t: string)
    requires StrLe(s, t) && StrLe(t, s)
    ensures s == t
  {
    if s != [] {
      StrLeAntisymmetric(s[1..], t[1..]);
      assert s == [s[0]] + s[1..] && t == [t[0]] + t[1..];
    }
  }

  /**
    The type of a scalar. Cells of different types are incomparable; ordering
    the types here only makes the key order total, and a sort that succeeds
    never compares two cells of different types.
   */
  function Rank(c: Cell): nat {
    match c
    case Null => 0
    case Int(_) => 1
    case Str(_) => 2
  }

  /** `a <= b` on two scalars. */
  predicate CellLe(a: Cell, b: Cell) {
    if Rank(a) != Rank(b) then Rank(a) < Rank(b)
    else match a
      case Null => true
      case Int(i) => i <= b.i
      case Str(s) => StrLe(s, b.s)
  }

  lemma CellLeTotal(a: Cell, b: Cell)
    ensures CellLe(a, b) || CellLe(b, a)
  {
    if a.Str? && b.Str? {
      StrLeTotal(a.s, b.s);
    }
  }

  lemma CellLeTransitive(a: Cell, b: Cell, c: Cell)
    requires CellLe(a, b) && CellLe(b, c)
    ensures CellLe(a, c)
  {
    if a.Str? && b.Str? && c.Str? {
      StrLeTransitive(a.s, b.s, c.s);
    }
  }

  lemma CellLeAntisymmetric(a: Cell, b: Cell)
    requires CellLe(a, b) && CellLe(b, a)
    ensures a == b
  {
    if a.Str? && b.Str? {
      StrLeAntisymmetric(a.s, b.s);
    }
  }

  /** The sort key of a row: its application id and its column `9 + n`. */
  datatype Key = Key(appId: Cell, second: Cell)

  /** Tuple comparison: the first components decide unless they are equal. */
  predicate KeyLe(a: Key, b: Key) {
    (CellLe(a.appId, b.appId) && a.appId != b.appId) || (a.appId == b.appId && CellLe(a.second, b.second))
  }

  lemma KeyLeTotal(a: Key, b: Key)
    ensures KeyLe(a, b) || KeyLe(b, a)
  {
    CellLeTotal(a.appId, b.appId);
    CellLeTotal(a.second, b.second);
  }

  lemma KeyLeTransitive(a: Key, b: Key, c: Key)
    requires KeyLe(a, b) && KeyLe(b, c)
    ensures KeyLe(a, c)
  {
    if a.appId == b.appId && b.appId == c.appId {
      CellLeTransitive(a.second, b.second, c.second);
    } else if a.appId != b.appId && b.appId != c.appId {
      CellLeTransitive(a.appId, b.appId, c.appId);
      if a.appId == c.appId {
        CellLeAntisymmetric(a.appId, b.appId);
      }
    }
  }

  lemma KeyLeAntisymmetric(a: Key, b: Key)
    requires KeyLe(a, b) && KeyLe(b, a)
    ensures a == b
  {
    if a.appId != b.appId {
      CellLeAntisymmetric(a.appId, b.appId);
    } else {
      CellLeAntisymmetric(a.second, b.second);
    }
  }

  /** The column index of the secondary key: past the 9 application columns and `n` more. */
  function KeyColumn(n: nat): nat {
    9 + n
  }

  /** The key of a row that is long enough to have one. */
  function RowKey(row: Row, n: nat): Key
    requires |row| > KeyColumn(n)
  {
    Key(row[2], row[KeyColumn(n)])
  }

  predicate HasKey(row: Row, n: nat) {
    |row| > KeyColumn(n)
  }

  predicate AllHaveKeys(rows: seq<Row>, n: nat) {
    forall i :: 0 <= i < |rows| ==> HasKey(rows[i], n)
  }

  predicate Sorted(rows: seq<Row>, n: nat)
    requires AllHaveKeys(rows, n)
  {
    forall i, j :: 0 <= i < j < |rows| ==> KeyLe(RowKey(rows[i], n), RowKey(rows[j], n))
  }

  /** The rows whose key is `k`, in their order. */
  function WithKey(rows: seq<Row>, n: nat, k: Key): (r: seq<Row>)
    requires AllHaveKeys(rows, n)
    ensures forall i :: 0 <= i < |r| ==> HasKey(r[i], n) && RowKey(r[i], n) == k
  {
    if rows == [] then []
    else (if RowKey(rows[0], n) == k then [rows[0]] else []) + WithKey(rows[1..], n, k)
  }

  /** Places `x` before the first row of `t` whose key is not below its own. */
  function Insert(x: Row, t: seq<Row>, n: nat): (r: seq<Row>)
    requires HasKey(x, n) && AllHaveKeys(t, n)
    ensures |r| == |t| + 1 && AllHaveKeys(r, n)
    ensures multiset(r) == multiset(t) + multiset{x}
  {
    if t == [] || KeyLe(RowKey(x, n), RowKey(t[0], n)) then [x] + t
    else
      assert t == [t[0]] + t[1..];
      [t[0]] + Insert(x, t[1..], n)
  }

  /** The stable sort: every row goes before the rows that follow it in the input and have an equal key. */
  function Sort(rows: seq<Row>, n: nat): (r: seq<Row>)
    requires AllHaveKeys(rows, n)
    ensures |r| == |rows| && AllHaveKeys(r, n)
  {
    if rows == [] then [] else Insert(rows[0], Sort(rows[1..], n), n)
  }

  lemma {:induction false} InsertSorted(x: Row, t: seq<Row>, n: nat)
    requires HasKey(x, n) && AllHaveKeys(t, n) && Sorted(t, n)
    ensures Sorted(Insert(x, t, n), n)
  {
    if t != [] && !KeyLe(RowKey(x, n), RowKey(t[0], n)) {
      InsertSorted(x, t[1..], n);
      KeyLeTotal(RowKey(x, n), RowKey(t[0], n));
      var r := Insert(x, t, n);
      assert r == [t[0]] + Insert(x, t[1..], n);
      forall j | 0 < j < |r|
        ensures KeyLe(RowKey(t[0], n), RowKey(r[j], n))
      {
        var rest := Insert(x, t[1..], n);
        assert r[j] == rest[j - 1];
        assert r[j] in multiset(rest);
        assert r[j] in multiset(t[1..]) || r[j] == x;
        if r[j] != x {
          var m :| 0 <= m < |t[1..]| && t[1..][m] == r[j];
          assert t[m + 1] == r[j];
        }
      }
    } else if t != [] {
      var r := Insert(x, t, n);
      forall i, j | 0 <= i < j < |r|
        ensures KeyLe(RowKey(r[i], n), RowKey(r[j], n))
      {
        if i == 0 && j > 1 {
          assert r[j] == t[j - 1];
          KeyLeTransitive(RowKey(x, n), RowKey(t[0], n), RowKey(r[j], n));
        }
      }
    }
  }

  /** The sorted rows are in key order. */
  lemma {:induction false} SortSorted(rows: seq<Row>, n: nat)
    requires AllHaveKeys(rows, n)
    ensures Sorted(Sort(rows, n), n)
  {
    if rows != [] {
      SortSorted(rows[1..], n);
      InsertSorted(rows[0], Sort(rows[1..], n), n);
    }
  }

  /** The sorted rows are the input rows, each as often as in the input. */
  lemma {:induction false} SortPermutes(rows: seq<Row>, n: nat)
    requires AllHaveKeys(rows, n)
    ensures multiset(Sort(rows, n)) == multiset(rows)
  {
    if rows != [] {
      SortPermutes(rows[1..], n);
      assert rows == [rows[0]] + rows[1..];
    }
  }

  lemma {:induction false} WithKeyConcat(a: seq<Row>, b: seq<Row>, n: nat, k: Key)
    requires AllHaveKeys(a, n) && AllHaveKeys(b, n)
    ensures AllHaveKeys(a + b, n)
    ensures WithKey(a + b, n, k) == WithKey(a, n, k) + WithKey(b, n, k)
  {
    assert AllHaveKeys(a + b, n) by {
      forall i | 0 <= i < |a + b|
        ensures HasKey((a + b)[i], n)
      {
        if i >= |a| {
          assert (a + b)[i] == b[i - |a|];
        }
      }
    }
    if a == [] {
      assert a + b == b;
    } else {
      assert (a + b)[0] == a[0];
      assert (a + b)[1..] == a[1..] + b;
      WithKeyConcat(a[1..], b, n, k);
    }
  }

  lemma WithKeyCons(y: Row, s: seq<Row>, n: nat, k: Key)
    requires HasKey(y, n) && AllHaveKeys(s, n)
    ensures AllHaveKeys([y] + s, n)
    ensures WithKey([y] + s, n, k) == (if RowKey(y, n) == k then [y] else []) + WithKey(s, n, k)
  {
    assert ([y] + s)[1..] == s;
  }

  lemma {:induction false} StrLeReflexive(s: string)
    ensures StrLe(s, s)
  {
    if s != [] {
      StrLeReflexive(s[1..]);
    }
  }

  lemma KeyLeReflexive(a: Key)
    ensures KeyLe(a, a)
  {
    if a.second.Str? {
      StrLeReflexive(a.second.s);
    }
  }

  lemma SortedTail(t: seq<Row>, n: nat)
    requires t != [] && AllHaveKeys(t, n) && Sorted(t, n)
    ensures AllHaveKeys(t[1..], n) && Sorted(t[1..], n)
  {
    forall i, j | 0 <= i < j < |t[1..]|
      ensures KeyLe(RowKey(t[1..][i], n), RowKey(t[1..][j], n))
    {
      assert t[1..][i] == t[i + 1] && t[1..][j] == t[j + 1];
    }
  }

  /** Inserting `x` puts it ahead of every row with its key. */
  lemma {:induction false} InsertWithKey(x: Row, t: seq<Row>, n: nat, k: Key)
    requires HasKey(x, n) && AllHaveKeys(t, n) && Sorted(t, n)
    ensures WithKey(Insert(x, t, n), n, k) == (if RowKey(x, n) == k then [x] else []) + WithKey(t, n, k)
  {
    if t == [] || KeyLe(RowKey(x, n), RowKey(t[0], n)) {
      WithKeyCons(x, t, n, k);
    } else {
      var rest := Insert(x, t[1..], n);
      SortedTail(t, n);
      InsertWithKey(x, t[1..], n, k);
      WithKeyCons(t[0], rest, n, k);
      assert t == [t[0]] + t[1..];
      WithKeyCons(t[0], t[1..], n, k);
      if RowKey(x, n) == k {
        // x's key is not below t[0]'s, so t[0] does not have x's key.
        KeyLeReflexive(RowKey(x, n));
        assert RowKey(t[0], n) != k;
      }
    }
  }

  /** Stability: the rows sharing any one key keep their input order. */
  lemma {:induction false} SortStable(rows: seq<Row>, n: nat, k: Key)
    requires AllHaveKeys(rows, n)
    ensures WithKey(Sort(rows, n), n, k) == WithKey(rows, n, k)
  {
    if rows != [] {
      SortStable(rows[1..], n, k);
      SortSorted(rows[1..], n);
      InsertWithKey(rows[0], Sort(rows[1..], n), n, k);
    }
  }

  /**
    Two rows of one application whose key cells are of different types. A
    comparison sort that finishes must compare some such pair (or rows between
    them, which would have to be comparable to both), so exactly then the sort
    raises TypeError.
   */
  predicate MixedKeys(rows: seq<Row>, n: nat)
    requires AllHaveKeys(rows, n)
  {
    exists i, j :: 0 <= i < |rows| && 0 <= j < |rows| &&
      RowKey(rows[i], n).appId == RowKey(rows[j], n).appId &&
      Rank(RowKey(rows[i], n).second) != Rank(RowKey(rows[j], n).second)
  }

  /**
    `all_findings.sort(key=...)`: an IndexError when some row has no column
    `9 + n`, since every key is computed before any comparison; else a
    TypeError when two rows of one application have key cells of different types.
   */
  function SortRows(rows: seq<Row>, n: nat): (r: Result<seq<Row>, Error>)
    ensures r.Ok? <==> AllHaveKeys(rows, n) && !MixedKeys(rows, n)
    ensures r == Err(SortKeyOutOfRange) <==> !AllHaveKeys(rows, n)
    ensures r == Err(IncomparableKeys) <==> AllHaveKeys(rows, n) && MixedKeys(rows, n)
    ensures r.Ok? ==> |r.value| == |rows|
  {
    if !AllHaveKeys(rows, n) then Err(SortKeyOutOfRange)
    else if MixedKeys(rows, n) then Err(IncomparableKeys)
    else Ok(Sort(rows, n))
  }

  /** A null key cell beside a text key cell of the same application: the sort raises TypeError. */
  lemma NullBesideText(first: Row, second: Row, n: nat)
    requires HasKey(first, n) && HasKey(second, n) && first[2] == second[2]
    requires first[KeyColumn(n)] == Null && second[KeyColumn(n)].Str?
    ensures SortRows([first, second], n) == Err(IncomparableKeys)
  {
    var rows := [first, second];
    assert RowKey(rows[0], n).appId == RowKey(rows[1], n).appId;
    assert Rank(RowKey(rows[0], n).second) != Rank(RowKey(rows[1], n).second);
  }

  /** `out` is `rows` in key order, the same rows as often, and rows with equal keys in their input order. */
  ghost predicate StablySorted(out: seq<Row>, rows: seq<Row>, n: nat) {
    AllHaveKeys(rows, n) && AllHaveKeys(out, n) && Sorted(out, n) &&
    multiset(out) == multiset(rows) &&
    forall k :: WithKey(out, n, k) == WithKey(rows, n, k)
  }

  lemma SortRowsCorrect(rows: seq<Row>, n: nat)
    requires AllHaveKeys(rows, n) && !MixedKeys(rows, n)
    ensures SortRows(rows, n).Ok? && StablySorted(SortRows(rows, n).value, rows, n)
  {
    SortSorted(rows, n);
    SortPermutes(rows, n);
    forall k
      ensures WithKey(Sort(rows, n), n, k) == WithKey(rows, n, k)
    {
      SortStable(rows, n, k);
    }
  }
}
