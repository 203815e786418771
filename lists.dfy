/** List comprehensions: a filter, and a map whose first failure aborts. */
module Lists {
  import opened Wrappers

  /** `[x for x in xs if keep(x)]`. */
  function Filter<X>(keep: X -> bool, xs: seq<X>): (r: seq<X>)
    ensures |r| <= |xs|
  {
    if xs == [] then [] else (if keep(xs[0]) then [xs[0]] else []) + Filter(keep, xs[1..])
  }

  /** The filter keeps exactly the elements that pass. */
  lemma {:induction false} FilterMembers<X>(keep: X -> bool, xs: seq<X>, x: X)
    ensures x in Filter(keep, xs) <==> x in xs && keep(x)
  {
    if xs != [] {
      FilterMembers(keep, xs[1..], x);
      assert xs == [xs[0]] + xs[1..];
    }
  }

  /** The filter works piecewise, so the elements it keeps stay in their order. */
  lemma {:induction false} FilterConcat<X>(keep: X -> bool, a: seq<X>, b: seq<X>)
    ensures Filter(keep, a + b) == Filter(keep, a) + Filter(keep, b)
  {
    if a == [] {
      assert a + b == b;
    } else {
      var h := if keep(a[0]) then [a[0]] else [];
      assert (a + b)[0] == a[0];
      assert (a + b)[1..] == a[1..] + b;
      assert Filter(keep, a + b) == h + Filter(keep, a[1..] + b);
      FilterConcat(keep, a[1..], b);
      assert h + (Filter(keep, a[1..]) + Filter(keep, b)) == (h + Filter(keep, a[1..])) + Filter(keep, b);
    }
  }

  /** `[f(x) for x in xs]` for an `f` that may raise: the first failure aborts. */
  function MapAll<X, Y, E>(f: X -> Result<Y, E>, xs: seq<X>): Result<seq<Y>, E>
  {
    if xs == [] then Ok([])
    else match f(xs[0])
      case Err(e) => Err(e)
      case Ok(y) =>
        match MapAll(f, xs[1..])
        case Err(e) => Err(e)
        case Ok(ys) => Ok([y] + ys)
  }

  /** The map succeeds exactly when every element does, and then holds their values in order. */
  lemma {:induction false} MapAllPointwise<X, Y, E>(f: X -> Result<Y, E>, xs: seq<X>)
    ensures MapAll(f, xs).Ok? <==> forall i :: 0 <= i < |xs| ==> f(xs[i]).Ok?
    ensures MapAll(f, xs).Ok? ==> |MapAll(f, xs).value| == |xs|
    ensures MapAll(f, xs).Ok? ==> forall i :: 0 <= i < |xs| ==> f(xs[i]).value == MapAll(f, xs).value[i]
  {
    if xs != [] {
      MapAllPointwise(f, xs[1..]);
      assert forall i :: 1 <= i < |xs| ==> xs[i] == xs[1..][i - 1];
    }
  }

  /** A failing map fails with the error of the first element that fails. */
  lemma {:induction false} MapAllFirstError<X, Y, E>(f: X -> Result<Y, E>, xs: seq<X>) returns (i: nat)
    requires MapAll(f, xs).Err?
    ensures i < |xs| && f(xs[i]).Err? && f(xs[i]).error == MapAll(f, xs).error
    ensures forall j :: 0 <= j < i ==> f(xs[j]).Ok?
  {
    if f(xs[0]).Err? {
      i := 0;
    } else {
      var k := MapAllFirstError(f, xs[1..]);
      i := k + 1;
      assert xs[i] == xs[1..][k];
      assert forall j :: 1 <= j < i ==> xs[j] == xs[1..][j - 1];
    }
  }

  /** Mapping a concatenation: the first part's failure, else the second part's, else both results. */
  lemma {:induction false} MapAllConcat<X, Y, E>(f: X -> Result<Y, E>, a: seq<X>, b: seq<X>)
    ensures MapAll(f, a + b) ==
      if MapAll(f, a).Err? then MapAll(f, a)
      else if MapAll(f, b).Err? then MapAll(f, b)
      else Ok(MapAll(f, a).value + MapAll(f, b).value)
  {
    if a == [] {
      assert a + b == b;
      if MapAll(f, b).Ok? {
        assert [] + MapAll(f, b).value == MapAll(f, b).value;
      }
    } else {
      assert (a + b)[0] == a[0];
      assert (a + b)[1..] == a[1..] + b;
      MapAllConcat(f, a[1..], b);
      if f(a[0]).Ok? && MapAll(f, a[1..]).Ok? && MapAll(f, b).Ok? {
        var y, ys, zs := f(a[0]).value, MapAll(f, a[1..]).value, MapAll(f, b).value;
        assert MapAll(f, a) == Ok([y] + ys);
        assert MapAll(f, a + b) == Ok([y] + (ys + zs));
        assert [y] + (ys + zs) == [y] + ys + zs;
      }
    }
  }

  /** One more element at the end: kept or not. */
  lemma FilterSnoc<X>(keep: X -> bool, a: seq<X>, x: X)
    ensures Filter(keep, a + [x]) == if keep(x) then Filter(keep, a) + [x] else Filter(keep, a)
  {
    FilterConcat(keep, a, [x]);
    assert [x][1..] == [];
    if !keep(x) {
      assert Filter(keep, a) + [] == Filter(keep, a);
    }
  }

  /** One more element at the end: its value follows, or its failure aborts. */
  lemma MapAllSnoc<X, Y, E>(f: X -> Result<Y, E>, a: seq<X>, x: X)
    requires MapAll(f, a).Ok?
    ensures MapAll(f, a + [x]) == if f(x).Ok? then Ok(MapAll(f, a).value + [f(x).value]) else Err(f(x).error)
  {
    MapAllConcat(f, a, [x]);
    assert [x][1..] == [];
    if f(x).Ok? {
      assert MapAll(f, [x]) == Ok([f(x).value] + []);
      assert [f(x).value] + [] == [f(x).value];
    }
  }
}
