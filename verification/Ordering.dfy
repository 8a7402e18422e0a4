/** The order of strings by code point, and ascending listings of finite sets of them. */
module Ordering {

  predicate LessEq(a: string, b: string) {
    a == [] || (b != [] && (a[0] < b[0] || (a[0] == b[0] && LessEq(a[1..], b[1..]))))
  }

  /** The strings differ first at k. */
  predicate FirstDifference(a: string, b: string, k: int) { 0 <= k < |a| && k < |b| && a[..k] == b[..k] && a[k] != b[k] }

  /** A string sorts before its extensions, and otherwise by the first character that differs. */
  lemma {:induction false} LessEqMeans(a: string, b: string)
    ensures LessEq(a, b) <==> a <= b || exists k :: FirstDifference(a, b, k) && a[k] < b[k]
  {
    if a != [] && b != [] && a[0] == b[0] {
      LessEqMeans(a[1..], b[1..]);
      assert a == [a[0]] + a[1..] && b == [b[0]] + b[1..];
      if k :| FirstDifference(a[1..], b[1..], k) && a[1..][k] < b[1..][k] {
        assert a[..k + 1] == [a[0]] + a[1..][..k] && b[..k + 1] == [b[0]] + b[1..][..k];
        assert FirstDifference(a, b, k + 1);
      }
      if k :| FirstDifference(a, b, k) && a[k] < b[k] {
        assert k > 0 && a[1..][..k - 1] == a[..k][1..] && b[1..][..k - 1] == b[..k][1..];
        assert FirstDifference(a[1..], b[1..], k - 1);
      }
    } else if a != [] && b != [] {
      assert a[..0] == b[..0];
      assert FirstDifference(a, b, 0);
      if k :| FirstDifference(a, b, k) && a[k] < b[k] {
        assert k > 0 ==> a[..k][0] == b[..k][0];
      }
    }
  }

  lemma {:induction false} LessEqTotal(a: string, b: string)
    ensures LessEq(a, b) || LessEq(b, a)
  {
    if a != [] && b != [] && a[0] == b[0] { LessEqTotal(a[1..], b[1..]); }
  }

  lemma {:induction false} LessEqAntisymmetric(a: string, b: string)
    requires LessEq(a, b) && LessEq(b, a)
    ensures a == b
  {
    if a != [] {
      LessEqAntisymmetric(a[1..], b[1..]);
      assert a == [a[0]] + a[1..] && b == [b[0]] + b[1..];
    }
  }

  lemma {:induction false} LessEqTransitive(a: string, b: string, c: string)
    requires LessEq(a, b) && LessEq(b, c)
    ensures LessEq(a, c)
  {
    if a != [] && a[0] == b[0] && b[0] == c[0] { LessEqTransitive(a[1..], b[1..], c[1..]); }
  }

  ghost predicate IsLeast(x: string, s: set<string>) {
    x in s && forall y :: y in s ==> LessEq(x, y)
  }

  lemma {:induction false} LeastExists(s: set<string>)
    requires s != {}
    ensures exists x :: IsLeast(x, s)
  {
    var x :| x in s;
    if s != {x} {
      var rest := s - {x};
      assert rest != {};
      LeastExists(rest);
      var y :| IsLeast(y, rest);
      LessEqTotal(x, y);
      LessEqTotal(x, x);
      forall z | z in s
        ensures LessEq(if LessEq(x, y) then x else y, z)
      {
        if LessEq(x, y) && z != x { LessEqTransitive(x, y, z); }
      }
      assert IsLeast(if LessEq(x, y) then x else y, s);
    } else {
      LessEqTotal(x, x);
      assert IsLeast(x, s);
    }
  }

  /** The members of a set in ascending order, once each. */
  ghost function Ascending(s: set<string>): seq<string> {
    if s == {} then []
    else
      LeastExists(s);
      var x :| IsLeast(x, s);
      [x] + Ascending(s - {x})
  }

  lemma {:induction false} AscendingLists(s: set<string>)
    ensures forall x :: x in Ascending(s) <==> x in s
    ensures |Ascending(s)| == |s|
    ensures forall i, j :: 0 <= i < j < |Ascending(s)| ==> Ascending(s)[i] != Ascending(s)[j]
  {
    if s != {} {
      var x := Ascending(s)[0];
      AscendingLists(s - {x});
      assert Ascending(s) == [x] + Ascending(s - {x});
    }
  }

  lemma {:induction false} AscendingIsOrdered(s: set<string>)
    ensures forall i, j :: 0 <= i < j < |Ascending(s)| ==> LessEq(Ascending(s)[i], Ascending(s)[j])
  {
    if s != {} {
      var x := Ascending(s)[0];
      var rest := Ascending(s - {x});
      AscendingLists(s - {x});
      AscendingIsOrdered(s - {x});
      assert Ascending(s) == [x] + rest;
      forall j | 0 < j < |Ascending(s)|
        ensures LessEq(x, Ascending(s)[j])
      {
        assert Ascending(s)[j] == rest[j - 1] && rest[j - 1] in rest;
      }
    }
  }

  /** `sorted` over a set or over the keys of a dictionary. */
  method SortIds(s: set<string>) returns (r: seq<string>)
    ensures r == Ascending(s)
  {
    r := [];
    var left := s;
    assert r + Ascending(left) == Ascending(s);
    while left != {}
      invariant r + Ascending(left) == Ascending(s)
      decreases |left|
    {
      var x :| x in left;
      var rest := left - {x};
      LessEqTotal(x, x);
      while rest != {}
        invariant rest <= left && x in left
        invariant forall y :: y in left && y !in rest ==> LessEq(x, y)
        decreases |rest|
      {
        var y :| y in rest;
        rest := rest - {y};
        LessEqTotal(x, y);
        if !LessEq(x, y) {
          forall z | z in left && z !in rest
            ensures LessEq(y, z)
          {
            LessEqTotal(y, y);
            if z != y { LessEqTransitive(y, x, z); }
          }
          x := y;
        }
      }
      assert IsLeast(x, left);
      LessEqAntisymmetric(x, Ascending(left)[0]);
      assert r + Ascending(left) == r + [x] + Ascending(left - {x});
      r := r + [x];
      left := left - {x};
    }
  }
}
