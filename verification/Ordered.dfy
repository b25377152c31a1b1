/** The order in which std::set and std::map are walked: ascending keys. */
module Ordered {

  ghost predicate IsMin(s: set<int>, m: int) {
    m in s && forall x :: x in s ==> m <= x
  }

  lemma AnyOf<T>(s: set<T>) returns (x: T)
    requires s != {}
    ensures x in s
  {
    x :| x in s;
  }

  lemma {:induction false} MinExists(s: set<int>) returns (m: int)
    requires s != {}
    ensures IsMin(s, m)
    decreases |s|
  {
    m := AnyOf(s);
    var rest := s - {m};
    if rest != {} {
      var r := MinExists(rest);
      if r < m { m := r; }
    }
    assert forall x :: x in s ==> x in rest || m <= x;
  }

  ghost function Min(s: set<int>): (m: int)
    requires s != {}
    ensures IsMin(s, m)
  {
    var w: int :| (exists m :: IsMin(s, m)) ==> IsMin(s, w);
    assert IsMin(s, w) by { var m := MinExists(s); }
    w
  }

  /** The elements of a std::set<int> in iteration order. */
  ghost function Ascending(s: set<int>): seq<int>
    decreases |s|
  {
    if s == {} then [] else
      var m := Min(s);
      [m] + Ascending(s - {m})
  }

  /** Lexicographic order by byte, as std::string compares. */
  predicate StringLeq(a: string, b: string) {
    a == "" || (b != "" && (a[0] < b[0] || (a[0] == b[0] && StringLeq(a[1..], b[1..]))))
  }

  lemma {:induction false} StringLeqTotal(a: string, b: string)
    ensures StringLeq(a, b) || StringLeq(b, a)
  {
    if a != "" && b != "" && a[0] == b[0] { StringLeqTotal(a[1..], b[1..]); }
  }

  lemma {:induction false} StringLeqTransitive(a: string, b: string, c: string)
    requires StringLeq(a, b) && StringLeq(b, c)
    ensures StringLeq(a, c)
  {
    if a != "" && a[0] == b[0] == c[0] { StringLeqTransitive(a[1..], b[1..], c[1..]); }
  }

  ghost predicate IsLeast(s: set<string>, m: string) {
    m in s && forall x :: x in s ==> StringLeq(m, x)
  }

  lemma LeastBelow(s: set<string>, m: string, x: string)
    requires IsLeast(s, m) && x in s
    ensures StringLeq(m, x)
  {
  }

  /** The smaller of an element and the least of the others. */
  lemma LeastOfTwo(m: string, rest: set<string>, r: string, least: string, x: string)
    requires IsLeast(rest, r) && least == (if StringLeq(m, r) then m else r) && (x == m || x in rest)
    ensures StringLeq(least, x)
  {
    StringLeqTotal(m, m);
    StringLeqTotal(m, r);
    if x != m {
      LeastBelow(rest, r, x);
      if least == m { StringLeqTransitive(m, r, x); }
    }
  }

  lemma {:induction false} LeastExists(s: set<string>) returns (m: string)
    requires s != {}
    ensures IsLeast(s, m)
    decreases |s|
  {
    m := AnyOf(s);
    if s == {m} {
      StringLeqTotal(m, m);
    } else {
      var first, rest := m, s - {m};
      var r := LeastExists(rest);
      m := if StringLeq(first, r) then first else r;
      forall x | x in s ensures StringLeq(m, x) { LeastOfTwo(first, rest, r, m, x); }
    }
  }

  ghost function Least(s: set<string>): (m: string)
    requires s != {}
    ensures IsLeast(s, m)
  {
    var w: string :| (exists m :: IsLeast(s, m)) ==> IsLeast(s, w);
    assert IsLeast(s, w) by { var m := LeastExists(s); }
    w
  }

  /** The elements of a std::set<std::string> in iteration order. */
  ghost function AscendingNames(s: set<string>): seq<string>
    decreases |s|
  {
    if s == {} then [] else
      var m := Least(s);
      [m] + AscendingNames(s - {m})
  }

  /** Iteration visits every element, and each once. */
  lemma {:induction false} AscendingEnumerates(s: set<int>)
    ensures forall x :: x in Ascending(s) <==> x in s
    ensures forall i, j :: 0 <= i < j < |Ascending(s)| ==> Ascending(s)[i] < Ascending(s)[j]
    decreases |s|
  {
    if s != {} {
      var m := Min(s);
      var rest := Ascending(s - {m});
      AscendingEnumerates(s - {m});
      assert Ascending(s) == [m] + rest;
      forall i, j | 0 <= i < j < |[m] + rest| ensures ([m] + rest)[i] < ([m] + rest)[j] {
        assert rest[j - 1] in rest;
      }
      assert forall x :: x in [m] + rest <==> x == m || x in rest;
    }
  }

  lemma {:induction false} AscendingNamesEnumerates(s: set<string>)
    ensures forall x :: x in AscendingNames(s) <==> x in s
    ensures forall i, j :: 0 <= i < j < |AscendingNames(s)| ==> AscendingNames(s)[i] != AscendingNames(s)[j]
    decreases |s|
  {
    if s != {} {
      var m := Least(s);
      var rest := AscendingNames(s - {m});
      AscendingNamesEnumerates(s - {m});
      assert AscendingNames(s) == [m] + rest;
      forall i, j | 0 <= i < j < |[m] + rest| ensures ([m] + rest)[i] != ([m] + rest)[j] {
        assert rest[j - 1] in rest;
      }
      assert forall x :: x in [m] + rest <==> x == m || x in rest;
    }
  }

  /** Walking a set in ascending order, one element further. */
  lemma AscendingNext(done: seq<int>, rest: set<int>, all: set<int>, fd: int)
    requires Ascending(all) == done + Ascending(rest) && IsMin(rest, fd)
    ensures Ascending(all) == done + [fd] + Ascending(rest - {fd})
  {
    assert Min(rest) == fd;
  }
}
