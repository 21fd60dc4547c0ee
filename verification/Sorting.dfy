/** Python's `sorted` of a set. */
module Sorting {

  ghost predicate TotalOrder<T(!new)>(leq: (T, T) -> bool) {
    && (forall x, y :: leq(x, y) || leq(y, x))
    && (forall x, y :: leq(x, y) && leq(y, x) ==> x == y)
    && (forall x, y, z :: leq(x, y) && leq(y, z) ==> leq(x, z))
  }

  ghost predicate LeastOf<T(!new)>(s: set<T>, leq: (T, T) -> bool, x: T) {
    x in s && forall y | y in s :: leq(x, y)
  }

  /** Another element next to the least of the others. */
  lemma LeastOfTwo<T(!new)>(s: set<T>, leq: (T, T) -> bool, x: T, m: T)
    requires TotalOrder(leq) && x in s && LeastOf(s - {x}, leq, m)
    ensures LeastOf(s, leq, if leq(x, m) then x else m)
  {
    var best := if leq(x, m) then x else m;
    assert leq(x, x) && leq(m, m);
    forall y | y in s ensures leq(best, y) {
      if y != x {
        assert y in s - {x};
        assert leq(m, y);
        assert leq(best, m);
      }
    }
  }

  lemma {:induction false} HasLeast<T(!new)>(s: set<T>, leq: (T, T) -> bool)
    requires TotalOrder(leq) && s != {}
    ensures exists x :: LeastOf(s, leq, x)
    decreases |s|
  {
    var x :| x in s;
    if s - {x} == {} {
      assert forall y | y in s :: y == x || y in s - {x};
      assert LeastOf(s, leq, x);
    } else {
      HasLeast(s - {x}, leq);
      var m :| LeastOf(s - {x}, leq, m);
      LeastOfTwo(s, leq, x, m);
    }
  }

  function Least<T(!new)>(s: set<T>, leq: (T, T) -> bool): (x: T)
    requires TotalOrder(leq) && s != {}
    ensures x in s && forall y | y in s :: leq(x, y)
  {
    HasLeast(s, leq);
    assert exists x :: x in s && forall y | y in s :: leq(x, y) by {
      var x :| LeastOf(s, leq, x);
    }
    var x :| x in s && forall y | y in s :: leq(x, y);
    x
  }

  /** The elements in ascending order, each once. */
  function Sorted<T(!new)>(s: set<T>, leq: (T, T) -> bool): (r: seq<T>)
    requires TotalOrder(leq)
    ensures forall x :: x in r <==> x in s
    ensures forall i, j | 0 <= i < j < |r| :: leq(r[i], r[j]) && r[i] != r[j]
    decreases |s|
  {
    if s == {} then []
    else
      var x := Least(s, leq);
      [x] + Sorted(s - {x}, leq)
  }

  predicate AtMost(x: nat, y: nat) {
    x <= y
  }

  /** Strings compare by code point, a proper prefix first. */
  predicate NotAfter(a: string, b: string) {
    a == "" || (b != "" && (a[0] < b[0] || (a[0] == b[0] && NotAfter(a[1..], b[1..]))))
  }

  lemma {:induction false} NotAfterTotal(a: string, b: string)
    ensures NotAfter(a, b) || NotAfter(b, a)
    ensures NotAfter(a, b) && NotAfter(b, a) ==> a == b
  {
    if a != "" && b != "" && a[0] == b[0] {
      NotAfterTotal(a[1..], b[1..]);
      assert a == [a[0]] + a[1..] && b == [b[0]] + b[1..];
    }
  }

  lemma {:induction false} NotAfterTransitive(a: string, b: string, c: string)
    requires NotAfter(a, b) && NotAfter(b, c)
    ensures NotAfter(a, c)
  {
    if a != "" && a[0] == b[0] && b[0] == c[0] {
      NotAfterTransitive(a[1..], b[1..], c[1..]);
    }
  }

  lemma Orders()
    ensures TotalOrder(AtMost) && TotalOrder(NotAfter)
  {
    forall a, b ensures NotAfter(a, b) || NotAfter(b, a) {
      NotAfterTotal(a, b);
    }
    forall a, b | NotAfter(a, b) && NotAfter(b, a) ensures a == b {
      NotAfterTotal(a, b);
    }
    forall a, b, c | NotAfter(a, b) && NotAfter(b, c) ensures NotAfter(a, c) {
      NotAfterTransitive(a, b, c);
    }
  }

  function SortedNats(s: set<nat>): (r: seq<nat>)
    ensures forall x :: x in r <==> x in s
  {
    Orders();
    Sorted(s, AtMost)
  }

  function SortedStrings(s: set<string>): (r: seq<string>)
    ensures forall x :: x in r <==> x in s
  {
    Orders();
    Sorted(s, NotAfter)
  }
}
