/** ORDER BY: the one strictly sorted sequence of a finite set. */
module Ordering {

  predicate StrLess(a: string, b: string) {
    if b == "" then false
    else if a == "" then true
    else if a[0] != b[0] then a[0] < b[0]
    else StrLess(a[1..], b[1..])
  }

  lemma {:induction false} StrLessTotal(a: string, b: string)
    ensures StrLess(a, b) || StrLess(b, a) || a == b
    ensures !(StrLess(a, b) && StrLess(b, a))
    ensures a == b ==> !StrLess(a, b)
  {
    if a != "" && b != "" && a[0] == b[0] {
      StrLessTotal(a[1..], b[1..]);
      assert a == [a[0]] + a[1..] && b == [b[0]] + b[1..];
    }
  }

  lemma {:induction false} StrLessTransitive(a: string, b: string, c: string)
    requires StrLess(a, b) && StrLess(b, c)
    ensures StrLess(a, c)
  {
    if a != "" && a[0] == b[0] == c[0] {
      StrLessTransitive(a[1..], b[1..], c[1..]);
    }
  }

  /** `less` orders the elements of `s` strictly and totally. */
  ghost predicate Orders<T(!new)>(less: (T, T) -> bool, s: set<T>) {
    && (forall x :: x in s ==> !less(x, x))
    && (forall x, y :: x in s && y in s && x != y ==> less(x, y) || less(y, x))
    && (forall x, y, z :: x in s && y in s && z in s && less(x, y) && less(y, z) ==> less(x, z))
  }

  ghost predicate Least<T(!new)>(less: (T, T) -> bool, s: set<T>, x: T) {
    x in s && forall y :: y in s && y != x ==> less(x, y)
  }

  ghost predicate Sorted<T(!new)>(less: (T, T) -> bool, q: seq<T>) {
    forall i, j :: 0 <= i < j < |q| ==> less(q[i], q[j])
  }

  lemma {:induction false} LeastExists<T(!new)>(less: (T, T) -> bool, s: set<T>)
    requires Orders(less, s) && s != {}
    ensures exists x :: Least(less, s, x)
    decreases |s|
  {
    var e :| e in s;
    if s == {e} {
      assert Least(less, s, e);
    } else {
      var rest := s - {e};
      LeastExists(less, rest);
      var m :| Least(less, rest, m);
      assert Least(less, s, if less(e, m) then e else m);
    }
  }

  ghost function Ordered<T(!new)>(less: (T, T) -> bool, s: set<T>): seq<T>
    requires Orders(less, s)
    decreases |s|
  {
    if s == {} then []
    else
      LeastExists(less, s);
      var x :| Least(less, s, x);
      [x] + Ordered(less, s - {x})
  }

  lemma {:induction false} OrderedIsSorted<T(!new)>(less: (T, T) -> bool, s: set<T>)
    requires Orders(less, s)
    ensures Sorted(less, Ordered(less, s)) && |Ordered(less, s)| == |s|
    ensures forall x :: x in Ordered(less, s) <==> x in s
    decreases |s|
  {
    if s != {} {
      LeastExists(less, s);
      var x :| Least(less, s, x) && Ordered(less, s) == [x] + Ordered(less, s - {x});
      OrderedIsSorted(less, s - {x});
      var rest := Ordered(less, s - {x});
      forall j | 0 <= j < |rest| ensures less(x, rest[j]) {
        assert rest[j] in rest;
      }
    }
  }

  lemma FirstIsLeast<T(!new)>(less: (T, T) -> bool, p: seq<T>, s: set<T>)
    requires Sorted(less, p) && p != [] && forall x :: x in p <==> x in s
    ensures Least(less, s, p[0])
  {
    assert p[0] in p;
  }

  lemma LeastIsUnique<T(!new)>(less: (T, T) -> bool, s: set<T>, x: T, y: T)
    requires Orders(less, s) && Least(less, s, x) && Least(less, s, y)
    ensures x == y
  {
  }

  /** There is only one sorted sequence of given elements. */
  lemma {:induction false} SortedIsUnique<T(!new)>(less: (T, T) -> bool, p: seq<T>, q: seq<T>, s: set<T>)
    requires Orders(less, s) && Sorted(less, p) && Sorted(less, q)
    requires forall x :: x in p <==> x in s
    requires forall x :: x in q <==> x in s
    ensures p == q
    decreases |p|
  {
    if p != [] {
      assert p[0] in p && q != [];
      FirstIsLeast(less, p, s);
      FirstIsLeast(less, q, s);
      LeastIsUnique(less, s, p[0], q[0]);
      TailElements(less, p, s);
      TailElements(less, q, s);
      SortedIsUnique(less, p[1..], q[1..], s - {p[0]});
    } else if q != [] {
      FirstIsLeast(less, q, s);
    }
  }

  lemma NoRepeats<T(!new)>(less: (T, T) -> bool, p: seq<T>, s: set<T>, n: nat)
    requires Orders(less, s) && Sorted(less, p) && n <= |p| && forall x :: x in p <==> x in s
    ensures forall x :: x in p[n..] ==> x !in p[..n]
  {
    forall i, j | 0 <= j < n <= i < |p| ensures p[i] != p[j] {
      assert p[i] in p && less(p[j], p[i]);
    }
  }

  lemma TailElements<T(!new)>(less: (T, T) -> bool, p: seq<T>, s: set<T>)
    requires Orders(less, s) && Sorted(less, p) && p != [] && forall x :: x in p <==> x in s
    ensures forall x :: x in p[1..] <==> x in s - {p[0]}
  {
    NoRepeats(less, p, s, 1);
    assert p == p[..1] + p[1..] && p[..1] == [p[0]];
  }

  lemma DropElements<T(!new)>(less: (T, T) -> bool, q: seq<T>, s: set<T>, n: nat)
    requires Orders(less, s) && Sorted(less, q) && n <= |q| && forall x :: x in q <==> x in s
    ensures Sorted(less, q[n..]) && forall x :: x in q[n..] <==> x in s && x !in q[..n]
  {
    NoRepeats(less, q, s, n);
    assert q == q[..n] + q[n..];
  }

  /** Dropping the first `n` of a sorted set leaves the sorted sequence of the others. */
  lemma OrderedDrop<T(!new)>(less: (T, T) -> bool, s: set<T>, n: nat, rest: set<T>)
    requires Orders(less, s) && n <= |Ordered(less, s)|
    requires rest == s - set x | x in Ordered(less, s)[..n]
    ensures Orders(less, rest) && Ordered(less, rest) == Ordered(less, s)[n..]
  {
    hide Ordered;
    hide Sorted;
    var q := Ordered(less, s);
    OrderedIsSorted(less, s);
    OrderedIsSorted(less, rest);
    DropElements(less, q, s, n);
    SortedIsUnique(less, Ordered(less, rest), q[n..], rest);
  }
}
