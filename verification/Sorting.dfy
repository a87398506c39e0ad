/** Stable insertion sort over an arbitrary order, standing for Python's `sorted(xs, key=...)`. */
module Sorting {
  import opened Prelude

  ghost predicate TotalPreorder<T(!new)>(leq: (T, T) -> bool) {
    && (forall a, b :: leq(a, b) || leq(b, a))
    && (forall a, b, c :: leq(a, b) && leq(b, c) ==> leq(a, c))
  }

  ghost predicate Sorted<T>(leq: (T, T) -> bool, s: seq<T>) {
    forall i, j :: 0 <= i < j < |s| ==> leq(s[i], s[j])
  }

  /** Distinct positions never hold order-equivalent elements. */
  ghost predicate Strict<T>(leq: (T, T) -> bool, s: seq<T>) {
    forall a, b :: a in s && b in s && leq(a, b) && leq(b, a) ==> a == b
  }

  function Insert<T>(leq: (T, T) -> bool, x: T, s: seq<T>): seq<T> {
    if s == [] then [x]
    else if leq(x, s[0]) then [x] + s
    else [s[0]] + Insert(leq, x, s[1..])
  }

  /** Inserting each element in front of its equals, from the right, keeps the original order of equals. */
  function Sort<T>(leq: (T, T) -> bool, s: seq<T>): seq<T> {
    if s == [] then [] else Insert(leq, s[0], Sort(leq, s[1..]))
  }

  lemma {:induction false} InsertKeeps<T>(leq: (T, T) -> bool, x: T, s: seq<T>)
    ensures multiset(Insert(leq, x, s)) == multiset{x} + multiset(s)
    ensures |Insert(leq, x, s)| == |s| + 1
  {
    if s != [] && !leq(x, s[0]) {
      InsertKeeps(leq, x, s[1..]);
      assert s == [s[0]] + s[1..];
    }
  }

  lemma {:induction false} InsertSorted<T(!new)>(leq: (T, T) -> bool, x: T, s: seq<T>)
    requires TotalPreorder(leq) && Sorted(leq, s)
    ensures Sorted(leq, Insert(leq, x, s))
  {
    if s == [] {
    } else if leq(x, s[0]) {
      var r := [x] + s;
      forall i, j | 0 <= i < j < |r| ensures leq(r[i], r[j]) {
        if i == 0 { assert leq(s[0], s[j - 1]) || j == 1; }
      }
    } else {
      InsertSorted(leq, x, s[1..]);
      InsertKeeps(leq, x, s[1..]);
      var t := Insert(leq, x, s[1..]);
      var r := [s[0]] + t;
      forall i, j | 0 <= i < j < |r| ensures leq(r[i], r[j]) {
        if i == 0 {
          assert t[j - 1] in multiset(t);
          assert t[j - 1] == x || t[j - 1] in s[1..];
        }
      }
    }
  }

  lemma {:induction false} SortKeeps<T>(leq: (T, T) -> bool, s: seq<T>)
    ensures multiset(Sort(leq, s)) == multiset(s)
    ensures |Sort(leq, s)| == |s|
    ensures forall x :: x in Sort(leq, s) <==> x in s
  {
    if s != [] {
      SortKeeps(leq, s[1..]);
      InsertKeeps(leq, s[0], Sort(leq, s[1..]));
      assert s == [s[0]] + s[1..];
    }
    assert forall x :: x in s <==> x in multiset(s);
    assert forall x :: x in Sort(leq, s) <==> x in multiset(Sort(leq, s));
  }

  lemma {:induction false} SortSorted<T(!new)>(leq: (T, T) -> bool, s: seq<T>)
    requires TotalPreorder(leq)
    ensures Sorted(leq, Sort(leq, s))
  {
    if s != [] {
      SortSorted(leq, s[1..]);
      InsertSorted(leq, s[0], Sort(leq, s[1..]));
    }
  }

  /** Two sorted arrangements of the same elements begin with the same element. */
  lemma SortedHead<T>(leq: (T, T) -> bool, a: seq<T>, b: seq<T>)
    requires Sorted(leq, a) && Sorted(leq, b) && multiset(a) == multiset(b)
    requires Strict(leq, a) && a != []
    ensures b != [] && a[0] == b[0]
  {
    assert a[0] in multiset(b);
    assert b != [];
    assert b[0] in multiset(a);
    var i :| 0 <= i < |b| && b[i] == a[0];
    var j :| 0 <= j < |a| && a[j] == b[0];
    if i > 0 && j > 0 {
      assert leq(b[0], b[i]) && leq(a[0], a[j]);
    }
  }

  lemma SameLength<T>(a: seq<T>, b: seq<T>)
    requires multiset(a) == multiset(b)
    ensures |a| == |b|
  {
    assert |multiset(a)| == |a| && |multiset(b)| == |b|;
  }

  lemma TailKeeps<T>(leq: (T, T) -> bool, a: seq<T>)
    requires a != [] && Sorted(leq, a)
    ensures Sorted(leq, a[1..]) && multiset(a[1..]) == multiset(a) - multiset{a[0]}
    ensures Strict(leq, a) ==> Strict(leq, a[1..])
  {
    assert a == [a[0]] + a[1..];
    assert forall x :: x in a[1..] ==> x in a;
  }

  lemma Tails<T>(leq: (T, T) -> bool, a: seq<T>, b: seq<T>)
    requires Sorted(leq, a) && Sorted(leq, b) && multiset(a) == multiset(b)
    requires Strict(leq, a) && a != []
    ensures b != [] && a[0] == b[0]
    ensures Sorted(leq, a[1..]) && Sorted(leq, b[1..]) && multiset(a[1..]) == multiset(b[1..]) && Strict(leq, a[1..])
  {
    SortedHead(leq, a, b);
    TailKeeps(leq, a);
    TailKeeps(leq, b);
  }

  /** Two sorted arrangements of the same elements coincide when the order separates them. */
  lemma {:induction false} SortedUnique<T>(leq: (T, T) -> bool, a: seq<T>, b: seq<T>)
    requires Sorted(leq, a) && Sorted(leq, b) && multiset(a) == multiset(b)
    requires Strict(leq, a)
    ensures a == b
  {
    if a == [] {
      SameLength(a, b);
    } else {
      Tails(leq, a, b);
      SortedUnique(leq, a[1..], b[1..]);
      assert a == [a[0]] + a[1..];
      assert b == [b[0]] + b[1..];
    }
  }

  /** Sorting forgets the order its input came in. */
  lemma SortCanonical<T(!new)>(leq: (T, T) -> bool, a: seq<T>, b: seq<T>)
    requires TotalPreorder(leq) && multiset(a) == multiset(b) && Strict(leq, a)
    ensures Sort(leq, a) == Sort(leq, b)
  {
    SortKeeps(leq, a);
    SortKeeps(leq, b);
    SortSorted(leq, a);
    SortSorted(leq, b);
    SortedUnique(leq, Sort(leq, a), Sort(leq, b));
  }

  function Alike<T>(leq: (T, T) -> bool, x: T): T -> bool {
    (y: T) => leq(x, y) && leq(y, x)
  }

  lemma {:induction false} InsertStable<T(!new)>(leq: (T, T) -> bool, a: T, s: seq<T>, x: T)
    requires TotalPreorder(leq)
    ensures Filter(Alike(leq, x), Insert(leq, a, s)) ==
      if Alike(leq, x)(a) then [a] + Filter(Alike(leq, x), s) else Filter(Alike(leq, x), s)
  {
    if s != [] && !leq(a, s[0]) {
      InsertStable(leq, a, s[1..], x);
      var t := [s[0]] + Insert(leq, a, s[1..]);
      assert t[1..] == Insert(leq, a, s[1..]);
    } else {
      var t := [a] + s;
      assert t[1..] == s;
    }
  }

  /** Elements that the order does not tell apart stay in the order they came in. */
  lemma {:induction false} SortStable<T(!new)>(leq: (T, T) -> bool, s: seq<T>, x: T)
    requires TotalPreorder(leq)
    ensures Filter(Alike(leq, x), Sort(leq, s)) == Filter(Alike(leq, x), s)
  {
    if s != [] {
      SortStable(leq, s[1..], x);
      InsertStable(leq, s[0], Sort(leq, s[1..]), x);
    }
  }
}
