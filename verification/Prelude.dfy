/** Vocabulary shared by every component: optional values and facts about duplicate-free sequences. */
module Prelude {

  datatype Option<+T> = None | Some(value: T)

  datatype Result<+T, +E> = Ok(value: T) | Err(error: E)

  ghost predicate NoDup<T>(s: seq<T>) {
    forall i, j :: 0 <= i < j < |s| ==> s[i] != s[j]
  }

  function ElemsOf<T>(s: seq<T>): set<T> {
    set x | x in s
  }

  lemma {:induction false} NoDupCardinality<T>(s: seq<T>)
    requires NoDup(s)
    ensures |ElemsOf(s)| == |s|
  {
    if s == [] {
      assert ElemsOf(s) == {};
    } else {
      var k := |s| - 1;
      var front := s[..k];
      assert NoDup(front);
      NoDupCardinality(front);
      assert s[k] !in front;
      forall x ensures x in ElemsOf(s) <==> x in ElemsOf(front) + {s[k]} {
        if x in s {
          var i :| 0 <= i < |s| && s[i] == x;
          if i < k { assert front[i] == x; }
        }
      }
      assert ElemsOf(s) == ElemsOf(front) + {s[k]};
    }
  }

  lemma {:induction false} NoDupCounts<T(!new)>(s: seq<T>)
    ensures NoDup(s) <==> forall x :: multiset(s)[x] <= 1
  {
    if s != [] {
      var k := |s| - 1;
      var front := s[..k];
      NoDupCounts(front);
      assert s == front + [s[k]];
      assert multiset(s) == multiset(front) + multiset{s[k]};
      if NoDup(s) {
        assert NoDup(front) && s[k] !in front;
        assert s[k] !in multiset(front);
      }
      if forall x :: multiset(s)[x] <= 1 {
        assert forall x :: multiset(front)[x] <= multiset(s)[x];
        assert multiset(s)[s[k]] <= 1;
        assert s[k] !in multiset(front);
        assert s[k] !in front;
      }
    }
  }

  lemma NoDupAppend<T>(s: seq<T>, x: T)
    requires NoDup(s) && x !in ElemsOf(s)
    ensures NoDup(s + [x]) && ElemsOf(s + [x]) == ElemsOf(s) + {x}
  {
  }

  /** The integers `lo .. hi-1`, as a set. */
  function Range(lo: int, hi: int): (r: set<int>)
    ensures forall i :: i in r <==> lo <= i < hi
    ensures |r| == if lo <= hi then hi - lo else 0
    decreases hi - lo
  {
    if lo >= hi then {} else Range(lo, hi - 1) + {hi - 1}
  }

  lemma SubsetSize<T>(a: set<T>, b: set<T>)
    requires a <= b
    ensures |a| <= |b|
    ensures |a| == |b| <==> a == b
  {
    assert b == a + (b - a);
  }

  /** Pigeonhole: distinct indices below `n` fill `[0, n)` exactly when there are `n` of them. */
  lemma NoDupBelow(s: seq<int>, n: nat)
    requires NoDup(s) && forall x :: x in s ==> 0 <= x < n
    ensures |s| <= n
    ensures |s| == n <==> forall i :: 0 <= i < n ==> i in s
  {
    NoDupCardinality(s);
    var d := Range(0, n) - ElemsOf(s);
    assert ElemsOf(s) <= Range(0, n);
    assert |d| == n - |s|;
    if |s| == n {
      assert d == {};
      forall i | 0 <= i < n ensures i in s { assert i !in d; }
    }
    if forall i :: 0 <= i < n ==> i in s {
      assert d == {};
    }
  }

  function Filter<T>(keep: T -> bool, s: seq<T>): seq<T> {
    if s == [] then []
    else if keep(s[0]) then [s[0]] + Filter(keep, s[1..])
    else Filter(keep, s[1..])
  }

  lemma {:induction false} FilterIs<T(!new)>(keep: T -> bool, s: seq<T>)
    ensures forall x :: x in Filter(keep, s) <==> x in s && keep(x)
    ensures |Filter(keep, s)| <= |s|
    ensures |Filter(keep, s)| == |s| <==> Filter(keep, s) == s
  {
    if s != [] {
      FilterIs(keep, s[1..]);
      assert s == [s[0]] + s[1..];
    }
  }

  lemma {:induction false} FilterExtremes<T(!new)>(keep: T -> bool, s: seq<T>)
    ensures (forall x :: x in s ==> !keep(x)) <==> Filter(keep, s) == []
    ensures (forall x :: x in s ==> keep(x)) <==> Filter(keep, s) == s
  {
    FilterIs(keep, s);
    if s != [] {
      assert s[0] in s;
      FilterExtremes(keep, s[1..]);
      assert s == [s[0]] + s[1..];
    }
  }

  /** A filter and its complement split the sequence. */
  lemma {:induction false} FilterSplits<T(!new)>(keep: T -> bool, drop: T -> bool, s: seq<T>)
    requires forall x :: x in s ==> (drop(x) <==> !keep(x))
    ensures multiset(Filter(keep, s)) + multiset(Filter(drop, s)) == multiset(s)
    ensures Filter(drop, s) == [] <==> Filter(keep, s) == s
    ensures |Filter(keep, s)| + |Filter(drop, s)| == |s|
  {
    FilterIs(keep, s);
    if s != [] {
      FilterSplits(keep, drop, s[1..]);
      assert s == [s[0]] + s[1..];
    }
  }

  lemma {:induction false} FilterFilter<T(!new)>(p: T -> bool, q: T -> bool, both: T -> bool, s: seq<T>)
    requires forall x :: x in s ==> (both(x) <==> p(x) && q(x))
    ensures Filter(q, Filter(p, s)) == Filter(both, s)
  {
    if s != [] {
      FilterFilter(p, q, both, s[1..]);
      assert s[0] in s;
      if p(s[0]) {
        var t := [s[0]] + Filter(p, s[1..]);
        assert t[1..] == Filter(p, s[1..]);
      }
    }
  }

  /** Filters that agree on the elements present give the same result. */
  lemma {:induction false} FilterAgrees<T(!new)>(p: T -> bool, q: T -> bool, s: seq<T>)
    requires forall x :: x in s ==> (p(x) <==> q(x))
    ensures Filter(p, s) == Filter(q, s)
  {
    if s != [] {
      assert s[0] in s;
      FilterAgrees(p, q, s[1..]);
    }
  }

  lemma {:induction false} FilterAppend<T(!new)>(p: T -> bool, a: seq<T>, b: seq<T>)
    ensures Filter(p, a + b) == Filter(p, a) + Filter(p, b)
  {
    if a == [] {
      assert a + b == b;
    } else {
      assert (a + b)[1..] == a[1..] + b;
      FilterAppend(p, a[1..], b);
    }
  }

  /** A relation between every earlier and later element survives filtering. */
  lemma {:induction false} FilterKeepsPairs<T(!new)>(rel: (T, T) -> bool, keep: T -> bool, s: seq<T>)
    requires forall i, j :: 0 <= i < j < |s| ==> rel(s[i], s[j])
    ensures forall i, j :: 0 <= i < j < |Filter(keep, s)| ==> rel(Filter(keep, s)[i], Filter(keep, s)[j])
  {
    if s != [] {
      var r := s[1..];
      var f := Filter(keep, r);
      FilterKeepsPairs(rel, keep, r);
      FilterIs(keep, r);
      assert forall x :: x in f ==> x in r;
      forall j | 0 <= j < |f| ensures rel(s[0], f[j]) {
        var x := f[j];
        assert x in f;
        var k :| 0 <= k < |r| && r[k] == x;
        assert s[k + 1] == r[k];
      }
    }
  }
}
