/** The order-independent key of a measured node set (`benchmarking/run_state.py`). */
module HostKey {
  import opened Prelude
  import opened Sorting
  import opened Text

  const NUL := '\0'

  function CanonicalHostKey(hosts: seq<string>): string {
    if hosts == [] then "" else Join(NUL, Sort(LexLe, hosts))
  }

  /** A host name that `sorted`/`join` can neither hide nor split. */
  predicate PlainHost(h: string) {
    h != "" && Free(NUL, h)
  }

  predicate PlainHosts(hosts: seq<string>) {
    forall h :: h in hosts ==> PlainHost(h)
  }

  /** `BenchmarkRunState.matches_hosts`: a state that recorded no hosts matches anything. */
  predicate MatchesHosts(recorded: seq<string>, hosts: seq<string>) {
    recorded == [] || CanonicalHostKey(recorded) == CanonicalHostKey(hosts)
  }

  /** The empty key means "no hosts" and nothing else. */
  lemma KeyEmpty(a: seq<string>)
    requires PlainHosts(a)
    ensures CanonicalHostKey(a) == "" <==> a == []
  {
    SortKeeps(LexLe, a);
    JoinEmpty(NUL, Sort(LexLe, a));
    assert "" !in a;
    assert Sort(LexLe, a) == [""] ==> "" in Sort(LexLe, a);
  }

  /** The lists whose key is empty. */
  predicate Blank(a: seq<string>) {
    a == [] || a == [""]
  }

  lemma KeyBlank(a: seq<string>)
    ensures CanonicalHostKey(a) == "" <==> Blank(a)
  {
    SortKeeps(LexLe, a);
    JoinEmpty(NUL, Sort(LexLe, a));
    assert [""][1..] == [];
    if Sort(LexLe, a) == [""] {
      assert |a| == 1 && "" in Sort(LexLe, a);
    }
  }

  /**
   * On names without NUL, empty ones included, two lists have the same key exactly when they are permutations of each
   * other or both blank: an empty name is invisible only when it stands alone.
   */
  lemma SameKeyIff(a: seq<string>, b: seq<string>)
    requires forall h :: h in a || h in b ==> Free(NUL, h)
    ensures CanonicalHostKey(a) == CanonicalHostKey(b) <==> multiset(a) == multiset(b) || (Blank(a) && Blank(b))
  {
    LexIsTotalPreorder();
    SortKeeps(LexLe, a);
    SortKeeps(LexLe, b);
    KeyBlank(a);
    KeyBlank(b);
    if multiset(a) == multiset(b) {
      LexIsStrict(a);
      SortCanonical(LexLe, a, b);
      SameLength(a, b);
    } else if CanonicalHostKey(a) == CanonicalHostKey(b) && !Blank(a) {
      JoinInjective(NUL, Sort(LexLe, a), Sort(LexLe, b));
    }
  }

  /** The key identifies a node set up to order and multiplicity, and nothing coarser. */
  lemma KeyIdentifiesMultiset(a: seq<string>, b: seq<string>)
    requires PlainHosts(a) && PlainHosts(b)
    ensures CanonicalHostKey(a) == CanonicalHostKey(b) <==> multiset(a) == multiset(b)
  {
    SameKeyIff(a, b);
    assert "" !in a && "" !in b;
    assert [""][0] in [""];
  }

  /** A NUL inside a name reads as the boundary between two names, for every pair that sorts in that order. */
  lemma NulIsABoundary(x: string, y: string)
    requires LexLe(x, y)
    ensures CanonicalHostKey([x + [NUL] + y]) == CanonicalHostKey([x, y])
  {
    hide LexLe;
    var one, two := [x + [NUL] + y], [x, y];
    assert one[1..] == [];
    assert Sort(LexLe, one) == one;
    assert [y][1..] == [];
    assert Sort(LexLe, [y]) == [y];
    assert two[1..] == [y];
    assert Sort(LexLe, two) == Insert(LexLe, x, [y]);
    assert Insert(LexLe, x, [y]) == [x] + [y] == two;
    assert Join(NUL, two) == x + [NUL] + Join(NUL, [y]);
  }

  /** On states that recorded a host set, a match is exactly equality of node multisets. */
  lemma MatchIsMultisetEquality(recorded: seq<string>, hosts: seq<string>)
    requires PlainHosts(recorded) && PlainHosts(hosts)
    ensures MatchesHosts(recorded, hosts) <==> recorded == [] || multiset(recorded) == multiset(hosts)
  {
    KeyIdentifiesMultiset(recorded, hosts);
  }
}
