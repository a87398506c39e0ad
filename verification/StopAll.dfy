/** Stopping everything that was discovered, through the executors that reported it (`api/_stop_all.py`). */
module StopAll {
  import opened Prelude

  /** One member of a cluster group, as (host, role). */
  datatype Group = Group(clusterId: string, members: seq<(string, string)>)

  datatype Solo = Solo(host: string, name: string)

  /** A discovery snapshot; `executorOf` is stamped per (host, container). */
  datatype Discovery = Discovery(groups: seq<Group>, solo: seq<Solo>, executorOf: map<(string, string), string>,
                                 errors: map<string, string>, total: nat)

  datatype Verdict = Verdict(code: int, removed: nat)

  type Batches = map<string, map<string, seq<string>>>

  // ---- containers by host ----

  function GroupPairs(g: Group, n: nat): seq<(string, string)>
    requires n <= |g.members|
  {
    if n == 0 then [] else GroupPairs(g, n - 1) + [(g.members[n - 1].0, g.clusterId + "_" + g.members[n - 1].1)]
  }

  function GroupsPairs(groups: seq<Group>, n: nat): seq<(string, string)>
    requires n <= |groups|
  {
    if n == 0 then [] else GroupsPairs(groups, n - 1) + GroupPairs(groups[n - 1], |groups[n - 1].members|)
  }

  function SoloPairs(solo: seq<Solo>, n: nat): seq<(string, string)>
    requires n <= |solo|
  {
    if n == 0 then [] else SoloPairs(solo, n - 1) + [(solo[n - 1].host, solo[n - 1].name)]
  }

  /** Every discovered (host, container), in the order of the sweep. */
  function Pairs(d: Discovery): seq<(string, string)> {
    GroupsPairs(d.groups, |d.groups|) + SoloPairs(d.solo, |d.solo|)
  }

  /** How many members the groups before this one have. */
  function MembersBefore(groups: seq<Group>, n: nat): nat
    requires n <= |groups|
  {
    if n == 0 then 0 else MembersBefore(groups, n - 1) + |groups[n - 1].members|
  }

  lemma {:induction false} GroupPairAt(g: Group, n: nat, j: nat)
    requires j < n <= |g.members|
    ensures |GroupPairs(g, n)| == n
    ensures GroupPairs(g, n)[j] == (g.members[j].0, g.clusterId + "_" + g.members[j].1)
  {
    if n > 1 {
      GroupPairAt(g, n - 1, if j < n - 1 then j else 0);
    }
  }

  lemma {:induction false} GroupPairsSize(g: Group, n: nat)
    requires n <= |g.members|
    ensures |GroupPairs(g, n)| == n
  {
    if n > 0 {
      GroupPairsSize(g, n - 1);
    }
  }

  lemma {:induction false} GroupsPairAt(groups: seq<Group>, n: nat, i: nat, j: nat)
    requires n <= |groups|
    ensures |GroupsPairs(groups, n)| == MembersBefore(groups, n)
    ensures i < n && j < |groups[i].members| ==>
      && MembersBefore(groups, i) + j < |GroupsPairs(groups, n)|
      && GroupsPairs(groups, n)[MembersBefore(groups, i) + j]
         == (groups[i].members[j].0, groups[i].clusterId + "_" + groups[i].members[j].1)
  {
    hide GroupPairs;
    if n > 0 {
      var g := groups[n - 1];
      GroupsPairAt(groups, n - 1, i, j);
      GroupPairsSize(g, |g.members|);
      if i == n - 1 && j < |g.members| {
        GroupPairAt(g, |g.members|, j);
      }
    }
  }

  lemma {:induction false} SoloPairAt(solo: seq<Solo>, n: nat, i: nat)
    requires n <= |solo|
    ensures |SoloPairs(solo, n)| == n
    ensures i < n ==> SoloPairs(solo, n)[i] == (solo[i].host, solo[i].name)
  {
    if n > 0 {
      SoloPairAt(solo, n - 1, i);
    }
  }

  /**
   * The containers of a sweep, one for each group member and then one for each solo entry: a member's container is
   * named after its cluster and its role and stands on the member's host.
   */
  lemma EveryContainerOnce(d: Discovery, i: nat, j: nat, k: nat)
    ensures |Pairs(d)| == MembersBefore(d.groups, |d.groups|) + |d.solo|
    ensures i < |d.groups| && j < |d.groups[i].members| ==>
      && MembersBefore(d.groups, i) + j < |Pairs(d)|
      && Pairs(d)[MembersBefore(d.groups, i) + j]
         == (d.groups[i].members[j].0, d.groups[i].clusterId + "_" + d.groups[i].members[j].1)
    ensures k < |d.solo| ==>
      Pairs(d)[MembersBefore(d.groups, |d.groups|) + k] == (d.solo[k].host, d.solo[k].name)
  {
    hide GroupsPairs, SoloPairs, MembersBefore;
    GroupsPairAt(d.groups, |d.groups|, i, j);
    SoloPairAt(d.solo, |d.solo|, k);
  }

  function NamesOn(pairs: seq<(string, string)>, h: string): seq<string> {
    if pairs == [] then []
    else
      var last := pairs[|pairs| - 1];
      NamesOn(pairs[..|pairs| - 1], h) + if last.0 == h then [last.1] else []
  }

  function AtHost(h: string): ((string, string)) -> bool {
    (p: (string, string)) => p.0 == h
  }

  /** The names filed under a host are those of its pairs, in their order. */
  lemma {:induction false} NamesAreThoseAtHost(pairs: seq<(string, string)>, h: string)
    ensures |NamesOn(pairs, h)| == |Filter(AtHost(h), pairs)|
    ensures forall i :: 0 <= i < |NamesOn(pairs, h)| ==> NamesOn(pairs, h)[i] == Filter(AtHost(h), pairs)[i].1
  {
    if pairs != [] {
      var k := |pairs| - 1;
      NamesAreThoseAtHost(pairs[..k], h);
      FilterAppend(AtHost(h), pairs[..k], [pairs[k]]);
      assert pairs == pairs[..k] + [pairs[k]];
      assert [pairs[k]][1..] == [];
    }
  }

  /** An insertion-ordered dictionary of the pairs seen so far. */
  ghost predicate Collected(order: seq<string>, m: map<string, seq<string>>, pairs: seq<(string, string)>) {
    && NoDup(order) && ElemsOf(order) == m.Keys
    && (forall h :: h in m <==> NamesOn(pairs, h) != [])
    && (forall h :: h in m ==> m[h] == NamesOn(pairs, h))
  }

  lemma NamesStep(pairs: seq<(string, string)>, p: (string, string), h: string)
    ensures NamesOn(pairs + [p], h) == NamesOn(pairs, h) + if p.0 == h then [p.1] else []
  {
    assert (pairs + [p])[..|pairs|] == pairs;
  }

  lemma CollectedStep(order: seq<string>, m: map<string, seq<string>>, pairs: seq<(string, string)>, host: string,
                      name: string)
    requires Collected(order, m, pairs)
    ensures Collected(if host in m then order else order + [host],
                      m[host := (if host in m then m[host] else []) + [name]], pairs + [(host, name)])
  {
    forall h ensures NamesOn(pairs + [(host, name)], h) == NamesOn(pairs, h) + if host == h then [name] else [] {
      NamesStep(pairs, (host, name), h);
    }
    if host !in m {
      NoDupAppend(order, host);
    }
    hide NamesOn, ElemsOf, NoDup;
    assert m[host := (if host in m then m[host] else []) + [name]].Keys == m.Keys + {host};
  }

  /** `setdefault(host, []).append(name)`. */
  method AppendTo(order0: seq<string>, m0: map<string, seq<string>>, ghost pairs: seq<(string, string)>, host: string,
                  name: string)
    returns (order: seq<string>, m: map<string, seq<string>>)
    requires Collected(order0, m0, pairs)
    ensures Collected(order, m, pairs + [(host, name)])
  {
    CollectedStep(order0, m0, pairs, host, name);
    hide Collected;
    if host in m0 {
      order, m := order0, m0[host := m0[host] + [name]];
    } else {
      order, m := order0 + [host], m0[host := [] + [name]];
    }
  }

  /** The members of one group, filed under their hosts. */
  method CollectGroup(order0: seq<string>, m0: map<string, seq<string>>, ghost pairs: seq<(string, string)>, g: Group)
    returns (order: seq<string>, m: map<string, seq<string>>)
    requires Collected(order0, m0, pairs)
    ensures Collected(order, m, pairs + GroupPairs(g, |g.members|))
  {
    hide Collected;
    order, m := order0, m0;
    assert pairs + GroupPairs(g, 0) == pairs;
    for j := 0 to |g.members|
      invariant Collected(order, m, pairs + GroupPairs(g, j))
    {
      var host, name := g.members[j].0, g.clusterId + "_" + g.members[j].1;
      order, m := AppendTo(order, m, pairs + GroupPairs(g, j), host, name);
      assert pairs + GroupPairs(g, j) + [(host, name)] == pairs + GroupPairs(g, j + 1);
    }
  }

  /** The solo containers, filed under their hosts after the groups. */
  method CollectSolos(order0: seq<string>, m0: map<string, seq<string>>, d: Discovery)
    returns (order: seq<string>, m: map<string, seq<string>>)
    requires Collected(order0, m0, GroupsPairs(d.groups, |d.groups|))
    ensures Collected(order, m, Pairs(d))
  {
    hide Collected, GroupsPairs;
    order, m := order0, m0;
    ghost var pairs := GroupsPairs(d.groups, |d.groups|);
    assert pairs + SoloPairs(d.solo, 0) == pairs;
    for i := 0 to |d.solo|
      invariant Collected(order, m, pairs + SoloPairs(d.solo, i))
    {
      var s := d.solo[i];
      order, m := AppendTo(order, m, pairs + SoloPairs(d.solo, i), s.host, s.name);
      assert pairs + SoloPairs(d.solo, i) + [(s.host, s.name)] == pairs + SoloPairs(d.solo, i + 1);
    }
  }

  /** `_containers_by_host`. */
  method ContainersByHost(d: Discovery) returns (order: seq<string>, m: map<string, seq<string>>)
    ensures Collected(order, m, Pairs(d))
  {
    order, m := [], map[];
    assert Collected(order, m, []);
    hide Collected, GroupPairs, SoloPairs;
    for i := 0 to |d.groups|
      invariant Collected(order, m, GroupsPairs(d.groups, i))
    {
      order, m := CollectGroup(order, m, GroupsPairs(d.groups, i), d.groups[i]);
    }
    order, m := CollectSolos(order, m, d);
  }

  // ---- one batch per executor ----

  /** The executor that reported a container; `""` when nobody said. */
  function ExecutorOf(d: Discovery, h: string, name: string): string {
    if (h, name) in d.executorOf then d.executorOf[(h, name)] else ""
  }

  function ReportedBy(d: Discovery, h: string, e: string): string -> bool {
    (name: string) => ExecutorOf(d, h, name) == e
  }

  /** What the batch of executor `e` holds for host `h`. */
  function Entry(b: Batches, e: string, h: string): seq<string> {
    if e in b && h in b[e] then b[e][h] else []
  }

  function Seen(seen: map<string, seq<string>>, h: string): seq<string> {
    if h in seen then seen[h] else []
  }

  /** The batch of `e` holds for `h` the names that `e` reported there, in order. */
  ghost predicate ShareAt(b: Batches, d: Discovery, seen: map<string, seq<string>>, e: string, h: string) {
    Entry(b, e, h) == Filter(ReportedBy(d, h, e), Seen(seen, h))
  }

  ghost predicate Shape(execs: seq<string>, b: Batches) {
    && NoDup(execs) && ElemsOf(execs) == b.Keys
    && (forall e, h :: e in b && h in b[e] ==> b[e][h] != [])
  }

  /** `b` splits the names in `seen` by executor, and holds no empty batch. */
  ghost predicate Splits(execs: seq<string>, b: Batches, d: Discovery, seen: map<string, seq<string>>) {
    Shape(execs, b) && forall e, h :: ShareAt(b, d, seen, e, h)
  }

  lemma SplitStep(d: Discovery, h: string, name: string, e: string, names: seq<string>)
    ensures Filter(ReportedBy(d, h, e), names + [name]) ==
      Filter(ReportedBy(d, h, e), names) + if ExecutorOf(d, h, name) == e then [name] else []
  {
    FilterAppend(ReportedBy(d, h, e), names, [name]);
  }

  /** `grouped.setdefault(x, {}).setdefault(host, []).append(name)`. */
  function Added(b: Batches, x: string, host: string, name: string): Batches {
    var batch := if x in b then b[x] else map[];
    b[x := batch[host := (if host in batch then batch[host] else []) + [name]]]
  }

  lemma EntryStep(b: Batches, x: string, host: string, name: string, e: string, h: string)
    ensures Entry(Added(b, x, host, name), e, h) == Entry(b, e, h) + if e == x && h == host then [name] else []
  {
  }

  lemma ShapeStep(execs: seq<string>, b: Batches, x: string, host: string, name: string)
    requires Shape(execs, b)
    ensures Shape(if x in b then execs else execs + [x], Added(b, x, host, name))
  {
    if x !in b {
      NoDupAppend(execs, x);
    }
    hide NoDup, ElemsOf;
    assert Added(b, x, host, name).Keys == b.Keys + {x};
  }

  lemma ShareStep(b: Batches, d: Discovery, seen: map<string, seq<string>>, host: string, name: string, e: string,
                  h: string)
    requires ShareAt(b, d, seen, e, h)
    ensures ShareAt(Added(b, ExecutorOf(d, host, name), host, name), d, seen[host := Seen(seen, host) + [name]], e, h)
  {
    hide Filter, Entry, Added;
    EntryStep(b, ExecutorOf(d, host, name), host, name, e, h);
    SplitStep(d, host, name, e, Seen(seen, host));
  }

  lemma SplitsStep(execs: seq<string>, b: Batches, d: Discovery, seen: map<string, seq<string>>, host: string,
                   name: string)
    requires Splits(execs, b, d, seen)
    ensures var x := ExecutorOf(d, host, name);
      Splits(if x in b then execs else execs + [x], Added(b, x, host, name), d, seen[host := Seen(seen, host) + [name]])
  {
    hide ShareAt, Shape, Added, Seen;
    ShapeStep(execs, b, ExecutorOf(d, host, name), host, name);
    var b', seen' := Added(b, ExecutorOf(d, host, name), host, name), seen[host := Seen(seen, host) + [name]];
    forall e, h ensures ShareAt(b', d, seen', e, h) {
      assert ShareAt(b, d, seen, e, h);
      ShareStep(b, d, seen, host, name, e, h);
    }
  }

  method AddTo(execs0: seq<string>, b0: Batches, d: Discovery, ghost seen: map<string, seq<string>>, host: string,
               name: string)
    returns (execs: seq<string>, b: Batches)
    requires Splits(execs0, b0, d, seen)
    ensures Splits(execs, b, d, seen[host := Seen(seen, host) + [name]])
  {
    SplitsStep(execs0, b0, d, seen, host, name);
    var x := ExecutorOf(d, host, name);
    b := Added(b0, x, host, name);
    execs := if x in b0 then execs0 else execs0 + [x];
  }

  lemma SplitsEmpty(execs: seq<string>, b: Batches, d: Discovery, seen: map<string, seq<string>>, host: string)
    requires Splits(execs, b, d, seen) && host !in seen
    ensures Splits(execs, b, d, seen[host := []])
  {
    hide Shape;
    var seen' := seen[host := []];
    forall e, h ensures ShareAt(b, d, seen', e, h) {
      assert ShareAt(b, d, seen, e, h);
    }
  }

  /** The containers of one host, handed out one by one. */
  method AddHost(execs0: seq<string>, b0: Batches, d: Discovery, ghost seen: map<string, seq<string>>, host: string,
                 names: seq<string>)
    returns (execs: seq<string>, b: Batches)
    requires Splits(execs0, b0, d, seen) && host !in seen
    ensures Splits(execs, b, d, seen[host := names])
  {
    SplitsEmpty(execs0, b0, d, seen, host);
    hide Splits;
    execs, b := execs0, b0;
    assert names[..0] == [];
    for j := 0 to |names|
      invariant Splits(execs, b, d, seen[host := names[..j]])
    {
      ghost var now := seen[host := names[..j]];
      execs, b := AddTo(execs, b, d, now, host, names[j]);
      assert names[..j + 1] == names[..j] + [names[j]];
      assert now[host := Seen(now, host) + [names[j]]] == seen[host := names[..j + 1]];
    }
    assert names[..|names|] == names;
  }

  /** `_group_by_executor`. */
  method GroupByExecutor(order: seq<string>, m: map<string, seq<string>>, d: Discovery) returns (execs: seq<string>,
                         b: Batches)
    requires NoDup(order) && ElemsOf(order) == m.Keys
    ensures Splits(execs, b, d, m)
  {
    execs, b := [], map[];
    ghost var seen: map<string, seq<string>> := map[];
    assert Splits(execs, b, d, seen);
    hide Splits;
    for i := 0 to |order|
      invariant seen.Keys == ElemsOf(order[..i]) && forall h :: h in seen ==> h in m && seen[h] == m[h]
      invariant Splits(execs, b, d, seen)
    {
      var host := order[i];
      assert host in ElemsOf(order);
      assert host !in seen;
      execs, b := AddHost(execs, b, d, seen, host, m[host]);
      seen := seen[host := m[host]];
      assert order[..i + 1] == order[..i] + [host];
    }
    assert order[..|order|] == order;
    assert seen == m;
  }

  /** The batches of a list of executors put back together for one host. */
  function Regrouped(execs: seq<string>, b: Batches, h: string): multiset<string> {
    if execs == [] then multiset{}
    else Regrouped(execs[..|execs| - 1], b, h) + multiset(Entry(b, execs[|execs| - 1], h))
  }

  lemma {:induction false} FilterCount(keep: string -> bool, s: seq<string>, x: string)
    ensures multiset(Filter(keep, s))[x] == if keep(x) then multiset(s)[x] else 0
  {
    if s != [] {
      FilterCount(keep, s[1..], x);
      assert s == [s[0]] + s[1..];
      assert multiset(s) == multiset{s[0]} + multiset(s[1..]);
      if keep(s[0]) {
        assert multiset(Filter(keep, s)) == multiset{s[0]} + multiset(Filter(keep, s[1..]));
      }
    }
  }

  /** A container is in the batch of its own executor, as often as it was discovered, and in no other. */
  lemma EachToItsExecutor(execs: seq<string>, b: Batches, d: Discovery, m: map<string, seq<string>>, h: string,
                          name: string, e: string)
    requires Splits(execs, b, d, m)
    ensures multiset(Entry(b, e, h))[name] == if e == ExecutorOf(d, h, name) then multiset(Seen(m, h))[name] else 0
    ensures ExecutorOf(d, h, name) == if (h, name) in d.executorOf then d.executorOf[(h, name)] else ""
  {
    assert ShareAt(b, d, m, e, h);
    FilterCount(ReportedBy(d, h, e), Seen(m, h), name);
  }

  lemma {:induction false} RegroupedCount(execs: seq<string>, all: seq<string>, b: Batches, d: Discovery,
                                          m: map<string, seq<string>>, h: string, name: string)
    requires Splits(all, b, d, m) && NoDup(execs)
    ensures Regrouped(execs, b, h)[name] == if ExecutorOf(d, h, name) in execs then multiset(Seen(m, h))[name] else 0
  {
    if execs != [] {
      var n := |execs| - 1;
      RegroupedCount(execs[..n], all, b, d, m, h, name);
      EachToItsExecutor(all, b, d, m, h, name, execs[n]);
      assert execs == execs[..n] + [execs[n]];
    }
  }

  /** Regrouping gives back every host's containers. */
  lemma RegroupingGivesBack(execs: seq<string>, b: Batches, d: Discovery, m: map<string, seq<string>>, h: string)
    requires Splits(execs, b, d, m)
    ensures Regrouped(execs, b, h) == multiset(Seen(m, h))
  {
    forall name ensures Regrouped(execs, b, h)[name] == multiset(Seen(m, h))[name] {
      RegroupedCount(execs, execs, b, d, m, h, name);
      var e := ExecutorOf(d, h, name);
      if e !in execs {
        assert e !in ElemsOf(execs);
        EachToItsExecutor(execs, b, d, m, h, name, e);
      }
    }
  }

  // ---- teardown and its verdicts ----

  /** Two executors' verdicts on one host. */
  function Both(a: Verdict, v: Verdict): Verdict {
    Verdict(if a.code != 0 then a.code else v.code, a.removed + v.removed)
  }

  /** `merge_teardown_results`. */
  function MergeResults(a: map<string, Verdict>, v: map<string, Verdict>): map<string, Verdict> {
    map h | h in a.Keys + v.Keys :: if h in a && h in v then Both(a[h], v[h]) else if h in a then a[h] else v[h]
  }

  /** The recombined verdict of a list of executors on one host, if any of them had something there. */
  function HostVerdict(execs: seq<string>, b: Batches, teardown: (string, string) -> Verdict,
                       h: string): Option<Verdict> {
    if execs == [] then None
    else
      var e := execs[|execs| - 1];
      var before := HostVerdict(execs[..|execs| - 1], b, teardown, h);
      if Entry(b, e, h) == [] then before
      else if before.None? then Some(teardown(e, h))
      else Some(Both(before.value, teardown(e, h)))
  }

  lemma {:induction false} VerdictIsUnanimous(execs: seq<string>, b: Batches, teardown: (string, string) -> Verdict,
                                              h: string)
    ensures HostVerdict(execs, b, teardown, h).None? <==> forall e :: e in execs ==> Entry(b, e, h) == []
    ensures HostVerdict(execs, b, teardown, h).Some? ==>
      (HostVerdict(execs, b, teardown, h).value.code == 0 <==>
        forall e :: e in execs && Entry(b, e, h) != [] ==> teardown(e, h).code == 0)
  {
    if execs != [] {
      var n := |execs| - 1;
      VerdictIsUnanimous(execs[..n], b, teardown, h);
      assert execs == execs[..n] + [execs[n]];
    }
  }

  /** What a list of executors removed on one host. */
  function RemovedOn(execs: seq<string>, b: Batches, teardown: (string, string) -> Verdict, h: string): nat {
    if execs == [] then 0
    else
      var e := execs[|execs| - 1];
      RemovedOn(execs[..|execs| - 1], b, teardown, h) + if Entry(b, e, h) == [] then 0 else teardown(e, h).removed
  }

  function RemovedFrom(order: seq<string>, execs: seq<string>, b: Batches, teardown: (string, string) -> Verdict): nat {
    if order == [] then 0
    else RemovedFrom(order[..|order| - 1], execs, b, teardown) + RemovedOn(execs, b, teardown, order[|order| - 1])
  }

  /** Removals add up over executors and over hosts. */
  lemma {:induction false} RemovalsAddUp(a: seq<string>, x: seq<string>, b: Batches,
                                         teardown: (string, string) -> Verdict, h: string)
    ensures RemovedOn(a + x, b, teardown, h) == RemovedOn(a, b, teardown, h) + RemovedOn(x, b, teardown, h)
    ensures |x| == 1 ==>
      RemovedOn(x, b, teardown, h) == if Entry(b, x[0], h) == [] then 0 else teardown(x[0], h).removed
  {
    if x == [] {
      assert a + x == a;
    } else {
      var k := |x| - 1;
      assert (a + x)[..|a + x| - 1] == a + x[..k];
      RemovalsAddUp(a, x[..k], b, teardown, h);
    }
  }

  lemma {:induction false} HostsAddUp(a: seq<string>, x: seq<string>, execs: seq<string>, b: Batches,
                                      teardown: (string, string) -> Verdict)
    ensures RemovedFrom(a + x, execs, b, teardown)
         == RemovedFrom(a, execs, b, teardown) + RemovedFrom(x, execs, b, teardown)
    ensures |x| == 1 ==> RemovedFrom(x, execs, b, teardown) == RemovedOn(execs, b, teardown, x[0])
  {
    if x == [] {
      assert a + x == a;
    } else {
      var k := |x| - 1;
      assert (a + x)[..|a + x| - 1] == a + x[..k];
      HostsAddUp(a, x[..k], execs, b, teardown);
    }
  }

  /** Recombining loses no removal. */
  lemma {:induction false} VerdictSumsRemoved(execs: seq<string>, b: Batches, teardown: (string, string) -> Verdict,
                                              h: string)
    ensures RemovedOn(execs, b, teardown, h) ==
      if HostVerdict(execs, b, teardown, h).Some? then HostVerdict(execs, b, teardown, h).value.removed else 0
  {
    if execs != [] {
      VerdictSumsRemoved(execs[..|execs| - 1], b, teardown, h);
    }
  }

  /** Every executor that has something on `h` confirmed it gone. */
  ghost predicate Confirmed(b: Batches, teardown: (string, string) -> Verdict, h: string) {
    forall e :: Entry(b, e, h) != [] ==> teardown(e, h).code == 0
  }

  function Lookup(results: map<string, Verdict>, h: string): Option<Verdict> {
    if h in results then Some(results[h]) else None
  }

  lemma VerdictStep(execs: seq<string>, i: nat, b: Batches, teardown: (string, string) -> Verdict,
                    results: map<string, Verdict>,
                    verdicts: map<string, Verdict>, h: string)
    requires i < |execs| && execs[i] in b && (h in b[execs[i]] ==> b[execs[i]][h] != [])
    requires verdicts == map x | x in b[execs[i]] :: teardown(execs[i], x)
    requires Lookup(results, h) == HostVerdict(execs[..i], b, teardown, h)
    ensures Lookup(MergeResults(results, verdicts), h) == HostVerdict(execs[..i + 1], b, teardown, h)
  {
    assert execs[..i + 1][..i] == execs[..i];
  }

  /** Each executor is handed its own batch; the per-host verdicts are recombined. */
  method TearDown(execs: seq<string>, b: Batches,
                  teardown: (string, string) -> Verdict) returns (results: map<string, Verdict>)
    requires ElemsOf(execs) == b.Keys
    requires forall e, h :: e in b && h in b[e] ==> b[e][h] != []
    ensures forall h :: Lookup(results, h) == HostVerdict(execs, b, teardown, h)
  {
    results := map[];
    for i := 0 to |execs|
      invariant forall h :: Lookup(results, h) == HostVerdict(execs[..i], b, teardown, h)
    {
      var e := execs[i];
      assert e in ElemsOf(execs);
      var verdicts := map h | h in b[e] :: teardown(e, h);
      forall h ensures Lookup(MergeResults(results, verdicts), h) == HostVerdict(execs[..i + 1], b, teardown, h) {
        VerdictStep(execs, i, b, teardown, results, verdicts, h);
      }
      results := MergeResults(results, verdicts);
    }
    assert execs[..|execs|] == execs;
  }

  // ---- the sweep ----

  function SoloId(name: string): string {
    if |name| >= 5 && name[|name| - 5..] == "_solo" then name[..|name| - 5] else name
  }

  /** The record of a solo container named after its cluster id is the record of that id. */
  lemma SoloRecordIsItsId(id: string)
    ensures SoloId(id + "_solo") == id
    ensures SoloId(id) == id <==> !(exists rest :: id == rest + "_solo")
  {
    assert (id + "_solo")[|id|..] == "_solo";
    if |id| >= 5 && id[|id| - 5..] == "_solo" {
      assert id == id[..|id| - 5] + "_solo";
    }
    forall rest | id == rest + "_solo" ensures SoloId(id) == rest {
      assert id[|id| - 5..] == "_solo";
    }
  }

  predicate CleanGroup(g: Group, failed: seq<string>) {
    forall p :: p in g.members ==> p.0 !in failed
  }

  /** Some discovered job of that id has no host among the failed. */
  ghost predicate HasCleanJob(d: Discovery, failed: seq<string>, id: string) {
    || (exists g :: g in d.groups && g.clusterId == id && CleanGroup(g, failed))
    || (exists s :: s in d.solo && SoloId(s.name) == id && s.host !in failed)
  }

  ghost predicate CleanAmongGroups(d: Discovery, failed: seq<string>, id: string, n: nat)
    requires n <= |d.groups|
  {
    exists k :: 0 <= k < n && d.groups[k].clusterId == id && CleanGroup(d.groups[k], failed)
  }

  ghost predicate CleanAmongSolos(d: Discovery, failed: seq<string>, id: string, n: nat)
    requires n <= |d.solo|
  {
    exists k :: 0 <= k < n && SoloId(d.solo[k].name) == id && d.solo[k].host !in failed
  }

  function CleanGroups(groups: seq<Group>, n: nat, failed: seq<string>): nat
    requires n <= |groups|
  {
    if n == 0 then 0 else CleanGroups(groups, n - 1, failed) + if CleanGroup(groups[n - 1], failed) then 1 else 0
  }

  function CleanSolos(solo: seq<Solo>, n: nat, failed: seq<string>): nat
    requires n <= |solo|
  {
    if n == 0 then 0 else CleanSolos(solo, n - 1, failed) + if solo[n - 1].host !in failed then 1 else 0
  }

  class JobStore {
    var jobs: set<string>

    method Forget(id: string)
      modifies this
      ensures jobs == old(jobs) - {id}
    {
      jobs := jobs - {id};
    }

    /** Drops the records of jobs with no container left behind, and counts those jobs. */
    method ForgetStopped(d: Discovery, failed: seq<string>) returns (stopped: nat)
      modifies this
      ensures forall id :: id in jobs <==> id in old(jobs) && !HasCleanJob(d, failed, id)
      ensures stopped == CleanGroups(d.groups, |d.groups|, failed) + CleanSolos(d.solo, |d.solo|, failed)
    {
      stopped := 0;
      for i := 0 to |d.groups|
        invariant stopped == CleanGroups(d.groups, i, failed)
        invariant forall id :: id in jobs <==> id in old(jobs) && !CleanAmongGroups(d, failed, id, i)
      {
        var g := d.groups[i];
        var stuck := false;
        for j := 0 to |g.members|
          invariant stuck <==> exists k :: 0 <= k < j && g.members[k].0 in failed
        {
          stuck := stuck || g.members[j].0 in failed;
        }
        assert CleanGroup(g, failed) <==> !stuck;
        if stuck {
          continue;
        }
        Forget(g.clusterId);
        stopped := stopped + 1;
      }
      ghost var left := jobs;
      for i := 0 to |d.solo|
        invariant stopped == CleanGroups(d.groups, |d.groups|, failed) + CleanSolos(d.solo, i, failed)
        invariant forall id :: id in jobs <==> id in left && !CleanAmongSolos(d, failed, id, i)
      {
        if d.solo[i].host in failed {
          continue;
        }
        Forget(SoloId(d.solo[i].name));
        stopped := stopped + 1;
      }
      forall id ensures id in jobs <==> id in old(jobs) && !HasCleanJob(d, failed, id) {
        CleanJobAt(d, failed, id);
      }
    }
  }

  lemma CleanJobAt(d: Discovery, failed: seq<string>, id: string)
    ensures HasCleanJob(d, failed, id) <==>
      CleanAmongGroups(d, failed, id, |d.groups|) || CleanAmongSolos(d, failed, id, |d.solo|)
  {
  }

  datatype Report = Report(jobsStopped: nat, removed: nat, hostsStopped: seq<string>, hostsFailed: seq<string>,
                           errors: map<string, string>)

  /** `StopAllResult.success`. */
  predicate Success(r: Report) {
    r.hostsFailed == [] && r.errors == map[]
  }

  function FailedIn(results: map<string, Verdict>): string -> bool {
    (h: string) => h !in results || results[h].code != 0
  }

  function StoppedIn(results: map<string, Verdict>): string -> bool {
    (h: string) => h in results && results[h].code == 0
  }

  /** The failure accounting: swept hosts without a result, or with an unsuccessful one. */
  method FailedHosts(order: seq<string>, results: map<string, Verdict>) returns (failed: seq<string>)
    ensures failed == Filter(FailedIn(results), order)
  {
    failed := [];
    for i := 0 to |order|
      invariant failed == Filter(FailedIn(results), order[..i])
    {
      assert order[..i + 1] == order[..i] + [order[i]];
      FilterAppend(FailedIn(results), order[..i], [order[i]]);
      if order[i] !in results {
        failed := failed + [order[i]];
      } else if results[order[i]].code != 0 {
        failed := failed + [order[i]];
      }
    }
    assert order[..|order|] == order;
  }

  /** `containers_removed`, host by host. */
  method SumRemoved(order: seq<string>, results: map<string, Verdict>, ghost execs: seq<string>, ghost b: Batches,
                    ghost teardown: (string, string) -> Verdict)
    returns (removed: nat)
    requires forall h :: Lookup(results, h) == HostVerdict(execs, b, teardown, h)
    ensures removed == RemovedFrom(order, execs, b, teardown)
  {
    removed := 0;
    for i := 0 to |order|
      invariant removed == RemovedFrom(order[..i], execs, b, teardown)
    {
      assert order[..i + 1][..i] == order[..i];
      VerdictSumsRemoved(execs, b, teardown, order[i]);
      assert Lookup(results, order[i]) == HostVerdict(execs, b, teardown, order[i]);
      if order[i] in results {
        removed := removed + results[order[i]].removed;
      }
    }
    assert order[..|order|] == order;
  }

  /** The exact outcome of a sweep over the hosts of a snapshot. */
  ghost predicate Accounted(r: Report, d: Discovery, order: seq<string>, execs: seq<string>, b: Batches,
                            teardown: (string, string) -> Verdict) {
    && r.removed == RemovedFrom(order, execs, b, teardown)
    // Stopped and failed hosts split the swept hosts, in their order.
    && (forall h :: h in r.hostsFailed <==> h in order && !Confirmed(b, teardown, h))
    && (forall h :: h in r.hostsStopped <==> h in order && Confirmed(b, teardown, h))
    && multiset(r.hostsStopped) + multiset(r.hostsFailed) == multiset(order)
    && r.errors == d.errors
    && r.jobsStopped == CleanGroups(d.groups, |d.groups|, r.hostsFailed) + CleanSolos(d.solo, |d.solo|, r.hostsFailed)
  }

  /** Every swept host has a verdict, so a teardown that "did not run" cannot be seen here. */
  lemma EverySweptHostHasAVerdict(order: seq<string>, m: map<string, seq<string>>, pairs: seq<(string, string)>,
                                  execs: seq<string>, b: Batches,
                                  d: Discovery, teardown: (string, string) -> Verdict, h: string)
    requires Collected(order, m, pairs) && Splits(execs, b, d, m) && h in order
    ensures HostVerdict(execs, b, teardown, h).Some?
  {
    assert h in ElemsOf(order) && m[h] != [];
    var name := m[h][0];
    var e := ExecutorOf(d, h, name);
    assert ShareAt(b, d, m, e, h);
    FilterIs(ReportedBy(d, h, e), m[h]);
    assert name in Entry(b, e, h);
    assert e in b && e in ElemsOf(execs);
    VerdictIsUnanimous(execs, b, teardown, h);
  }

  lemma VerdictMeansConfirmed(execs: seq<string>, b: Batches, teardown: (string, string) -> Verdict, h: string)
    requires ElemsOf(execs) == b.Keys && HostVerdict(execs, b, teardown, h).Some?
    ensures HostVerdict(execs, b, teardown, h).value.code == 0 <==> Confirmed(b, teardown, h)
  {
    VerdictIsUnanimous(execs, b, teardown, h);
    forall e | Entry(b, e, h) != [] ensures e in execs {
      assert e in b.Keys;
      assert e in ElemsOf(execs);
    }
  }

  lemma SweepIsAccounted(order: seq<string>, m: map<string, seq<string>>, execs: seq<string>, b: Batches, d: Discovery,
                         teardown: (string, string) -> Verdict, results: map<string, Verdict>, r: Report)
    requires Collected(order, m, Pairs(d)) && Splits(execs, b, d, m)
    requires forall h :: Lookup(results, h) == HostVerdict(execs, b, teardown, h)
    requires r.hostsFailed == Filter(FailedIn(results), order) && r.hostsStopped == Filter(StoppedIn(results), order)
    requires r.errors == d.errors && r.removed == RemovedFrom(order, execs, b, teardown)
    requires r.jobsStopped
          == CleanGroups(d.groups, |d.groups|, r.hostsFailed) + CleanSolos(d.solo, |d.solo|, r.hostsFailed)
    ensures Accounted(r, d, order, execs, b, teardown)
  {
    FilterIs(FailedIn(results), order);
    FilterIs(StoppedIn(results), order);
    FilterSplits(StoppedIn(results), FailedIn(results), order);
    forall h | h in order ensures StoppedIn(results)(h) <==> Confirmed(b, teardown, h) {
      EverySweptHostHasAVerdict(order, m, Pairs(d), execs, b, d, teardown, h);
      VerdictMeansConfirmed(execs, b, teardown, h);
      assert Lookup(results, h) == HostVerdict(execs, b, teardown, h);
    }
  }

  /** `stop_all` on a discovery snapshot; `teardown` is what each executor's teardown on a host comes to. */
  method StopAll(d: Discovery, teardown: (string, string) -> Verdict, dryRun: bool, store: JobStore)
    returns (r: Report, ghost order: seq<string>, ghost m: map<string, seq<string>>, ghost execs: seq<string>,
             ghost b: Batches)
    modifies store
    ensures d.total == 0 ==> r == Report(0, 0, [], [], d.errors)
    ensures d.total > 0 ==> Collected(order, m, Pairs(d)) && Splits(execs, b, d, m)
    ensures d.total == 0 || dryRun ==> store.jobs == old(store.jobs)
    ensures d.total > 0 && dryRun ==> r == Report(|d.groups| + |d.solo|, d.total, order, [], map[])
    ensures d.total > 0 && !dryRun ==> Accounted(r, d, order, execs, b, teardown)
    ensures d.total > 0 && !dryRun ==>
      forall id :: id in store.jobs <==> id in old(store.jobs) && !HasCleanJob(d, r.hostsFailed, id)
  {
    order, m, execs, b := [], map[], [], map[];
    if d.total == 0 {
      r := Report(0, 0, [], [], d.errors);
      return;
    }
    var hosts, containers := ContainersByHost(d);
    var names, batches := GroupByExecutor(hosts, containers, d);
    order, m, execs, b := hosts, containers, names, batches;
    var results := TearDown(names, batches, teardown);
    var failed := FailedHosts(hosts, results);
    if dryRun {
      r := Report(|d.groups| + |d.solo|, d.total, hosts, [], map[]);
      return;
    }
    var removed := SumRemoved(hosts, results, execs, b, teardown);
    var stopped := store.ForgetStopped(d, failed);
    var hostsStopped := Filter(StoppedIn(results), hosts);
    r := Report(stopped, removed, hostsStopped, failed, d.errors);
    SweepIsAccounted(order, m, execs, b, d, teardown, results, r);
  }

  // ---- what the record store is left with ----

  /** A host, failed, still carries a container of a job with that id. */
  ghost predicate HasLiveJob(d: Discovery, failed: seq<string>, id: string) {
    || (exists g :: g in d.groups && g.clusterId == id && !CleanGroup(g, failed))
    || (exists s :: s in d.solo && SoloId(s.name) == id && s.host in failed)
  }

  function HostsOfGroup(g: Group): set<string> {
    set p | p in g.members :: p.0
  }

  /** The host sets of the discovered jobs that share a record. */
  ghost function HostSets(d: Discovery, id: string): set<set<string>> {
    (set g | g in d.groups && g.clusterId == id :: HostsOfGroup(g))
    + (set s | s in d.solo && SoloId(s.name) == id :: {s.host})
  }

  /** All jobs that share the record run on the same set of hosts. */
  ghost predicate SameHosts(d: Discovery, id: string) {
    forall a, b :: a in HostSets(d, id) && b in HostSets(d, id) ==> a == b
  }

  ghost predicate Spared(hosts: set<string>, failed: seq<string>) {
    forall h :: h in hosts ==> h !in failed
  }

  /** A record has a clean job, or a live one, when some host set of its jobs is spared, or hit. */
  lemma JobsByHostSets(d: Discovery, failed: seq<string>, id: string)
    ensures HasCleanJob(d, failed, id) <==> exists a :: a in HostSets(d, id) && Spared(a, failed)
    ensures HasLiveJob(d, failed, id) <==> exists a :: a in HostSets(d, id) && !Spared(a, failed)
  {
    forall g | g in d.groups ensures CleanGroup(g, failed) <==> Spared(HostsOfGroup(g), failed) {
      if CleanGroup(g, failed) {
        forall h | h in HostsOfGroup(g) ensures h !in failed {
          var p :| p in g.members && p.0 == h;
        }
      }
      if Spared(HostsOfGroup(g), failed) {
        forall p | p in g.members ensures p.0 !in failed {
          assert p.0 in HostsOfGroup(g);
        }
      }
    }
    forall s: Solo ensures s.host !in failed <==> Spared({s.host}, failed) {
      assert s.host in {s.host};
    }
    forall g | g in d.groups && g.clusterId == id ensures HostsOfGroup(g) in HostSets(d, id) {}
    forall s | s in d.solo && SoloId(s.name) == id ensures {s.host} in HostSets(d, id) {}
  }

  /** A failed host that tells two host sets apart. */
  lemma TellsApart(a: set<string>, b: set<string>) returns (failed: seq<string>)
    requires a != b
    ensures Spared(a, failed) != Spared(b, failed)
  {
    var h: string;
    if a <= b {
      assert !(b <= a);
      h :| h in b && h !in a;
    } else {
      h :| h in a && h !in b;
    }
    failed := [h];
    assert h in failed;
  }

  ghost predicate Discovered(d: Discovery, id: string) {
    HostSets(d, id) != {}
  }

  /** The record survives exactly while a failed host still carries a job of that id. */
  ghost predicate KeptIffLive(d: Discovery, failed: seq<string>, id: string) {
    !HasCleanJob(d, failed, id) <==> HasLiveJob(d, failed, id)
  }

  /**
   * Whatever hosts fail, the record of a discovered id survives exactly while a job of it may still be there, if and
   * only if all jobs that share the id run on the same set of hosts.
   */
  lemma RecordKeptIffJobLive(d: Discovery, id: string)
    requires Discovered(d, id)
    ensures (forall failed :: KeptIffLive(d, failed, id)) <==> SameHosts(d, id)
  {
    if SameHosts(d, id) {
      forall failed ensures KeptIffLive(d, failed, id) {
        JobsByHostSets(d, failed, id);
        var a :| a in HostSets(d, id);
      }
    } else {
      var a, b :| a in HostSets(d, id) && b in HostSets(d, id) && a != b;
      var failed := TellsApart(a, b);
      JobsByHostSets(d, failed, id);
      assert !KeptIffLive(d, failed, id);
    }
  }

  /** One solo name on two hosts shares one record, which is dropped although one of the two hosts failed. */
  lemma SharedSoloNameLosesItsRecord(name: string, a: string, z: string)
    requires a != z
    ensures var d := Discovery([], [Solo(a, name), Solo(z, name)], map[], map[], 2);
      HasCleanJob(d, [z], SoloId(name)) && HasLiveJob(d, [z], SoloId(name))
  {
    var d := Discovery([], [Solo(a, name), Solo(z, name)], map[], map[], 2);
    assert d.solo[0] in d.solo && d.solo[1] in d.solo;
  }

  /** A real sweep never calls an unqueried host a success; a dry run leaves the discovery errors out. */
  lemma SuccessNeedsEveryHost(r: Report, d: Discovery, order: seq<string>, execs: seq<string>, b: Batches,
                              teardown: (string, string) -> Verdict)
    requires Accounted(r, d, order, execs, b, teardown)
    ensures Success(r) <==> d.errors == map[] && forall h :: h in order ==> Confirmed(b, teardown, h)
  {
    if r.hostsFailed != [] {
      assert r.hostsFailed[0] in r.hostsFailed;
    }
  }
}
