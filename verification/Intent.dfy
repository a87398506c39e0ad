/** "Is this workload already up?" (`api/_intent.py`, `find_running_intent`). */
module Intent {
  import opened Prelude
  import opened Sorting
  import opened Text
  import opened Snapshot
  import opened Exclusion

  datatype IntentMatch = IntentMatch(clusterId: string, hosts: seq<string>, workload: Workload, others: seq<string>)

  datatype Sighting = Sighting(host: string, workload: Workload)

  // ---- specification: what a scan of the snapshot sees, newest sighting last ----

  function Pairs(h: string, ws: seq<Workload>): seq<Sighting> {
    seq(|ws|, i requires 0 <= i < |ws| => Sighting(h, ws[i]))
  }

  function Scan(hosts: seq<HostEntry>, intent: string): seq<Sighting> {
    if hosts == [] then []
    else
      var o := hosts[|hosts| - 1];
      Scan(hosts[..|hosts| - 1], intent) + Pairs(o.host, Removed(o.workloads, {intent}))
  }

  /** Deployments in the order first seen. */
  function Ids(seen: seq<Sighting>): seq<string> {
    if seen == [] then []
    else
      var last := seen[|seen| - 1].workload.clusterId;
      var r := Ids(seen[..|seen| - 1]);
      if last in r then r else r + [last]
  }

  /** The hosts a deployment was seen on, in query order. */
  function HostsOf(seen: seq<Sighting>, cid: string): seq<string> {
    if seen == [] then []
    else
      var last := seen[|seen| - 1];
      var r := HostsOf(seen[..|seen| - 1], cid);
      if last.workload.clusterId != cid || last.host in r then r else r + [last.host]
  }

  lemma {:induction false} IdsAre(seen: seq<Sighting>, cid: string)
    ensures cid in Ids(seen) <==> exists s :: s in seen && s.workload.clusterId == cid
    ensures cid in Ids(seen) <==> HostsOf(seen, cid) != []
    ensures NoDup(Ids(seen))
  {
    if seen != [] {
      IdsAre(seen[..|seen| - 1], cid);
      assert seen == seen[..|seen| - 1] + [seen[|seen| - 1]];
    }
  }

  lemma {:induction false} HostsAre(seen: seq<Sighting>, cid: string, h: string)
    ensures h in HostsOf(seen, cid) <==> exists s :: s in seen && s.workload.clusterId == cid && s.host == h
    ensures NoDup(HostsOf(seen, cid))
  {
    if seen != [] {
      HostsAre(seen[..|seen| - 1], cid, h);
      assert seen == seen[..|seen| - 1] + [seen[|seen| - 1]];
    }
  }

  /** More hosts first, then the smaller id. */
  function RankLe(seen: seq<Sighting>): (string, string) -> bool {
    (a: string, b: string) =>
      |HostsOf(seen, a)| > |HostsOf(seen, b)| || (|HostsOf(seen, a)| == |HostsOf(seen, b)| && LexLe(a, b))
  }

  function Representative(seen: seq<Sighting>, cid: string): Option<Workload> {
    if seen == [] then None
    else if seen[0].workload.clusterId == cid then Some(seen[0].workload)
    else Representative(seen[1..], cid)
  }

  // ---- the loops ----

  method FindRunningIntent(intent: string, hosts: seq<string>, status: Option<Status>) returns (r: Option<IntentMatch>)
    ensures intent == "" || hosts == [] || status.None? ==> r.None?
    ensures intent != "" && hosts != [] && status.Some? ==> Answers(r, status.value, intent)
  {
    if intent == "" || hosts == [] || status.None? {
      return None;
    }
    var entries := status.value.hosts;
    var order: seq<string> := [];
    var byCluster: map<string, seq<string>> := map[];
    var meta: map<string, Workload> := map[];
    assert forall c :: TalliedAt([], byCluster, meta, c);
    assert Tallied([], order, byCluster, meta);
    hide Tallied, HostsOf, Answers;
    for i := 0 to |entries|
      invariant Tallied(Scan(entries[..i], intent), order, byCluster, meta)
    {
      var occ := entries[i];
      assert entries[..i + 1][..i] == entries[..i];
      ghost var before := Scan(entries[..i], intent);
      assert before + Pairs(occ.host, Removed(occ.workloads[..0], {intent})) == before;
      for k := 0 to |occ.workloads|
        invariant Tallied(before + Pairs(occ.host, Removed(occ.workloads[..k], {intent})), order, byCluster, meta)
      {
        var w := occ.workloads[k];
        ghost var seen := before + Pairs(occ.host, Removed(occ.workloads[..k], {intent}));
        ScanNext(before, occ, k, intent);
        if MatchesIntent(w, intent) {
          TallyNext(seen, order, byCluster, meta, Sighting(occ.host, w));
          var at := if w.clusterId in byCluster then byCluster[w.clusterId] else [];
          order := if w.clusterId in byCluster then order else order + [w.clusterId];
          byCluster := byCluster[w.clusterId := if occ.host in at then at else at + [occ.host]];
          meta := if w.clusterId in meta then meta else meta[w.clusterId := w];
        }
      }
      assert occ.workloads[..|occ.workloads|] == occ.workloads;
    }
    assert entries[..|entries|] == entries;
    if order == [] {
      NothingAnswers(status.value, intent, byCluster, meta);
      return None;
    }
    RankedAnswers(status.value, intent, order, byCluster, meta);
    var ranked := Sort(TallyOrder(byCluster), order);
    r := Some(IntentMatch(ranked[0], byCluster[ranked[0]], meta[ranked[0]], ranked[1..]));
  }

  lemma NothingAnswers(s: Status, intent: string, byCluster: map<string, seq<string>>, meta: map<string, Workload>)
    requires Tallied(Scan(s.hosts, intent), [], byCluster, meta)
    ensures Answers(None, s, intent)
  {
    SeenAnswers(None, s, intent);
  }

  lemma ScanNext(before: seq<Sighting>, o: HostEntry, k: nat, intent: string)
    requires k < |o.workloads|
    ensures before + Pairs(o.host, Removed(o.workloads[..k + 1], {intent}))
         == var seen := before + Pairs(o.host, Removed(o.workloads[..k], {intent}));
            if MatchesIntent(o.workloads[k], intent) then seen + [Sighting(o.host, o.workloads[k])] else seen
  {
    var w := o.workloads[k];
    assert o.workloads[..k + 1] == o.workloads[..k] + [w];
    FilterAppend(Own({intent}), o.workloads[..k], [w]);
    Single(w, {intent});
    MatchesOne(w, intent);
  }

  function Size(byCluster: map<string, seq<string>>, c: string): nat {
    if c in byCluster then |byCluster[c]| else 0
  }

  predicate ByTally(byCluster: map<string, seq<string>>, a: string, b: string) {
    Size(byCluster, a) > Size(byCluster, b) || (Size(byCluster, a) == Size(byCluster, b) && LexLe(a, b))
  }

  function TallyOrder(byCluster: map<string, seq<string>>): (string, string) -> bool {
    (a: string, b: string) => ByTally(byCluster, a, b)
  }

  lemma TallyIsPreorder(byCluster: map<string, seq<string>>)
    ensures TotalPreorder(TallyOrder(byCluster))
  {
    LexIsTotalPreorder();
    var leq := TallyOrder(byCluster);
    assert forall a, b :: leq(a, b) <==> ByTally(byCluster, a, b);
    assert forall a, b :: LexLe(a, b) || LexLe(b, a);
    assert forall a, b, c :: LexLe(a, b) && LexLe(b, c) ==> LexLe(a, c);
  }

  /** The tables hold for `c` the hosts and the first workload seen. */
  ghost predicate TalliedAt(seen: seq<Sighting>, byCluster: map<string, seq<string>>, meta: map<string, Workload>,
                            c: string) {
    && (c in byCluster ==> byCluster[c] == HostsOf(seen, c))
    && Representative(seen, c) == if c in meta then Some(meta[c]) else None
  }

  ghost predicate Tallied(seen: seq<Sighting>, order: seq<string>, byCluster: map<string, seq<string>>,
                          meta: map<string, Workload>) {
    && order == Ids(seen)
    && byCluster.Keys == ElemsOf(order) == meta.Keys
    && (forall c :: TalliedAt(seen, byCluster, meta, c))
  }

  lemma {:induction false} RepresentativeAppend(seen: seq<Sighting>, s: Sighting, c: string)
    ensures Representative(seen + [s], c) ==
      if Representative(seen, c).Some? then Representative(seen, c)
      else if s.workload.clusterId == c then Some(s.workload) else None
  {
    if seen == [] {
      assert (seen + [s])[1..] == [];
    } else {
      assert (seen + [s])[1..] == seen[1..] + [s];
      RepresentativeAppend(seen[1..], s, c);
    }
  }

  lemma HostsNext(seen: seq<Sighting>, s: Sighting, c: string)
    ensures Ids(seen + [s])
         == if s.workload.clusterId in Ids(seen) then Ids(seen) else Ids(seen) + [s.workload.clusterId]
    ensures HostsOf(seen + [s], c) ==
      if s.workload.clusterId != c || s.host in HostsOf(seen, c) then HostsOf(seen, c) else HostsOf(seen, c) + [s.host]
    ensures c !in Ids(seen) ==> HostsOf(seen, c) == []
  {
    assert (seen + [s])[..|seen|] == seen;
    IdsAre(seen, c);
  }

  function NoteHost(byCluster: map<string, seq<string>>, s: Sighting): map<string, seq<string>> {
    var cid := s.workload.clusterId;
    var at := if cid in byCluster then byCluster[cid] else [];
    byCluster[cid := if s.host in at then at else at + [s.host]]
  }

  function NoteMeta(meta: map<string, Workload>, s: Sighting): map<string, Workload> {
    if s.workload.clusterId in meta then meta else meta[s.workload.clusterId := s.workload]
  }

  lemma NotedKeys(byCluster: map<string, seq<string>>, meta: map<string, Workload>, s: Sighting)
    ensures NoteHost(byCluster, s).Keys == byCluster.Keys + {s.workload.clusterId}
    ensures NoteMeta(meta, s).Keys == meta.Keys + {s.workload.clusterId}
  {
  }

  lemma TallyAt(seen: seq<Sighting>, order: seq<string>, byCluster: map<string, seq<string>>,
                meta: map<string, Workload>,
                s: Sighting, c: string)
    requires Tallied(seen, order, byCluster, meta)
    ensures TalliedAt(seen + [s], NoteHost(byCluster, s), NoteMeta(meta, s), c)
  {
    assert TalliedAt(seen, byCluster, meta, c);
    HostsNext(seen, s, c);
    RepresentativeAppend(seen, s, c);
  }

  lemma TallyNext(seen: seq<Sighting>, order: seq<string>, byCluster: map<string, seq<string>>,
                  meta: map<string, Workload>,
                  s: Sighting)
    requires Tallied(seen, order, byCluster, meta)
    ensures Tallied(seen + [s], if s.workload.clusterId in byCluster then order else order + [s.workload.clusterId],
                    NoteHost(byCluster, s), NoteMeta(meta, s))
  {
    HostsNext(seen, s, "");
    NotedKeys(byCluster, meta, s);
    var order' := if s.workload.clusterId in byCluster then order else order + [s.workload.clusterId];
    assert ElemsOf(order') == ElemsOf(order) + {s.workload.clusterId};
    hide TalliedAt, Ids, NoteHost, NoteMeta;
    forall c ensures TalliedAt(seen + [s], NoteHost(byCluster, s), NoteMeta(meta, s), c) {
      TallyAt(seen, order, byCluster, meta, s, c);
    }
  }

  // ---- what an answer means ----

  ghost predicate RunsAs(s: Status, intent: string, cid: string, h: string) {
    exists o, w :: o in s.hosts && w in o.workloads && o.host == h && w.clusterId == cid && MatchesIntent(w, intent)
  }

  ghost predicate Runs(s: Status, intent: string, cid: string) {
    exists h :: RunsAs(s, intent, cid, h)
  }

  /** The answer is the widest matching deployment, least id on ties, complete in hosts and in rivals. */
  ghost predicate Answers(r: Option<IntentMatch>, s: Status, intent: string) {
    var seen := Scan(s.hosts, intent);
    match r
    case None => forall cid :: !Runs(s, intent, cid)
    case Some(m) =>
      && Runs(s, intent, m.clusterId)
      && m.hosts == HostsOf(seen, m.clusterId)
      && (forall h :: h in m.hosts <==> RunsAs(s, intent, m.clusterId, h))
      && Representative(seen, m.clusterId) == Some(m.workload)
      && NoDup([m.clusterId] + m.others)
      && (forall cid :: cid in m.others <==> Runs(s, intent, cid) && cid != m.clusterId)
      && Sorted(RankLe(seen), [m.clusterId] + m.others)
  }

  /** The same in terms of what the scan saw. */
  ghost predicate AnswersSeen(r: Option<IntentMatch>, seen: seq<Sighting>) {
    match r
    case None => Ids(seen) == []
    case Some(m) =>
      && m.hosts == HostsOf(seen, m.clusterId)
      && Representative(seen, m.clusterId) == Some(m.workload)
      && NoDup([m.clusterId] + m.others)
      && ElemsOf([m.clusterId] + m.others) == ElemsOf(Ids(seen))
      && Sorted(RankLe(seen), [m.clusterId] + m.others)
  }

  lemma SeenAnswers(r: Option<IntentMatch>, s: Status, intent: string)
    requires AnswersSeen(r, Scan(s.hosts, intent))
    ensures Answers(r, s, intent)
  {
    var seen := Scan(s.hosts, intent);
    forall cid ensures Runs(s, intent, cid) <==> cid in ElemsOf(Ids(seen)) { RunsSeen(s, intent, cid); }
    if r.Some? {
      var m := r.value;
      var all := [m.clusterId] + m.others;
      assert all[0] == m.clusterId && forall k :: 0 < k < |all| ==> all[k] == m.others[k - 1];
      assert m.clusterId in ElemsOf(all);
      forall k | 0 <= k < |m.others| ensures m.others[k] != m.clusterId { assert all[k + 1] == m.others[k]; }
      forall h ensures h in m.hosts <==> RunsAs(s, intent, m.clusterId, h) { RunsAsSeen(s, intent, m.clusterId, h); }
      forall cid ensures cid in m.others <==> Runs(s, intent, cid) && cid != m.clusterId {
        assert cid in ElemsOf(all) <==> cid == m.clusterId || cid in m.others;
      }
    }
  }

  lemma {:induction false} ScanIs(hosts: seq<HostEntry>, intent: string, x: Sighting)
    ensures x in Scan(hosts, intent) <==>
      exists o :: o in hosts && o.host == x.host && x.workload in o.workloads && MatchesIntent(x.workload, intent)
  {
    if hosts != [] {
      var front, o := hosts[..|hosts| - 1], hosts[|hosts| - 1];
      ScanIs(front, intent, x);
      assert hosts == front + [o];
      KeptIs(o.workloads, {intent});
      MatchesOne(x.workload, intent);
      var ps := Pairs(o.host, Removed(o.workloads, {intent}));
      assert x in ps <==> x.host == o.host && x.workload in Removed(o.workloads, {intent}) by {
        if x.host == o.host && x.workload in Removed(o.workloads, {intent}) {
          var i :| 0 <= i < |Removed(o.workloads, {intent})| && Removed(o.workloads, {intent})[i] == x.workload;
          assert ps[i] == x;
        }
      }
    }
  }

  lemma RunsAsSeen(s: Status, intent: string, cid: string, h: string)
    ensures RunsAs(s, intent, cid, h) <==> h in HostsOf(Scan(s.hosts, intent), cid)
  {
    var seen := Scan(s.hosts, intent);
    if RunsAs(s, intent, cid, h) {
      var o, w :| o in s.hosts && w in o.workloads && o.host == h && w.clusterId == cid && MatchesIntent(w, intent);
      ScanIs(s.hosts, intent, Sighting(h, w));
    }
    HostsAre(seen, cid, h);
    if h in HostsOf(seen, cid) {
      var x :| x in seen && x.workload.clusterId == cid && x.host == h;
      ScanIs(s.hosts, intent, x);
    }
  }

  lemma RunsSeen(s: Status, intent: string, cid: string)
    ensures Runs(s, intent, cid) <==> cid in Ids(Scan(s.hosts, intent))
  {
    var seen := Scan(s.hosts, intent);
    IdsAre(seen, cid);
    if Runs(s, intent, cid) {
      var h :| RunsAs(s, intent, cid, h);
      RunsAsSeen(s, intent, cid, h);
    }
    if cid in Ids(seen) {
      assert HostsOf(seen, cid)[0] in HostsOf(seen, cid);
      RunsAsSeen(s, intent, cid, HostsOf(seen, cid)[0]);
    }
  }

  lemma RankedIsSorted(seen: seq<Sighting>, order: seq<string>, byCluster: map<string, seq<string>>)
    requires order == Ids(seen) && byCluster.Keys == ElemsOf(order)
    requires forall c :: c in byCluster ==> byCluster[c] == HostsOf(seen, c)
    ensures var ranked := Sort(TallyOrder(byCluster), order);
      Sorted(RankLe(seen), ranked) && NoDup(ranked) && ElemsOf(ranked) == ElemsOf(order) && |ranked| == |order|
  {
    var ranked := Sort(TallyOrder(byCluster), order);
    TallyIsPreorder(byCluster);
    SortKeeps(TallyOrder(byCluster), order);
    SortSorted(TallyOrder(byCluster), order);
    IdsAre(seen, "");
    NoDupCounts(order);
    NoDupCounts(ranked);
    forall i, j | 0 <= i < j < |ranked| ensures RankLe(seen)(ranked[i], ranked[j]) {
      assert ranked[i] in ranked && ranked[j] in ranked;
      assert TallyOrder(byCluster)(ranked[i], ranked[j]);
    }
  }

  lemma RankedAnswers(s: Status, intent: string, order: seq<string>, byCluster: map<string, seq<string>>,
                      meta: map<string, Workload>)
    requires Tallied(Scan(s.hosts, intent), order, byCluster, meta) && order != []
    ensures var ranked := Sort(TallyOrder(byCluster), order);
      ranked != [] && ranked[0] in byCluster && ranked[0] in meta
      && Answers(Some(IntentMatch(ranked[0], byCluster[ranked[0]], meta[ranked[0]], ranked[1..])), s, intent)
  {
    var seen := Scan(s.hosts, intent);
    var ranked := Sort(TallyOrder(byCluster), order);
    forall c | c in byCluster ensures byCluster[c] == HostsOf(seen, c) {
      assert TalliedAt(seen, byCluster, meta, c);
    }
    RankedIsSorted(seen, order, byCluster);
    assert ranked[0] in ElemsOf(ranked);
    assert TalliedAt(seen, byCluster, meta, ranked[0]);
    assert [ranked[0]] + ranked[1..] == ranked;
    SeenAnswers(Some(IntentMatch(ranked[0], byCluster[ranked[0]], meta[ranked[0]], ranked[1..])), s, intent);
  }

  /** The hosts of a snapshot that run a deployment of the intent. */
  ghost function Where(s: Status, intent: string, cid: string): set<string> {
    set o | o in s.hosts && RunsAs(s, intent, cid, o.host) :: o.host
  }

  lemma WhereSeen(s: Status, intent: string, cid: string)
    ensures |HostsOf(Scan(s.hosts, intent), cid)| == |Where(s, intent, cid)|
  {
    var hs := HostsOf(Scan(s.hosts, intent), cid);
    forall h ensures h in Where(s, intent, cid) <==> h in hs {
      RunsAsSeen(s, intent, cid, h);
      if h in hs {
        var o, w :| o in s.hosts && w in o.workloads && o.host == h && w.clusterId == cid && MatchesIntent(w, intent);
      }
    }
    HostsAre(Scan(s.hosts, intent), cid, "");
    NoDupCardinality(hs);
    assert Where(s, intent, cid) == ElemsOf(hs);
  }

  /**
   * The answer and its rivals by their hosts: each runs on more hosts than the next, or on as many and comes before it
   * in code-point order.
   */
  lemma WidestComesFirst(m: IntentMatch, s: Status, intent: string, i: nat, j: nat)
    requires Answers(Some(m), s, intent) && i < j <= |m.others|
    ensures var all := [m.clusterId] + m.others;
      || |Where(s, intent, all[i])| > |Where(s, intent, all[j])|
      || (|Where(s, intent, all[i])| == |Where(s, intent, all[j])|
          && (all[i] <= all[j] ||
              exists k :: 0 <= k < |all[i]| && k < |all[j]| && all[i][..k] == all[j][..k] && all[i][k] < all[j][k]))
  {
    var all := [m.clusterId] + m.others;
    assert RankLe(Scan(s.hosts, intent))(all[i], all[j]);
    WhereSeen(s, intent, all[i]);
    WhereSeen(s, intent, all[j]);
    LexLeIs(all[i], all[j]);
  }

  lemma {:induction false} HostsOfAppend(a: seq<Sighting>, b: seq<Sighting>, cid: string)
    ensures HostsOf(a, cid) <= HostsOf(a + b, cid)
  {
    if b == [] {
      assert a + b == a;
    } else {
      assert (a + b)[..|a + b| - 1] == a + b[..|b| - 1];
      HostsOfAppend(a, b[..|b| - 1], cid);
    }
  }

  lemma {:induction false} HostsSoFar(hosts: seq<HostEntry>, intent: string, cid: string, n: nat)
    requires n <= |hosts|
    ensures HostsOf(Scan(hosts[..n], intent), cid) <= HostsOf(Scan(hosts, intent), cid)
    decreases |hosts|
  {
    if n == |hosts| {
      assert hosts[..n] == hosts;
    } else {
      var k := |hosts| - 1;
      var o := hosts[k];
      assert hosts[..k][..n] == hosts[..n];
      HostsSoFar(hosts[..k], intent, cid, n);
      HostsOfAppend(Scan(hosts[..k], intent), Pairs(o.host, Removed(o.workloads, {intent})), cid);
    }
  }

  /** Entry `i` of the snapshot is the first that shows the deployment on this host. */
  ghost predicate FirstShownAt(s: Status, intent: string, cid: string, h: string, i: nat) {
    && i < |s.hosts| && s.hosts[i].host == h
    && RunsAs(Status(s.hosts[..i + 1]), intent, cid, h) && !RunsAs(Status(s.hosts[..i]), intent, cid, h)
  }

  lemma RunsAsGrows(s: Status, intent: string, cid: string, h: string, a: nat, b: nat)
    requires a <= |s.hosts| && b <= |s.hosts|
    ensures a <= b && RunsAs(Status(s.hosts[..a]), intent, cid, h) ==> RunsAs(Status(s.hosts[..b]), intent, cid, h)
  {
    if a <= b {
      forall o | o in s.hosts[..a] ensures o in s.hosts[..b] {
        var y :| 0 <= y < a && s.hosts[..a][y] == o;
        assert s.hosts[..b][y] == o;
      }
    }
  }

  /** Whoever stands earlier in the host list was shown no later. */
  lemma ShownNoLater(s: Status, intent: string, cid: string, p: nat, q: nat, n: nat)
    requires p < q < |HostsOf(Scan(s.hosts, intent), cid)| && n <= |s.hosts|
    requires RunsAs(Status(s.hosts[..n]), intent, cid, HostsOf(Scan(s.hosts, intent), cid)[q])
    ensures RunsAs(Status(s.hosts[..n]), intent, cid, HostsOf(Scan(s.hosts, intent), cid)[p])
  {
    hide RunsAs, HostsOf, Scan;
    var hs, upTo := HostsOf(Scan(s.hosts, intent), cid), HostsOf(Scan(s.hosts[..n], intent), cid);
    HostsSoFar(s.hosts, intent, cid, n);
    RunsAsSeen(Status(s.hosts[..n]), intent, cid, hs[q]);
    var x :| 0 <= x < |upTo| && upTo[x] == hs[q];
    HostsAre(Scan(s.hosts, intent), cid, "");
    assert hs[x] == hs[q];
    assert upTo[p] == hs[p];
    RunsAsSeen(Status(s.hosts[..n]), intent, cid, hs[p]);
  }

  lemma AnswerHosts(m: IntentMatch, s: Status, intent: string)
    requires Answers(Some(m), s, intent)
    ensures m.hosts == HostsOf(Scan(s.hosts, intent), m.clusterId)
  {
  }

  /** The hosts of the answer are in the order of the snapshot. */
  lemma HostsInQueryOrder(m: IntentMatch, s: Status, intent: string, p: nat, q: nat, i: nat, j: nat)
    requires Answers(Some(m), s, intent) && p < q < |m.hosts|
    requires FirstShownAt(s, intent, m.clusterId, m.hosts[p], i)
    requires FirstShownAt(s, intent, m.clusterId, m.hosts[q], j)
    ensures i < j
  {
    hide RunsAs, HostsOf, Scan, Answers;
    AnswerHosts(m, s, intent);
    HostsAre(Scan(s.hosts, intent), m.clusterId, "");
    ShownNoLater(s, intent, m.clusterId, p, q, j + 1);
    RunsAsGrows(s, intent, m.clusterId, m.hosts[p], j + 1, i);
  }

  /** The representative is a workload of the answer, shown on the first of its hosts. */
  lemma {:induction false} RepresentativeIs(seen: seq<Sighting>, cid: string)
    ensures Representative(seen, cid).Some? ==>
      HostsOf(seen, cid) != [] && Sighting(HostsOf(seen, cid)[0], Representative(seen, cid).value) in seen
    ensures Representative(seen, cid).Some? ==> Representative(seen, cid).value.clusterId == cid
    ensures Representative(seen, cid).None? ==> HostsOf(seen, cid) == []
  {
    if seen != [] {
      var k := |seen| - 1;
      RepresentativeIs(seen[..k], cid);
      RepresentativeAppend(seen[..k], seen[k], cid);
      assert seen == seen[..k] + [seen[k]];
    }
  }

  lemma RepresentativeRuns(m: IntentMatch, s: Status, intent: string)
    requires Answers(Some(m), s, intent)
    ensures m.hosts != [] && m.workload.clusterId == m.clusterId && MatchesIntent(m.workload, intent)
    ensures exists o :: o in s.hosts && o.host == m.hosts[0] && m.workload in o.workloads
  {
    var seen := Scan(s.hosts, intent);
    RepresentativeIs(seen, m.clusterId);
    ScanIs(s.hosts, intent, Sighting(m.hosts[0], m.workload));
  }

  /** There is one right answer. */
  lemma AnswerUnique(a: Option<IntentMatch>, b: Option<IntentMatch>, s: Status, intent: string)
    requires Answers(a, s, intent) && Answers(b, s, intent)
    ensures a == b
  {
    assert a.None? <==> b.None?;
    if a.Some? {
      var x, y := [a.value.clusterId] + a.value.others, [b.value.clusterId] + b.value.others;
      SameElements(x, y, s, intent);
      var le := RankLe(Scan(s.hosts, intent));
      forall p, q | p in x && q in x && le(p, q) && le(q, p) ensures p == q {
        LexTotal(p, q);
      }
      SortedUnique(RankLe(Scan(s.hosts, intent)), x, y);
      assert a.value.others == x[1..] == y[1..] == b.value.others;
    }
  }

  lemma SameElements(x: seq<string>, y: seq<string>, s: Status, intent: string)
    requires NoDup(x) && NoDup(y)
    requires forall c :: c in x <==> Runs(s, intent, c)
    requires forall c :: c in y <==> Runs(s, intent, c)
    ensures multiset(x) == multiset(y)
  {
    NoDupCounts(x);
    NoDupCounts(y);
    forall c ensures multiset(x)[c] == multiset(y)[c] {
      assert c in x <==> c in multiset(x);
      assert c in y <==> c in multiset(y);
      assert multiset(x)[c] <= 1 && multiset(y)[c] <= 1;
    }
  }

  // ---- against the planner's exclusion ----

  /** On a snapshot with the intent subtracted, nothing is ever found running. */
  lemma NothingFoundAfterExclusion(s: Status, intent: string, r: Option<IntentMatch>)
    requires Answers(r, Excluded(s, {intent}), intent)
    ensures r.None?
  {
    var e := Excluded(s, {intent});
    if r.Some? {
      var h :| RunsAs(e, intent, r.value.clusterId, h);
      var o, w :| o in e.hosts && w in o.workloads && o.host == h && w.clusterId == r.value.clusterId
        && MatchesIntent(w, intent);
      var i :| 0 <= i < |e.hosts| && e.hosts[i] == o;
      KeptIs(s.hosts[i].workloads, {intent});
      MatchesOne(w, intent);
    }
  }

  lemma {:induction false} ScanKeepsOthers(hosts: seq<HostEntry>, intent: string, other: string)
    requires forall o, w :: o in hosts && w in o.workloads ==> !(MatchesIntent(w, intent) && MatchesIntent(w, other))
    ensures Scan(Excluded(Status(hosts), {other}).hosts, intent) == Scan(hosts, intent)
  {
    var e := Excluded(Status(hosts), {other}).hosts;
    if hosts != [] {
      var k := |hosts| - 1;
      var front, o := hosts[..k], hosts[k];
      ScanKeepsOthers(front, intent, other);
      assert e[..k] == Excluded(Status(front), {other}).hosts;
      assert o in hosts;
      KeptIs(o.workloads, {other});
      forall w | w in o.workloads ensures Own({intent})(w) ==> Foreign({other})(w) {
        MatchesOne(w, intent);
        MatchesOne(w, other);
      }
      FilterFilter(Foreign({other}), Own({intent}), Own({intent}), o.workloads);
    }
  }

  /** Subtracting another intent leaves the answer unchanged when no workload belongs to both. */
  lemma ExcludingAnotherChangesNothing(s: Status, intent: string, other: string, a: Option<IntentMatch>,
                                       b: Option<IntentMatch>)
    requires forall o, w :: o in s.hosts && w in o.workloads ==> !(MatchesIntent(w, intent) && MatchesIntent(w, other))
    requires Answers(a, s, intent) && Answers(b, Excluded(s, {other}), intent)
    ensures a == b
  {
    var e := Excluded(s, {other});
    ScanKeepsOthers(s.hosts, intent, other);
    forall cid, h ensures RunsAs(s, intent, cid, h) <==> RunsAs(e, intent, cid, h) {
      RunsAsSeen(s, intent, cid, h);
      RunsAsSeen(e, intent, cid, h);
    }
    forall cid ensures Runs(s, intent, cid) <==> Runs(e, intent, cid) {
      RunsSeen(s, intent, cid);
      RunsSeen(e, intent, cid);
    }
    AnswerUnique(a, b, s, intent);
  }
}
