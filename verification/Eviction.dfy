/** Stopping the deployments a launch supersedes (`api/_run.py`, `_evict_superseded_deployments`). */
module Eviction {
  import opened Prelude
  import opened Snapshot
  import opened Exclusion

  /** What really runs on one host. */
  datatype HostLoad = HostLoad(host: string, workloads: seq<Workload>)

  ghost predicate Runs(loads: seq<HostLoad>, h: string, w: Workload) {
    exists l :: l in loads && l.host == h && w in l.workloads
  }

  /**
   * What a status query brings back. A host that cannot be reached is left out, and an executor that fails hides what
   * it runs, so neither the hosts nor their workloads need be all there are.
   */
  datatype Query = Query(answers: set<string>, shows: (string, Workload) -> bool)

  predicate Reports(q: Query, h: string, w: Workload) {
    h in q.answers && q.shows(h, w)
  }

  function Answers(q: Query): HostLoad -> bool {
    (l: HostLoad) => l.host in q.answers
  }

  function Shows(q: Query, h: string): Workload -> bool {
    (w: Workload) => q.shows(h, w)
  }

  function Narrowed(l: HostLoad, q: Query): HostLoad {
    HostLoad(l.host, Filter(Shows(q, l.host), l.workloads))
  }

  /** The snapshot a query takes of what runs. */
  function Answer(loads: seq<HostLoad>, q: Query): seq<HostLoad> {
    var reached := Filter(Answers(q), loads);
    seq(|reached|, i requires 0 <= i < |reached| => Narrowed(reached[i], q))
  }

  lemma AnswerIs(loads: seq<HostLoad>, q: Query, l: HostLoad)
    ensures l in Answer(loads, q) <==> exists r :: r in loads && r.host in q.answers && l == Narrowed(r, q)
  {
    var reached := Filter(Answers(q), loads);
    FilterIs(Answers(q), loads);
    if l in Answer(loads, q) {
      var i :| 0 <= i < |reached| && l == Narrowed(reached[i], q);
      assert reached[i] in reached;
    }
    if r :| r in loads && r.host in q.answers && l == Narrowed(r, q) {
      assert r in reached;
      var i :| 0 <= i < |reached| && reached[i] == r;
      assert Answer(loads, q)[i] == l;
    }
  }

  /**
   * The launch being prepared: its intent, its own cluster id, its candidate hosts, those it is about to use, and the
   * status query its eviction makes, if that succeeds.
   */
  datatype Launch = Launch(intent: string, cid: string, candidates: set<string>, targets: set<string>,
                           query: Option<Query>)

  /** The eviction's own test: label, or textual prefix of the cluster id. */
  predicate EvictMatches(w: Workload, intent: string) {
    w.intentId == Some(intent) || IntentPrefix(intent) <= w.clusterId
  }

  predicate Superseded(w: Workload, n: Launch) {
    w.clusterId != n.cid && EvictMatches(w, n.intent)
  }

  /** Every (deployment, host) pair at which a superseded workload is seen. */
  function SightingsAt(ws: seq<Workload>, h: string, n: Launch): set<(string, string)> {
    set w | w in ws && Superseded(w, n) :: (w.clusterId, h)
  }

  function Sightings(loads: seq<HostLoad>, n: Launch): set<(string, string)> {
    if loads == [] then {}
    else
      var l := loads[|loads| - 1];
      Sightings(loads[..|loads| - 1], n) + SightingsAt(l.workloads, l.host, n)
  }

  /** The deployments that touch a target host. */
  predicate Overlaps(seen: set<(string, string)>, cid: string, targets: set<string>) {
    exists h :: h in targets && (cid, h) in seen
  }

  /** `occupied` holds exactly what was seen, each host of a deployment once. */
  ghost predicate Filed(seen: set<(string, string)>, occupied: map<string, seq<string>>) {
    && (forall cid :: cid in occupied ==> NoDup(occupied[cid]) && occupied[cid] != [])
    && (forall cid, h :: (cid, h) in seen <==> cid in occupied && h in occupied[cid])
  }

  /** And `overlapping` holds the deployments that touch a target, each once. */
  ghost predicate Swept(seen: set<(string, string)>, targets: set<string>,
                        occupied: map<string, seq<string>>, overlapping: seq<string>) {
    && Filed(seen, occupied)
    && NoDup(overlapping)
    && (forall cid :: cid in overlapping <==> Overlaps(seen, cid, targets))
  }

  /** One sighting recorded: `setdefault(cid, [])` and the guarded append. */
  function Note(occupied: map<string, seq<string>>, cid: string, h: string): map<string, seq<string>> {
    var at := if cid in occupied then occupied[cid] else [];
    occupied[cid := if h in at then at else at + [h]]
  }

  function NoteOverlap(overlapping: seq<string>, cid: string, h: string, targets: set<string>): seq<string> {
    if h in targets && cid !in overlapping then overlapping + [cid] else overlapping
  }

  lemma FiledNext(seen: set<(string, string)>, occupied: map<string, seq<string>>, cid: string, h: string)
    requires Filed(seen, occupied)
    ensures Filed(seen + {(cid, h)}, Note(occupied, cid, h))
  {
    var at := if cid in occupied then occupied[cid] else [];
    if h !in at {
      NoDupAppend(at, h);
    }
  }

  lemma SweptNext(seen: set<(string, string)>, targets: set<string>, occupied: map<string, seq<string>>,
                  overlapping: seq<string>, cid: string, h: string)
    requires Swept(seen, targets, occupied, overlapping)
    ensures Swept(seen + {(cid, h)}, targets, Note(occupied, cid, h), NoteOverlap(overlapping, cid, h, targets))
  {
    FiledNext(seen, occupied, cid, h);
    hide Filed;
    var next := seen + {(cid, h)};
    forall c ensures Overlaps(next, c, targets) <==> Overlaps(seen, c, targets) || (c == cid && h in targets) {
      if c == cid && h in targets {
        assert (cid, h) in next;
      }
    }
    hide Overlaps;
  }

  lemma SightingsNext(ws: seq<Workload>, k: nat, h: string, n: Launch)
    requires k < |ws|
    ensures SightingsAt(ws[..k + 1], h, n)
         == SightingsAt(ws[..k], h, n) + if Superseded(ws[k], n) then {(ws[k].clusterId, h)} else {}
  {
    assert ws[..k + 1] == ws[..k] + [ws[k]];
  }

  /** The sweep loops over the snapshot's hosts and their workloads. */
  method Sweep(loads: seq<HostLoad>, n: Launch) returns (occupied: map<string, seq<string>>, overlapping: seq<string>)
    ensures Swept(Sightings(loads, n), n.targets, occupied, overlapping)
  {
    occupied, overlapping := map[], [];
    for i := 0 to |loads|
      invariant Swept(Sightings(loads[..i], n), n.targets, occupied, overlapping)
    {
      var l := loads[i];
      ghost var seen := Sightings(loads[..i], n);
      assert SightingsAt(l.workloads[..0], l.host, n) == {};
      assert seen + {} == seen;
      for k := 0 to |l.workloads|
        invariant Swept(seen + SightingsAt(l.workloads[..k], l.host, n), n.targets, occupied, overlapping)
      {
        var w := l.workloads[k];
        SightingsNext(l.workloads, k, l.host, n);
        ghost var was := seen + SightingsAt(l.workloads[..k], l.host, n);
        if Superseded(w, n) {
          SweptNext(was, n.targets, occupied, overlapping, w.clusterId, l.host);
          occupied := Note(occupied, w.clusterId, l.host);
          overlapping := NoteOverlap(overlapping, w.clusterId, l.host, n.targets);
          assert was + {(w.clusterId, l.host)} == seen + SightingsAt(l.workloads[..k + 1], l.host, n);
        } else {
          assert was == seen + SightingsAt(l.workloads[..k + 1], l.host, n);
        }
      }
      assert l.workloads[..|l.workloads|] == l.workloads;
      assert loads[..i + 1][..i] == loads[..i];
    }
    assert loads[..|loads|] == loads;
  }

  lemma {:induction false} SightingsAre(loads: seq<HostLoad>, n: Launch, cid: string, h: string)
    ensures (cid, h) in Sightings(loads, n) <==> exists w :: Runs(loads, h, w) && w.clusterId == cid && Superseded(w, n)
  {
    if loads != [] {
      var front, last := loads[..|loads| - 1], loads[|loads| - 1];
      SightingsAre(front, n, cid, h);
      assert loads == front + [last];
      forall w ensures Runs(loads, h, w) <==> Runs(front, h, w) || (last.host == h && w in last.workloads) {}
    }
  }

  function IsCandidate(n: Launch): HostLoad -> bool {
    (l: HostLoad) => l.host in n.candidates
  }

  /** What the eviction sees: the query covers the candidate hosts and no others, and it may fail. */
  function Visible(loads: seq<HostLoad>, n: Launch): seq<HostLoad> {
    if n.query.None? then [] else Answer(Filter(IsCandidate(n), loads), n.query.value)
  }

  /** The eviction is shown this workload on this host, if it runs there. */
  predicate Sees(n: Launch, h: string, w: Workload) {
    h in n.candidates && n.query.Some? && Reports(n.query.value, h, w)
  }

  /** Everything superseded that the launch can see. */
  function Seen(loads: seq<HostLoad>, n: Launch): set<(string, string)> {
    Sightings(Visible(loads, n), n)
  }

  lemma VisibleIs(loads: seq<HostLoad>, n: Launch, h: string, w: Workload)
    ensures Runs(Visible(loads, n), h, w) <==> Runs(loads, h, w) && Sees(n, h, w)
  {
    if n.query.Some? {
      var q, near := n.query.value, Filter(IsCandidate(n), loads);
      FilterIs(IsCandidate(n), loads);
      if l :| l in Visible(loads, n) && l.host == h && w in l.workloads {
        AnswerIs(near, q, l);
        var r :| r in near && r.host in q.answers && l == Narrowed(r, q);
        FilterIs(Shows(q, h), r.workloads);
      }
      if l :| l in loads && Sees(n, h, w) && l.host == h && w in l.workloads {
        AnswerIs(near, q, Narrowed(l, q));
        FilterIs(Shows(q, h), l.workloads);
      }
    }
  }

  lemma SeenAre(loads: seq<HostLoad>, n: Launch, cid: string, h: string)
    ensures (cid, h) in Seen(loads, n) <==>
      exists w :: Runs(loads, h, w) && w.clusterId == cid && Superseded(w, n) && Sees(n, h, w)
  {
    SightingsAre(Visible(loads, n), n, cid, h);
    if w :| Runs(Visible(loads, n), h, w) && w.clusterId == cid && Superseded(w, n) {
      VisibleIs(loads, n, h, w);
    }
    if w :| Runs(loads, h, w) && w.clusterId == cid && Superseded(w, n) && Sees(n, h, w) {
      VisibleIs(loads, n, h, w);
    }
  }

  // ---- tearing down ----

  /** What each stop reports and what it really removes, per deployment and host. */
  datatype Teardown = Teardown(raises: string -> bool, confirms: (string, string) -> bool,
                               removes: (string, string) -> bool)

  /** A confirmed removal is a real one. */
  ghost predicate Honest(t: Teardown) {
    forall cid, h :: t.confirms(cid, h) && !t.raises(cid) ==> t.removes(cid, h)
  }

  function Survives(cids: set<string>, seen: set<(string, string)>, h: string, t: Teardown): Workload -> bool {
    (w: Workload) => !(w.clusterId in cids && (w.clusterId, h) in seen && t.removes(w.clusterId, h))
  }

  /** The loads after stopping deployments `cids`, each on the hosts it was seen on. */
  function Stopped(loads: seq<HostLoad>, cids: set<string>, seen: set<(string, string)>, t: Teardown): seq<HostLoad> {
    seq(|loads|, i requires 0 <= i < |loads| =>
      HostLoad(loads[i].host, Filter(Survives(cids, seen, loads[i].host, t), loads[i].workloads)))
  }

  /** A stop takes away exactly what it was aimed at and what it removes. */
  lemma StoppedIs(loads: seq<HostLoad>, cids: set<string>, seen: set<(string, string)>, t: Teardown, i: nat,
                  w: Workload)
    requires i < |loads|
    ensures var r := Stopped(loads, cids, seen, t);
      && |r| == |loads| && r[i].host == loads[i].host
      && (w in r[i].workloads <==>
            && w in loads[i].workloads
            && !(w.clusterId in cids && (w.clusterId, loads[i].host) in seen && t.removes(w.clusterId, loads[i].host)))
  {
    FilterIs(Survives(cids, seen, loads[i].host, t), loads[i].workloads);
  }

  lemma StoppedTwice(loads: seq<HostLoad>, a: set<string>, b: set<string>, seen: set<(string, string)>, t: Teardown)
    ensures Stopped(Stopped(loads, a, seen, t), b, seen, t) == Stopped(loads, a + b, seen, t)
  {
    forall i | 0 <= i < |loads|
      ensures Stopped(Stopped(loads, a, seen, t), b, seen, t)[i] == Stopped(loads, a + b, seen, t)[i]
    {
      var h := loads[i].host;
      FilterFilter(Survives(a, seen, h, t), Survives(b, seen, h, t), Survives(a + b, seen, h, t), loads[i].workloads);
    }
  }

  lemma StoppedNone(loads: seq<HostLoad>, seen: set<(string, string)>, t: Teardown)
    ensures Stopped(loads, {}, seen, t) == loads
  {
    forall i | 0 <= i < |loads| ensures Stopped(loads, {}, seen, t)[i] == loads[i] {
      FilterExtremes(Survives({}, seen, loads[i].host, t), loads[i].workloads);
    }
  }

  /** The deployments the sweep stops: those seen on a target host. */
  function Overlapping(seen: set<(string, string)>, targets: set<string>): set<string> {
    set p | p in seen && p.1 in targets :: p.0
  }

  /** Every id a snapshot shows. */
  function IdsOf(loads: seq<HostLoad>): set<string> {
    set l, w | l in loads && w in l.workloads && w.clusterId != "" :: w.clusterId
  }

  /** The hosts of the cluster; `api.stop` and the container start change what runs there. */
  class Cluster {
    var loads: seq<HostLoad>

    constructor (loads: seq<HostLoad>)
      ensures this.loads == loads
    {
      this.loads := loads;
    }

    /** `api.stop(cluster_id=cid, hosts=hosts)` by its effect; `ok` says whether every host confirmed. */
    method Stop(cid: string, hosts: seq<string>, t: Teardown) returns (raised: bool, ok: bool)
      modifies this
      ensures loads == Stopped(old(loads), {cid}, set h | h in hosts :: (cid, h), t)
      ensures raised == t.raises(cid)
      ensures !raised ==> (ok <==> forall h :: h in hosts ==> t.confirms(cid, h))
    {
      loads := Stopped(loads, {cid}, set h | h in hosts :: (cid, h), t);
      raised := t.raises(cid);
      ok := forall h :: h in hosts ==> t.confirms(cid, h);
    }

    /**
     * The whole sweep: every deployment the query shows on a target is stopped on each host it was shown on. Failures
     * are swallowed; a failed query leaves everything running and observes nothing, which is not the same as observing
     * that nothing runs.
     */
    method Evict(n: Launch, t: Teardown)
      returns (evicted: seq<string>, observed: Option<set<string>>, allConfirmed: bool)
      modifies this
      ensures var seen := Seen(old(loads), n);
        && loads == Stopped(old(loads), Overlapping(seen, n.targets), seen, t)
        && NoDup(evicted)
        && (forall cid :: cid in evicted <==> cid in Overlapping(seen, n.targets) && !t.raises(cid))
        && (allConfirmed <==> forall cid, h :: cid in Overlapping(seen, n.targets) && (cid, h) in seen ==>
              !t.raises(cid) && t.confirms(cid, h))
      ensures n.query.None? ==> observed == None && evicted == [] && loads == old(loads)
      ensures n.query.Some? ==> observed == Some(IdsOf(Visible(old(loads), n)))
    {
      ghost var was, seen := loads, Seen(loads, n);
      StoppedNone(was, seen, t);
      if n.query.None? {
        assert Overlapping(seen, n.targets) == {};
        return [], None, true;
      }
      var status := Visible(loads, n);
      observed := Some(IdsOf(status));
      var occupied, overlapping := Sweep(status, n);
      evicted, allConfirmed := [], true;
      assert ElemsOf(overlapping[..0]) == {};
      for i := 0 to |overlapping|
        invariant loads == Stopped(was, ElemsOf(overlapping[..i]), seen, t)
        invariant NoDup(evicted)
        invariant forall cid :: cid in evicted <==> cid in overlapping[..i] && !t.raises(cid)
        invariant allConfirmed <==> forall cid, h :: cid in overlapping[..i] && (cid, h) in seen ==>
          !t.raises(cid) && t.confirms(cid, h)
      {
        var cid := overlapping[i];
        assert overlapping[..i + 1] == overlapping[..i] + [cid];
        assert ElemsOf(overlapping[..i + 1]) == ElemsOf(overlapping[..i]) + {cid};
        StoppedTwice(was, ElemsOf(overlapping[..i]), {cid}, seen, t);
        assert Overlaps(seen, cid, n.targets);
        assert cid in occupied;
        assert occupied[cid][0] in occupied[cid];
        StoppedWhereSeen(loads, cid, seen, occupied[cid], t);
        var raised, ok := Stop(cid, occupied[cid], t);
        allConfirmed := allConfirmed && !raised && ok;
        if !raised {
          assert cid !in overlapping[..i];
          evicted := evicted + [cid];
        }
      }
      assert overlapping[..|overlapping|] == overlapping;
      assert ElemsOf(overlapping) == Overlapping(seen, n.targets);
    }
  }

  lemma StoppedWhereSeen(loads: seq<HostLoad>, cid: string, seen: set<(string, string)>, hosts: seq<string>,
                         t: Teardown)
    requires forall h :: (cid, h) in seen <==> h in hosts
    ensures Stopped(loads, {cid}, set h | h in hosts :: (cid, h), t) == Stopped(loads, {cid}, seen, t)
  {
    var here := set h | h in hosts :: (cid, h);
    forall i | 0 <= i < |loads| ensures Stopped(loads, {cid}, here, t)[i] == Stopped(loads, {cid}, seen, t)[i] {
      var h := loads[i].host;
      forall w: Workload | w in loads[i].workloads
        ensures Survives({cid}, here, h, t)(w) <==> Survives({cid}, seen, h, t)(w)
      {
        assert w.clusterId == cid ==> ((cid, h) in here <==> (cid, h) in seen);
      }
      FilterAgrees(Survives({cid}, here, h, t), Survives({cid}, seen, h, t), loads[i].workloads);
    }
  }
}
