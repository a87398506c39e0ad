/**
 * The two halves of a relaunch: what the planner's snapshot assumed gone (`exclude_intent_id`) against
 * what eviction and the runtime's own clean-up really remove (`api/_run.py`, `api/_hosts.py`).
 */
module Halves {
  import opened Prelude
  import opened Snapshot
  import opened Exclusion
  import opened Eviction

  /** Status providers report each deployment once per host. */
  ghost predicate DistinctIds(loads: seq<HostLoad>) {
    forall l :: l in loads ==> DistinctOn(l.workloads)
  }

  ghost predicate DistinctOn(ws: seq<Workload>) {
    forall i, j :: 0 <= i < j < |ws| ==> ws[i].clusterId != ws[j].clusterId
  }

  /** Every stop the sweep issues really removes what it was aimed at. */
  ghost predicate RemovesAll(loads: seq<HostLoad>, n: Launch, t: Teardown) {
    forall cid, h :: cid in Overlapping(Seen(loads, n), n.targets) && (cid, h) in Seen(loads, n) ==> t.removes(cid, h)
  }

  /** A sweep that confirmed everything removed everything. */
  lemma ConfirmedRemovesAll(loads: seq<HostLoad>, n: Launch, t: Teardown)
    requires Honest(t)
    requires forall cid, h :: cid in Overlapping(Seen(loads, n), n.targets) && (cid, h) in Seen(loads, n) ==>
      !t.raises(cid) && t.confirms(cid, h)
    ensures RemovesAll(loads, n, t)
  {
  }

  function NotNamed(cid: string): Workload -> bool {
    (w: Workload) => w.clusterId != cid
  }

  /** The runtime's first step: on its target hosts a launch removes containers of its own cluster id by name. */
  function CleanedOf(loads: seq<HostLoad>, n: Launch): seq<HostLoad> {
    seq(|loads|, i requires 0 <= i < |loads| =>
      if loads[i].host in n.targets then HostLoad(loads[i].host, Filter(NotNamed(n.cid), loads[i].workloads))
      else loads[i])
  }

  /** What is left when the containers of the new launch are about to start. */
  function LeftOver(loads: seq<HostLoad>, n: Launch, t: Teardown): (r: seq<HostLoad>)
    ensures |r| == |loads|
    ensures forall i :: 0 <= i < |r| ==> r[i].host == loads[i].host
  {
    CleanedOf(Stopped(loads, Overlapping(Seen(loads, n), n.targets), Seen(loads, n), t), n)
  }

  /** The eviction is shown this workload there, and the stop issued for its deployment removes it. */
  predicate Reached(n: Launch, t: Teardown, h: string, w: Workload) {
    Sees(n, h, w) && t.removes(w.clusterId, h)
  }

  /** What stays on a target host: what goes by another id and was not, or not with effect, stopped as superseded. */
  function Remains(n: Launch, t: Teardown, h: string): Workload -> bool {
    (w: Workload) => w.clusterId != n.cid && !(EvictMatches(w, n.intent) && Reached(n, t, h, w))
  }

  ghost predicate DistinctHosts(loads: seq<HostLoad>) {
    forall j, k :: 0 <= j < k < |loads| ==> loads[j].host != loads[k].host
  }

  lemma RunsOnHost(loads: seq<HostLoad>, i: nat, w: Workload)
    requires i < |loads| && DistinctHosts(loads)
    ensures Runs(loads, loads[i].host, w) <==> w in loads[i].workloads
  {
    assert loads[i] in loads;
    if l :| l in loads && l.host == loads[i].host && w in l.workloads {
      assert l == loads[i];
    }
  }

  lemma SeenOnHost(loads: seq<HostLoad>, i: nat, w: Workload, n: Launch)
    requires i < |loads| && w in loads[i].workloads && DistinctIds(loads) && DistinctHosts(loads)
    ensures (w.clusterId, loads[i].host) in Seen(loads, n) <==> Superseded(w, n) && Sees(n, loads[i].host, w)
  {
    var h := loads[i].host;
    SeenAre(loads, n, w.clusterId, h);
    RunsOnHost(loads, i, w);
    assert loads[i] in loads;
    if x :| Runs(loads, h, x) && x.clusterId == w.clusterId && Superseded(x, n) && Sees(n, h, x) {
      RunsOnHost(loads, i, x);
      assert x == w;
    }
  }

  /** For every launch, whatever its query showed and its stops did: exactly what remains on a target host. */
  lemma LeftOnTarget(loads: seq<HostLoad>, i: nat, n: Launch, t: Teardown)
    requires i < |loads| && loads[i].host in n.targets
    requires DistinctIds(loads) && DistinctHosts(loads)
    ensures LeftOver(loads, n, t)[i]
         == HostLoad(loads[i].host, Filter(Remains(n, t, loads[i].host), loads[i].workloads))
  {
    var ws, h, seen := loads[i].workloads, loads[i].host, Seen(loads, n);
    var cids := Overlapping(seen, n.targets);
    forall w | w in ws ensures Remains(n, t, h)(w) <==> Survives(cids, seen, h, t)(w) && NotNamed(n.cid)(w) {
      SeenOnHost(loads, i, w, n);
      if (w.clusterId, h) in seen {
        assert w.clusterId in cids;
      }
    }
    FilterFilter(Survives(cids, seen, h, t), NotNamed(n.cid), Remains(n, t, h), ws);
  }

  lemma FiltersEqualIff<T(!new)>(p: T -> bool, q: T -> bool, s: seq<T>)
    ensures Filter(p, s) == Filter(q, s) <==> forall x :: x in s ==> (p(x) <==> q(x))
  {
    FilterIs(p, s);
    FilterIs(q, s);
    if forall x :: x in s ==> (p(x) <==> q(x)) {
      FilterAgrees(p, q, s);
    }
    if Filter(p, s) == Filter(q, s) {
      forall x | x in s ensures p(x) <==> q(x) {
        assert p(x) <==> x in Filter(p, s);
        assert q(x) <==> x in Filter(q, s);
      }
    }
  }

  /**
   * A name that starts like this intent's ids but is not a canonical id, on a container without this
   * intent's label: eviction claims it, exclusion does not.
   */
  predicate Lookalike(w: Workload, intent: string) {
    IntentPrefix(intent) <= w.clusterId && ParseClusterId(w.clusterId).None? && w.intentId != Some(intent)
  }

  /** The two membership tests differ on lookalikes and nowhere else. */
  lemma TestsDifferOnLookalikes(w: Workload, intent: string)
    requires intent != ""
    ensures MatchesIntent(w, intent) ==> EvictMatches(w, intent)
    ensures EvictMatches(w, intent) && !MatchesIntent(w, intent) <==> Lookalike(w, intent)
  {
    if ParseClusterId(w.clusterId).Some? {
      PrefixMeansParsed(w.clusterId, intent);
    }
  }

  ghost predicate AgreesWithPlan(loads: seq<HostLoad>, n: Launch, t: Teardown, planIntent: string) {
    forall i :: 0 <= i < |loads| && loads[i].host in n.targets ==>
      LeftOver(loads, n, t)[i].workloads == Kept(loads[i].workloads, {planIntent})
  }

  /** The test is not empty: a short suffix where the placement token should be is enough. */
  lemma ALookalike()
    ensures var w := Workload("sparkrun_0123456789abcdef_job", None, 1);
      Lookalike(w, "0123456789abcdef") && EvictMatches(w, "0123456789abcdef") && !MatchesIntent(w, "0123456789abcdef")
  {
    var w := Workload("sparkrun_0123456789abcdef_job", None, 1);
    assert IntentPrefix("0123456789abcdef") == "sparkrun_0123456789abcdef_";
    assert IntentPrefix("0123456789abcdef") <= w.clusterId;
    assert |w.clusterId| == 29;
    assert ParseClusterId(w.clusterId).None?;
  }

  /** On one host: what eviction spares is what the planner assumed exactly when no exception runs there. */
  lemma HostAgrees(loads: seq<HostLoad>, i: nat, n: Launch, t: Teardown)
    requires i < |loads| && loads[i].host in n.targets && n.intent != ""
    requires DistinctIds(loads) && DistinctHosts(loads)
    ensures LeftOver(loads, n, t)[i].workloads == Kept(loads[i].workloads, {n.intent}) <==>
      forall w :: w in loads[i].workloads ==> Agreed(n, t, loads[i].host, w)
  {
    var own, h := {n.intent}, loads[i].host;
    LeftOnTarget(loads, i, n, t);
    FiltersEqualIff(Remains(n, t, h), Foreign(own), loads[i].workloads);
    forall w ensures (Remains(n, t, h)(w) <==> Foreign(own)(w)) <==> Agreed(n, t, h, w) {
      TestsDifferOnLookalikes(w, n.intent);
      MatchesOne(w, n.intent);
    }
  }

  /** What goes by the launch's own id is of its intent, the intent's other deployments are reached, no lookalike is. */
  predicate Agreed(n: Launch, t: Teardown, h: string, w: Workload) {
    if w.clusterId == n.cid then MatchesIntent(w, n.intent)
    else if MatchesIntent(w, n.intent) then Reached(n, t, h, w)
    else !(Lookalike(w, n.intent) && Reached(n, t, h, w))
  }

  /**
   * For every launch, under any cluster id, whatever its query showed and its stops did: eviction and clean-up leave on
   * every target host exactly what planning's exclusion leaves of the same loads, if and only if, on the targets,
   * whatever goes by the launch's own id is of its intent, the intent's other deployments were shown and removed, and
   * no lookalike was.
   */
  lemma HalvesAgree(loads: seq<HostLoad>, n: Launch, t: Teardown)
    requires n.intent != "" && DistinctIds(loads) && DistinctHosts(loads)
    ensures AgreesWithPlan(loads, n, t, n.intent) <==>
      forall h, w :: h in n.targets && Runs(loads, h, w) ==> Agreed(n, t, h, w)
  {
    hide Agreed, LeftOver, Kept, DistinctIds, DistinctHosts;
    forall i | 0 <= i < |loads| && loads[i].host in n.targets
      ensures LeftOver(loads, n, t)[i].workloads == Kept(loads[i].workloads, {n.intent})
        <==> forall w :: w in loads[i].workloads ==> Agreed(n, t, loads[i].host, w)
    {
      HostAgrees(loads, i, n, t);
    }
    if AgreesWithPlan(loads, n, t, n.intent) {
      forall h, w | h in n.targets && Runs(loads, h, w) ensures Agreed(n, t, h, w) {
        var l :| l in loads && l.host == h && w in l.workloads;
        var i :| 0 <= i < |loads| && loads[i] == l;
      }
    } else {
      var i :| 0 <= i < |loads| && loads[i].host in n.targets
        && LeftOver(loads, n, t)[i].workloads != Kept(loads[i].workloads, {n.intent});
      var w :| w in loads[i].workloads && !Agreed(n, t, loads[i].host, w);
      assert loads[i] in loads;
      assert Runs(loads, loads[i].host, w);
    }
  }

  /** The id patterns of the status providers admit canonical ids only. */
  ghost predicate FromProviders(loads: seq<HostLoad>) {
    forall l, w :: l in loads && w in l.workloads ==> ParseClusterId(w.clusterId).Some?
  }

  /** A canonical launch id names the launch's intent, composed or overridden; any other id is the user's own. */
  predicate PlanId(n: Launch) {
    ParseClusterId(n.cid).Some? ==> ParseClusterId(n.cid).value.0 == n.intent
  }

  /**
   * On what the status providers report, and for every launch but an override of another intent, the two halves agree
   * exactly when every earlier deployment of the intent on a target was shown to the eviction and removed there.
   */
  lemma ProviderHalvesAgree(loads: seq<HostLoad>, n: Launch, t: Teardown)
    requires FromProviders(loads) && PlanId(n) && n.intent != ""
    requires DistinctIds(loads) && DistinctHosts(loads)
    ensures AgreesWithPlan(loads, n, t, n.intent) <==>
      forall h, w :: h in n.targets && Runs(loads, h, w) && MatchesIntent(w, n.intent) && w.clusterId != n.cid ==>
        Sees(n, h, w) && t.removes(w.clusterId, h)
  {
    HalvesAgree(loads, n, t);
    forall h, w | Runs(loads, h, w) ensures ParseClusterId(w.clusterId).Some? {
      var l :| l in loads && l.host == h && w in l.workloads;
    }
  }

  /** A workload whose id is canonical and whose label, if any, repeats the id's intent. */
  predicate WellLabelled(w: Workload) {
    ParseClusterId(w.clusterId).Some?
    && (w.intentId.Some? ==> w.intentId.value == ParseClusterId(w.clusterId).value.0)
  }

  ghost predicate AllLabelled(loads: seq<HostLoad>) {
    forall h, w :: Runs(loads, h, w) ==> WellLabelled(w)
  }

  lemma LabelledOnHost(loads: seq<HostLoad>, i: nat, w: Workload)
    requires i < |loads| && w in loads[i].workloads && AllLabelled(loads)
    ensures WellLabelled(w)
  {
    assert loads[i] in loads;
    assert Runs(loads, loads[i].host, w);
  }

  function IntentOf(w: Workload): string
    requires WellLabelled(w)
  {
    ParseClusterId(w.clusterId).value.0
  }

  lemma MatchesItsIntent(w: Workload, intent: string)
    requires WellLabelled(w) && intent != ""
    ensures MatchesIntent(w, intent) <==> IntentOf(w) == intent
    ensures EvictMatches(w, intent) <==> IntentOf(w) == intent
    ensures !Lookalike(w, intent)
  {
    TestsDifferOnLookalikes(w, intent);
  }

  /**
   * A `cluster_id_override` of another intent changes which intent is evicted after planning already excluded the
   * recipe's own. On a well-labelled cluster the halves then agree exactly when no target host runs the planned intent,
   * and of the overriding one nothing that goes by the launch's own id or was shown and removed.
   */
  lemma OverrideSplitsTheHalves(loads: seq<HostLoad>, n: Launch, token: string, planIntent: string, t: Teardown)
    requires ValidHalves(n.intent, token) && n.cid == ClusterId(n.intent, token)
    requires planIntent != "" && planIntent != n.intent
    requires DistinctIds(loads) && DistinctHosts(loads) && AllLabelled(loads)
    ensures AgreesWithPlan(loads, n, t, planIntent) <==>
      forall h, w :: h in n.targets && Runs(loads, h, w) ==>
        && IntentOf(w) != planIntent
        && (IntentOf(w) == n.intent ==> w.clusterId != n.cid && !(Sees(n, h, w) && t.removes(w.clusterId, h)))
  {
    ParseComposed(n.intent, token);
    var plan := {planIntent};
    forall i | 0 <= i < |loads| && loads[i].host in n.targets
      ensures LeftOver(loads, n, t)[i].workloads == Kept(loads[i].workloads, plan)
        <==> forall w :: w in loads[i].workloads ==> OverrideAgreed(n, t, planIntent, loads[i].host, w)
    {
      OverrideOnHost(loads, i, n, planIntent, t);
    }
    if AgreesWithPlan(loads, n, t, planIntent) {
      forall h, w | h in n.targets && Runs(loads, h, w) ensures OverrideAgreed(n, t, planIntent, h, w) {
        var l :| l in loads && l.host == h && w in l.workloads;
        var i :| 0 <= i < |loads| && loads[i] == l;
      }
    } else {
      var i :| 0 <= i < |loads| && loads[i].host in n.targets
        && LeftOver(loads, n, t)[i].workloads != Kept(loads[i].workloads, plan);
      var w :| w in loads[i].workloads && !OverrideAgreed(n, t, planIntent, loads[i].host, w);
      assert loads[i] in loads;
      assert Runs(loads, loads[i].host, w);
    }
  }

  predicate OverrideAgreed(n: Launch, t: Teardown, planIntent: string, h: string, w: Workload) {
    WellLabelled(w) ==>
      && IntentOf(w) != planIntent
      && (IntentOf(w) == n.intent ==> w.clusterId != n.cid && !Reached(n, t, h, w))
  }

  lemma OverrideOnHost(loads: seq<HostLoad>, i: nat, n: Launch, planIntent: string, t: Teardown)
    requires i < |loads| && loads[i].host in n.targets
    requires ParseClusterId(n.cid).Some? && ParseClusterId(n.cid).value.0 == n.intent != ""
    requires planIntent != "" && planIntent != n.intent
    requires DistinctIds(loads) && DistinctHosts(loads) && AllLabelled(loads)
    ensures LeftOver(loads, n, t)[i].workloads == Kept(loads[i].workloads, {planIntent}) <==>
      forall w :: w in loads[i].workloads ==> OverrideAgreed(n, t, planIntent, loads[i].host, w)
  {
    var h := loads[i].host;
    assert loads[i] in loads;
    LeftOnTarget(loads, i, n, t);
    FiltersEqualIff(Remains(n, t, h), Foreign({planIntent}), loads[i].workloads);
    forall w | w in loads[i].workloads
      ensures (Remains(n, t, h)(w) <==> Foreign({planIntent})(w)) <==> OverrideAgreed(n, t, planIntent, h, w)
    {
      LabelledOnHost(loads, i, w);
      MatchesItsIntent(w, n.intent);
      MatchesItsIntent(w, planIntent);
      MatchesOne(w, planIntent);
    }
  }

  /** Some target host runs a superseded workload of this id, and the eviction is shown it. */
  ghost predicate SeenOnTarget(loads: seq<HostLoad>, n: Launch, cid: string) {
    exists h, x :: h in n.targets && Runs(loads, h, x) && x.clusterId == cid && Superseded(x, n) && Sees(n, h, x)
  }

  /**
   * Everywhere on the cluster, whatever the stops do: a workload is gone exactly when it is the launch's own id on a
   * target, or a superseded one that was shown and is removed, of a deployment shown on some target host. Foreign
   * workloads, siblings that miss every target, and what the query does not show of an evicted deployment all stay.
   */
  lemma LeftOverExactly(loads: seq<HostLoad>, i: nat, n: Launch, t: Teardown, w: Workload)
    requires i < |loads|
    requires DistinctIds(loads) && DistinctHosts(loads)
    ensures |LeftOver(loads, n, t)| == |loads| && LeftOver(loads, n, t)[i].host == loads[i].host
    ensures w in LeftOver(loads, n, t)[i].workloads <==>
      && w in loads[i].workloads
      && !(loads[i].host in n.targets && w.clusterId == n.cid)
      && !(Superseded(w, n) && Sees(n, loads[i].host, w) && t.removes(w.clusterId, loads[i].host)
           && SeenOnTarget(loads, n, w.clusterId))
  {
    var ws, h, seen := loads[i].workloads, loads[i].host, Seen(loads, n);
    var cids := Overlapping(seen, n.targets);
    FilterIs(Survives(cids, seen, h, t), ws);
    FilterIs(NotNamed(n.cid), Filter(Survives(cids, seen, h, t), ws));
    if w in ws {
      SeenOnHost(loads, i, w, n);
      OverlappingIs(loads, n, w.clusterId);
    }
  }

  lemma OverlappingIs(loads: seq<HostLoad>, n: Launch, cid: string)
    ensures cid in Overlapping(Seen(loads, n), n.targets) <==> SeenOnTarget(loads, n, cid)
  {
    var seen := Seen(loads, n);
    if cid in Overlapping(seen, n.targets) {
      var p :| p in seen && p.1 in n.targets && p.0 == cid;
      SeenAre(loads, n, cid, p.1);
    }
    if h, x :| h in n.targets && Runs(loads, h, x) && x.clusterId == cid && Superseded(x, n) && Sees(n, h, x) {
      SeenAre(loads, n, cid, h);
      assert (cid, h) in seen;
    }
  }

  /** Whatever the query showed and the stops did, no foreign workload moves on any host. */
  lemma ForeignUntouched(loads: seq<HostLoad>, i: nat, n: Launch, token: string, t: Teardown)
    requires i < |loads| && ValidHalves(n.intent, token) && n.cid == ClusterId(n.intent, token)
    requires DistinctIds(loads) && DistinctHosts(loads) && AllLabelled(loads)
    ensures Kept(LeftOver(loads, n, t)[i].workloads, {n.intent}) == Kept(loads[i].workloads, {n.intent})
  {
    ParseComposed(n.intent, token);
    var ws, h, seen := loads[i].workloads, loads[i].host, Seen(loads, n);
    var cids, own := Overlapping(seen, n.targets), {n.intent};
    forall w | w in ws ensures Foreign(own)(w) ==> Survives(cids, seen, h, t)(w) && NotNamed(n.cid)(w) {
      LabelledOnHost(loads, i, w);
      SeenOnHost(loads, i, w, n);
      MatchesItsIntent(w, n.intent);
      MatchesOne(w, n.intent);
    }
    var kept := Filter(Survives(cids, seen, h, t), ws);
    FilterFilter(Survives(cids, seen, h, t), Foreign(own), Foreign(own), ws);
    FilterIs(Survives(cids, seen, h, t), ws);
    FilterFilter(NotNamed(n.cid), Foreign(own), Foreign(own), kept);
  }
}
