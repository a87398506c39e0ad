/**
 * Whole launches and whole histories of a cluster (`api/_run.py`, `plan` and `run`): a plan is made against the
 * intent-excluded answer of one status query, and started later, after an eviction that acts on the answer of another.
 */
module Relaunch {
  import opened Prelude
  import opened Snapshot
  import opened Exclusion
  import opened Pack
  import opened Eviction
  import opened Halves

  /** How many slots a provider counts for a deployment on a host: it counts containers, not ranks. */
  type Counts = (string, Workload) -> int

  function Reported(l: HostLoad, counts: Counts): seq<Workload> {
    seq(|l.workloads|, i requires 0 <= i < |l.workloads| =>
      l.workloads[i].(ranks := counts(l.host, l.workloads[i])))
  }

  /** The status query on slot-level executors: used is the sum of the claims reported, free is the rest. */
  function Observed(loads: seq<HostLoad>, hw: string -> Hardware, counts: Counts): Status {
    Status(seq(|loads|, i requires 0 <= i < |loads| => ObservedHost(loads[i], hw, counts)))
  }

  function ObservedHost(l: HostLoad, hw: string -> Hardware, counts: Counts): HostEntry {
    var seen := Reported(l, counts);
    HostEntry(l.host, seen, Load(seen), FreeOf(hw(l.host).gpus, Load(seen)), [])
  }

  /**
   * What `plan` decided and what it was based on: the loads as they were, of which its status query, if it succeeded,
   * brought back a part.
   */
  datatype Plan = Plan(intent: string, token: string, a: Assignment, ranks: nat, hosts: seq<string>, counts: Counts,
                       was: seq<HostLoad>, query: Option<Query>)

  predicate ShownToPlan(p: Plan, h: string, w: Workload) {
    p.query.Some? && Reports(p.query.value, h, w)
  }

  /** The snapshot the scheduler is given; without one it packs as if nothing ran. */
  function PlanningView(p: Plan, hw: string -> Hardware): Option<Status> {
    if p.query.None? then None
    else Some(Excluded(Observed(Answer(p.was, p.query.value), hw, p.counts), {p.intent}))
  }

  /** A plan as every scheduler's result leads to it: a canonical id and the hosts that its ranks name. */
  ghost predicate Composed(p: Plan) {
    ValidHalves(p.intent, p.token) && ElemsOf(p.a.hostsUsed) == NamedHosts(p.a.byRank)
  }

  /** A plan whose ranks were packed against the planning view. */
  ghost predicate Planned(p: Plan, hw: string -> Hardware) {
    Composed(p) && Placed(p.a, p.ranks, p.hosts, hw, PlanningView(p, hw))
  }

  function CidOf(p: Plan): string {
    ClusterId(p.intent, p.token)
  }

  /** The launch that starts a plan; `query` is the one its eviction makes. */
  function LaunchOf(p: Plan, query: Option<Query>): Launch {
    Launch(p.intent, CidOf(p), ElemsOf(p.hosts), ElemsOf(p.a.hostsUsed), query)
  }

  function Starting(p: Plan, h: string): Workload {
    Workload(CidOf(p), Some(p.intent), RanksOn(p.a.byRank, h))
  }

  function Started(loads: seq<HostLoad>, p: Plan): seq<HostLoad> {
    seq(|loads|, i requires 0 <= i < |loads| =>
      if loads[i].host in p.a.hostsUsed
      then HostLoad(loads[i].host, loads[i].workloads + [Starting(p, loads[i].host)])
      else loads[i])
  }

  /** Evict, clean up, start. */
  function AfterLaunch(loads: seq<HostLoad>, p: Plan, query: Option<Query>, t: Teardown): (r: seq<HostLoad>)
    ensures |r| == |loads|
    ensures forall i :: 0 <= i < |r| ==> r[i].host == loads[i].host
  {
    Started(LeftOver(loads, LaunchOf(p, query), t), p)
  }

  // ---- the invariant of a managed cluster ----

  ghost predicate WellFormed(loads: seq<HostLoad>) {
    && DistinctHosts(loads)
    && DistinctIds(loads)
    && AllLabelled(loads)
  }

  /** No intent has two deployments on one host. */
  ghost predicate OneEach(ws: seq<Workload>) {
    forall i, j :: 0 <= i < j < |ws| ==> DifferentIntents(ws[i], ws[j])
  }

  predicate DifferentIntents(a: Workload, b: Workload) {
    WellLabelled(a) && WellLabelled(b) && IntentOf(a) != IntentOf(b)
  }

  predicate DifferentIds(a: Workload, b: Workload) {
    a.clusterId != b.clusterId
  }

  ghost predicate Good(loads: seq<HostLoad>, hw: string -> Hardware) {
    && WellFormed(loads)
    && forall l :: l in loads ==> OneEach(l.workloads) && Load(l.workloads) <= hw(l.host).gpus
  }

  lemma {:induction false} LoadFilter(keep: Workload -> bool, ws: seq<Workload>)
    ensures Load(Filter(keep, ws)) <= Load(ws)
  {
    if ws != [] {
      LoadFilter(keep, ws[1..]);
      LoadAppend([ws[0]], Filter(keep, ws[1..]));
      assert Load([ws[0]]) == Claim(ws[0]);
    }
  }

  // ---- what planning can see ----

  lemma {:induction false} LoadCovers(ws: seq<Workload>)
    ensures Load(ws) >= |ws|
  {
    if ws != [] {
      LoadCovers(ws[1..]);
    }
  }

  lemma {:induction false} ForHostDistinct(s: Status, i: nat)
    requires i < |s.hosts|
    requires forall j, k :: 0 <= j < k < |s.hosts| ==> s.hosts[j].host != s.hosts[k].host
    ensures ForHost(s.hosts, s.hosts[i].host) == Some(s.hosts[i])
    decreases i
  {
    if i > 0 {
      assert s.hosts[0].host != s.hosts[i].host;
      ForHostDistinct(Status(s.hosts[1..]), i - 1);
    }
  }

  /** Reporting changes counts only: which workloads an exclusion keeps is the same. */
  lemma ReportKeeps(l: HostLoad, counts: Counts, intent: string)
    ensures Kept(Reported(l, counts), {intent}) == [] <==> Kept(l.workloads, {intent}) == []
  {
    FilterExtremes(Foreign({intent}), Reported(l, counts));
    FilterExtremes(Foreign({intent}), l.workloads);
    var ws, rs := l.workloads, Reported(l, counts);
    assert forall i :: 0 <= i < |ws| ==> (Foreign({intent})(rs[i]) <==> Foreign({intent})(ws[i])) by {
      forall i | 0 <= i < |ws| ensures Foreign({intent})(rs[i]) <==> Foreign({intent})(ws[i]) {
        MatchesOne(rs[i], intent);
        MatchesOne(ws[i], intent);
      }
    }
    if forall w :: w in ws ==> !Foreign({intent})(w) {
      forall w | w in rs ensures !Foreign({intent})(w) {
        var i :| 0 <= i < |rs| && rs[i] == w;
        assert ws[i] in ws;
      }
    }
    if forall w :: w in rs ==> !Foreign({intent})(w) {
      forall w | w in ws ensures !Foreign({intent})(w) {
        var i :| 0 <= i < |ws| && ws[i] == w;
        assert rs[i] in rs;
      }
    }
  }

  /** What the scheduler sees of a host counts as used exactly when other intents run there. */
  lemma SnapshotShows(loads: seq<HostLoad>, i: nat, intent: string, hw: string -> Hardware, counts: Counts)
    requires i < |loads| && DistinctHosts(loads)
    ensures var snap := Excluded(Observed(loads, hw, counts), {intent});
      var e := ForHost(snap.hosts, loads[i].host);
      && e.Some? && e.value.gpus == []
      && (e.value.used == 0 <==> Kept(loads[i].workloads, {intent}) == [])
  {
    var snap := Excluded(Observed(loads, hw, counts), {intent});
    var o := ObservedHost(loads[i], hw, counts);
    ExclusionConservesSlots(o, {intent});
    ForHostDistinct(snap, i);
    assert snap.hosts[i] == ExcludeHost(o, {intent});
    KeptIs(o.workloads, {intent});
    LoadCovers(Kept(o.workloads, {intent}));
    ReportKeeps(loads[i], counts, intent);
    assert ExcludeHost(o, {intent}).workloads == Kept(o.workloads, {intent});
  }

  predicate OtherHosts(a: HostLoad, b: HostLoad) {
    a.host != b.host
  }

  lemma AnswerDistinct(loads: seq<HostLoad>, q: Query)
    requires DistinctHosts(loads)
    ensures DistinctHosts(Answer(loads, q))
  {
    var reached := Filter(Answers(q), loads);
    FilterKeepsPairs(OtherHosts, Answers(q), loads);
    forall j, k | 0 <= j < k < |reached| ensures reached[j].host != reached[k].host {
      assert OtherHosts(reached[j], reached[k]);
    }
  }

  /** Of a host that answered, the snapshot keeps the workloads of other intents that were shown. */
  lemma AnsweredHostShows(p: Plan, l: HostLoad, hw: string -> Hardware)
    requires DistinctHosts(p.was) && l in p.was && p.query.Some? && l.host in p.query.value.answers
    ensures var e := OccOf(PlanningView(p, hw), l.host);
      && e.Some? && e.value.gpus == []
      && (e.value.used == 0 <==>
            forall w :: w in l.workloads && ShownToPlan(p, l.host, w) ==> MatchesIntent(w, p.intent))
  {
    var q := p.query.value;
    var seen := Answer(p.was, q);
    AnswerDistinct(p.was, q);
    AnswerIs(p.was, q, Narrowed(l, q));
    var j :| 0 <= j < |seen| && seen[j] == Narrowed(l, q);
    SnapshotShows(seen, j, p.intent, hw, p.counts);
    FilterIs(Shows(q, l.host), l.workloads);
    FilterExtremes(Foreign({p.intent}), seen[j].workloads);
    forall w ensures Foreign({p.intent})(w) <==> !MatchesIntent(w, p.intent) {
      MatchesOne(w, p.intent);
    }
  }

  /**
   * A host offers GPUs to a plan, and then all it has, exactly when no workload of another intent that runs there is
   * shown to the planning query: because there is none, or because the query failed or missed it. How many ranks the
   * providers count does not matter.
   */
  lemma OfferedIff(p: Plan, h: string, hw: string -> Hardware)
    requires DistinctHosts(p.was) && hw(h).gpus > 0
    ensures var occ, gpus := OccOf(PlanningView(p, hw), h), hw(h).gpus;
      && (Eligible(gpus, occ) != {} && !Ambiguous(gpus, occ) <==>
            forall w :: Runs(p.was, h, w) && ShownToPlan(p, h, w) ==> MatchesIntent(w, p.intent))
      && (Eligible(gpus, occ) != {} && !Ambiguous(gpus, occ) ==> Eligible(gpus, occ) == Range(0, gpus))
  {
    var occ, gpus := OccOf(PlanningView(p, hw), h), hw(h).gpus;
    assert 0 in Range(0, gpus);
    if l :| l in p.was && l.host == h && p.query.Some? && h in p.query.value.answers {
      AnsweredHostShows(p, l, hw);
      var i :| 0 <= i < |p.was| && p.was[i] == l;
      forall w ensures Runs(p.was, h, w) <==> w in l.workloads {
        RunsOnHost(p.was, i, w);
      }
      assert occ.value.used < gpus ==> occ.value.used in Eligible(gpus, occ);
    } else {
      NotAnswered(p, h, hw);
    }
  }

  lemma NotAnswered(p: Plan, h: string, hw: string -> Hardware)
    requires forall l :: l in p.was && l.host == h && p.query.Some? ==> h !in p.query.value.answers
    ensures OccOf(PlanningView(p, hw), h) == None
    ensures forall w :: !(Runs(p.was, h, w) && ShownToPlan(p, h, w))
  {
    if p.query.Some? {
      var q := p.query.value;
      var seen := Answer(p.was, q);
      var snap := PlanningView(p, hw).value.hosts;
      if o :| o in snap && o.host == h {
        var j :| 0 <= j < |snap| && snap[j] == o;
        ExclusionConservesSlots(ObservedHost(seen[j], hw, p.counts), {p.intent});
        assert seen[j].host == h;
        AnswerIs(p.was, q, seen[j]);
      }
    }
  }

  /** A target of a packed plan showed nothing but the planned intent, and gets at most as many ranks as it has GPUs. */
  lemma TargetLookedIdle(p: Plan, h: string, hw: string -> Hardware)
    requires DistinctHosts(p.was) && Planned(p, hw) && h in p.a.hostsUsed
    ensures 1 <= RanksOn(p.a.byRank, h) <= hw(h).gpus
    ensures forall w :: Runs(p.was, h, w) && ShownToPlan(p, h, w) ==> MatchesIntent(w, p.intent)
  {
    PlacementWithinHardware(p.a, p.ranks, p.hosts, hw, PlanningView(p, hw), h);
    NoRanksElsewhere(p.a.byRank, h);
    assert h in NamedHosts(p.a.byRank);
    var s :| s in p.a.byRank && s.host == h;
    OfferedIff(p, h, hw);
  }

  /**
   * The pass-over of partially busy slot-level hosts is what this rests on: a provider that counts one slot for four
   * ranks leaves GPUs that look free, and two more ranks on them make six on four.
   */
  lemma CountsAloneDoNotProtect(h: string)
    ensures var hw := (x: string) => Hardware(4, {"v"});
      var busy := HostLoad(h, [Workload("a", None, 4)]);
      var o := ObservedHost(busy, hw, (x, w) => 1);
      && {1, 2} <= Eligible(4, Some(o)) && Ambiguous(4, Some(o))
      && Load(busy.workloads + [Workload("b", None, 2)]) == 6 > hw(h).gpus
  {
    var hw := (x: string) => Hardware(4, {"v"});
    var busy := HostLoad(h, [Workload("a", None, 4)]);
    var seen := Reported(busy, (x, w) => 1);
    assert seen == [Workload("a", None, 1)] && seen[1..] == [];
    assert Load(seen) == 1;
    var two := busy.workloads + [Workload("b", None, 2)];
    assert two[1..] == [Workload("b", None, 2)] && two[1..][1..] == [];
  }

  // ---- one start ----

  /** The planned intent's earlier workloads on a target that the eviction is not shown or does not remove. */
  function Spared(p: Plan, query: Option<Query>, t: Teardown, h: string): Workload -> bool {
    (w: Workload) => MatchesAny(w, {p.intent}) && w.clusterId != CidOf(p) && !Reached(LaunchOf(p, query), t, h, w)
  }

  /** On a target, exactly those are left of the planned intent. */
  lemma OwnLeftIsSpared(loads: seq<HostLoad>, i: nat, p: Plan, query: Option<Query>, t: Teardown)
    requires i < |loads| && loads[i].host in p.a.hostsUsed && WellFormed(loads) && Composed(p)
    ensures Removed(LeftOver(loads, LaunchOf(p, query), t)[i].workloads, {p.intent})
         == Filter(Spared(p, query, t, loads[i].host), loads[i].workloads)
  {
    var ws, h, n := loads[i].workloads, loads[i].host, LaunchOf(p, query);
    LeftOnTarget(loads, i, n, t);
    forall w | w in ws ensures Spared(p, query, t, h)(w) <==> Remains(n, t, h)(w) && Own({p.intent})(w) {
      LabelledOnHost(loads, i, w);
      MatchesItsIntent(w, p.intent);
      MatchesOne(w, p.intent);
    }
    FilterFilter(Remains(n, t, h), Own({p.intent}), Spared(p, query, t, h), ws);
  }

  lemma RanksNamed(p: Plan, h: string)
    requires Composed(p) && h in p.a.hostsUsed
    ensures RanksOn(p.a.byRank, h) >= 1
  {
    NoRanksElsewhere(p.a.byRank, h);
    assert h in NamedHosts(p.a.byRank);
  }

  /**
   * For every plan and every start of it, whatever the queries showed and the stops did: what a target then carries is
   * the claims of the earlier workloads that were spared, those of other intents at the start, and the new ranks.
   */
  lemma TargetLoadIs(loads: seq<HostLoad>, i: nat, p: Plan, query: Option<Query>, t: Teardown)
    requires i < |loads| && loads[i].host in p.a.hostsUsed && WellFormed(loads) && Composed(p)
    ensures var h := loads[i].host;
      Load(AfterLaunch(loads, p, query, t)[i].workloads)
      == Load(Filter(Spared(p, query, t, h), loads[i].workloads)) + Load(Kept(loads[i].workloads, {p.intent}))
         + RanksOn(p.a.byRank, h)
  {
    var h, left := loads[i].host, LeftOver(loads, LaunchOf(p, query), t)[i].workloads;
    ForeignUntouched(loads, i, LaunchOf(p, query), p.token, t);
    OwnLeftIsSpared(loads, i, p, query, t);
    LoadSplits(left, {p.intent});
    RanksNamed(p, h);
    LoadAppend(left, [Starting(p, h)]);
    assert Load([Starting(p, h)]) == Claim(Starting(p, h));
  }

  lemma NonEmptyLoad(ws: seq<Workload>) returns (w: Workload)
    requires Load(ws) > 0
    ensures w in ws
  {
    w := ws[0];
  }

  /**
   * Why a target of a packed plan can end up over its hardware, when stops report honestly: it runs an earlier workload
   * of the intent that the eviction's query did not show, or whose stop raised or did not confirm; or a workload of
   * another intent that was not there when the plan was made, or that the planning query did not show.
   */
  lemma OverCommitHasACause(loads: seq<HostLoad>, i: nat, p: Plan, query: Option<Query>, t: Teardown,
                            hw: string -> Hardware) returns (w: Workload)
    requires i < |loads| && loads[i].host in p.a.hostsUsed && WellFormed(loads) && Honest(t)
    requires Planned(p, hw) && DistinctHosts(p.was)
    requires Load(AfterLaunch(loads, p, query, t)[i].workloads) > hw(loads[i].host).gpus
    ensures w in loads[i].workloads
    ensures var h := loads[i].host;
      if MatchesIntent(w, p.intent) then
        w.clusterId != CidOf(p)
        && (!Sees(LaunchOf(p, query), h, w) || t.raises(w.clusterId) || !t.confirms(w.clusterId, h))
      else
        !Runs(p.was, h, w) || !ShownToPlan(p, h, w)
  {
    var h := loads[i].host;
    var spared, kept := Filter(Spared(p, query, t, h), loads[i].workloads), Kept(loads[i].workloads, {p.intent});
    TargetLoadIs(loads, i, p, query, t);
    TargetLookedIdle(p, h, hw);
    FilterIs(Spared(p, query, t, h), loads[i].workloads);
    KeptIs(loads[i].workloads, {p.intent});
    w := NonEmptyLoad(if Load(spared) > 0 then spared else kept);
    MatchesOne(w, p.intent);
  }

  // ---- what a start keeps ----

  lemma ThinnedHost(ws: seq<Workload>, keep: Workload -> bool)
    requires DistinctOn(ws)
    ensures DistinctOn(Filter(keep, ws))
    ensures OneEach(ws) ==> OneEach(Filter(keep, ws))
    ensures Load(Filter(keep, ws)) <= Load(ws)
    ensures forall w :: w in Filter(keep, ws) ==> w in ws && keep(w)
  {
    LoadFilter(keep, ws);
    FilterIs(keep, ws);
    FilterKeepsPairs(DifferentIds, keep, ws);
    if OneEach(ws) {
      FilterKeepsPairs(DifferentIntents, keep, ws);
    }
  }

  /** Off the targets, and on them before the start, a host is only thinned. */
  lemma LeftIsThinned(loads: seq<HostLoad>, i: nat, p: Plan, query: Option<Query>, t: Teardown)
    requires i < |loads| && WellFormed(loads)
    ensures var left := LeftOver(loads, LaunchOf(p, query), t)[i].workloads;
      && DistinctOn(left) && (OneEach(loads[i].workloads) ==> OneEach(left))
      && Load(left) <= Load(loads[i].workloads)
      && (forall w :: w in left ==> w in loads[i].workloads)
      && (loads[i].host in p.a.hostsUsed ==> forall w :: w in left ==> w.clusterId != CidOf(p))
  {
    var n, h := LaunchOf(p, query), loads[i].host;
    assert loads[i] in loads;
    if h in p.a.hostsUsed {
      LeftOnTarget(loads, i, n, t);
      ThinnedHost(loads[i].workloads, Remains(n, t, h));
    } else {
      var seen := Seen(loads, n);
      ThinnedHost(loads[i].workloads, Survives(Overlapping(seen, n.targets), seen, h, t));
    }
  }

  lemma StartingIs(p: Plan, h: string)
    requires Composed(p)
    ensures WellLabelled(Starting(p, h)) && IntentOf(Starting(p, h)) == p.intent
    ensures MatchesAny(Starting(p, h), {p.intent})
  {
    ParseComposed(p.intent, p.token);
    MatchesOne(Starting(p, h), p.intent);
  }

  lemma StartOnHost(loads: seq<HostLoad>, i: nat, p: Plan, query: Option<Query>, t: Teardown)
    requires i < |loads| && WellFormed(loads) && Composed(p)
    ensures var ws := AfterLaunch(loads, p, query, t)[i].workloads;
      && Kept(ws, {p.intent}) == Kept(loads[i].workloads, {p.intent})
      && DistinctOn(ws)
      && forall w :: w in ws ==> WellLabelled(w)
  {
    var h, left := loads[i].host, LeftOver(loads, LaunchOf(p, query), t)[i].workloads;
    LeftIsThinned(loads, i, p, query, t);
    ForeignUntouched(loads, i, LaunchOf(p, query), p.token, t);
    forall w | w in left ensures WellLabelled(w) {
      LabelledOnHost(loads, i, w);
    }
    hide LeftOver, WellFormed, WellLabelled;
    if h in p.a.hostsUsed {
      var w := Starting(p, h);
      StartingIs(p, h);
      FilterAppend(Foreign({p.intent}), left, [w]);
      Single(w, {p.intent});
    }
  }

  lemma WellFormedFromHosts(loads: seq<HostLoad>)
    requires DistinctHosts(loads)
    requires forall i, w :: 0 <= i < |loads| && w in loads[i].workloads ==> WellLabelled(w)
    requires forall i :: 0 <= i < |loads| ==> DistinctOn(loads[i].workloads)
    ensures WellFormed(loads)
  {
    forall h, w | Runs(loads, h, w) ensures WellLabelled(w) {
      var l :| l in loads && l.host == h && w in l.workloads;
      var i :| 0 <= i < |loads| && loads[i] == l;
    }
  }

  /** Whatever the queries showed and the stops did, a start moves no workload of another intent. */
  lemma LaunchKeepsOthers(loads: seq<HostLoad>, p: Plan, query: Option<Query>, t: Teardown)
    requires WellFormed(loads) && Composed(p)
    ensures WellFormed(AfterLaunch(loads, p, query, t))
    ensures forall i :: 0 <= i < |loads| ==>
      Kept(AfterLaunch(loads, p, query, t)[i].workloads, {p.intent}) == Kept(loads[i].workloads, {p.intent})
  {
    hide AfterLaunch;
    var r := AfterLaunch(loads, p, query, t);
    forall i | 0 <= i < |loads|
      ensures Kept(r[i].workloads, {p.intent}) == Kept(loads[i].workloads, {p.intent})
      ensures DistinctOn(r[i].workloads)
      ensures forall w :: w in r[i].workloads ==> WellLabelled(w)
    {
      StartOnHost(loads, i, p, query, t);
    }
    WellFormedFromHosts(r);
  }

  /**
   * The eviction of a start stops this workload's deployment on this host: the query covers the candidates, answered
   * for the host and showed the workload there, and showed the deployment on some target.
   */
  ghost predicate Aimed(loads: seq<HostLoad>, p: Plan, query: Option<Query>, h: string, w: Workload) {
    && query.Some? && h in p.hosts && h in query.value.answers && query.value.shows(h, w)
    && exists g, x :: g in p.a.hostsUsed && g in p.hosts && Runs(loads, g, x) && x.clusterId == w.clusterId
         && g in query.value.answers && query.value.shows(g, x)
  }

  /** For a workload of the planned intent that is what the sweep finds. */
  lemma AimedIsSeen(loads: seq<HostLoad>, i: nat, p: Plan, query: Option<Query>, w: Workload)
    requires i < |loads| && w in loads[i].workloads && WellFormed(loads) && Composed(p)
    requires MatchesIntent(w, p.intent) && w.clusterId != CidOf(p)
    ensures var n := LaunchOf(p, query);
      Aimed(loads, p, query, loads[i].host, w) <==>
        (w.clusterId, loads[i].host) in Seen(loads, n) && w.clusterId in Overlapping(Seen(loads, n), n.targets)
  {
    var n, h := LaunchOf(p, query), loads[i].host;
    LabelledOnHost(loads, i, w);
    MatchesItsIntent(w, p.intent);
    SeenOnHost(loads, i, w, n);
    OverlappingIs(loads, n, w.clusterId);
    if g, x :| g in p.a.hostsUsed && g in p.hosts && Runs(loads, g, x) && x.clusterId == w.clusterId && Sees(n, g, x) {
      assert WellLabelled(x);
      MatchesItsIntent(x, p.intent);
      assert SeenOnTarget(loads, n, w.clusterId);
    }
  }

  /** A workload that goes by an id of another intent is never aimed at. */
  lemma ForeignStays(loads: seq<HostLoad>, i: nat, p: Plan, query: Option<Query>, t: Teardown, w: Workload)
    requires i < |loads| && w in loads[i].workloads && WellFormed(loads) && Composed(p)
    requires !MatchesIntent(w, p.intent)
    ensures w in LeftOver(loads, LaunchOf(p, query), t)[i].workloads && w.clusterId != CidOf(p)
  {
    LabelledOnHost(loads, i, w);
    MatchesItsIntent(w, p.intent);
    ParseComposed(p.intent, p.token);
    LeftOverExactly(loads, i, LaunchOf(p, query), t, w);
  }

  /**
   * What runs on any host after a start: the new rank containers on a target, and whatever ran there before but for
   * containers of the launch's own id on a target, and for workloads of its intent whose deployment the query showed on
   * a target, that it showed on this candidate host, and that the stop removes from it.
   */
  lemma StartExactly(loads: seq<HostLoad>, i: nat, p: Plan, query: Option<Query>, t: Teardown, w: Workload)
    requires i < |loads| && WellFormed(loads) && Composed(p)
    ensures var h, cid := loads[i].host, ClusterId(p.intent, p.token);
      w in AfterLaunch(loads, p, query, t)[i].workloads <==>
        || (h in p.a.hostsUsed && w == Workload(cid, Some(p.intent), RanksOn(p.a.byRank, h)))
        || (&& w in loads[i].workloads
            && !(h in p.a.hostsUsed && w.clusterId == cid)
            && !(&& ParseClusterId(w.clusterId).Some? && ParseClusterId(w.clusterId).value.0 == p.intent
                 && w.clusterId != cid
                 && query.Some? && h in p.hosts && h in query.value.answers && query.value.shows(h, w)
                 && t.removes(w.clusterId, h)
                 && exists g, x :: g in p.a.hostsUsed && g in p.hosts && Runs(loads, g, x) && x.clusterId == w.clusterId
                      && g in query.value.answers && query.value.shows(g, x)))
  {
    var h, n := loads[i].host, LaunchOf(p, query);
    LeftOverExactly(loads, i, n, t, w);
    if w in loads[i].workloads {
      LabelledOnHost(loads, i, w);
      MatchesItsIntent(w, p.intent);
      if !MatchesIntent(w, p.intent) {
        ForeignStays(loads, i, p, query, t, w);
      } else if w.clusterId != CidOf(p) {
        OwnStays(loads, i, p, query, t, w);
      }
    }
  }

  lemma OwnStays(loads: seq<HostLoad>, i: nat, p: Plan, query: Option<Query>, t: Teardown, w: Workload)
    requires i < |loads| && w in loads[i].workloads && WellFormed(loads) && Composed(p)
    requires MatchesIntent(w, p.intent) && w.clusterId != CidOf(p)
    ensures w in LeftOver(loads, LaunchOf(p, query), t)[i].workloads <==>
      !(Aimed(loads, p, query, loads[i].host, w) && t.removes(w.clusterId, loads[i].host))
  {
    var n := LaunchOf(p, query);
    LabelledOnHost(loads, i, w);
    MatchesItsIntent(w, p.intent);
    LeftOverExactly(loads, i, n, t, w);
    AimedIsSeen(loads, i, p, query, w);
    SeenOnHost(loads, i, w, n);
    OverlappingIs(loads, n, w.clusterId);
  }

  /** The intent's other deployments on this host are shown to the eviction and removed. */
  ghost predicate OwnReached(l: HostLoad, p: Plan, query: Option<Query>, t: Teardown) {
    forall w :: w in l.workloads && MatchesIntent(w, p.intent) && w.clusterId != CidOf(p) ==>
      Reached(LaunchOf(p, query), t, l.host, w)
  }

  /** On every target they are, and what runs there of other intents leaves room for the new ranks. */
  ghost predicate SafeStart(loads: seq<HostLoad>, p: Plan, query: Option<Query>, t: Teardown, hw: string -> Hardware) {
    forall i :: 0 <= i < |loads| && loads[i].host in p.a.hostsUsed ==> SafeOn(loads[i], p, query, t, hw)
  }

  ghost predicate SafeOn(l: HostLoad, p: Plan, query: Option<Query>, t: Teardown, hw: string -> Hardware) {
    && OwnReached(l, p, query, t)
    && Load(Kept(l.workloads, {p.intent})) + RanksOn(p.a.byRank, l.host) <= hw(l.host).gpus
  }

  lemma SparedNone(loads: seq<HostLoad>, i: nat, p: Plan, query: Option<Query>, t: Teardown)
    requires i < |loads| && WellFormed(loads) && Composed(p)
    ensures OwnReached(loads[i], p, query, t) <==>
      Filter(Spared(p, query, t, loads[i].host), loads[i].workloads) == []
  {
    FilterExtremes(Spared(p, query, t, loads[i].host), loads[i].workloads);
    forall w ensures MatchesAny(w, {p.intent}) <==> MatchesIntent(w, p.intent) {
      MatchesOne(w, p.intent);
    }
  }

  /**
   * A target runs the new launch alone exactly when nothing of another intent runs there at the start and the intent's
   * own earlier deployments are shown to the eviction and removed.
   */
  lemma RunsAloneIff(loads: seq<HostLoad>, i: nat, p: Plan, query: Option<Query>, t: Teardown)
    requires i < |loads| && loads[i].host in p.a.hostsUsed && WellFormed(loads) && Composed(p)
    ensures AfterLaunch(loads, p, query, t)[i].workloads == [Starting(p, loads[i].host)] <==>
      OwnReached(loads[i], p, query, t) && Kept(loads[i].workloads, {p.intent}) == []
  {
    var left := LeftOver(loads, LaunchOf(p, query), t)[i].workloads;
    ForeignUntouched(loads, i, LaunchOf(p, query), p.token, t);
    OwnLeftIsSpared(loads, i, p, query, t);
    SparedNone(loads, i, p, query, t);
    KeptIs(left, {p.intent});
    assert left == [] <==> multiset(left) == multiset{};
    assert |left + [Starting(p, loads[i].host)]| == |left| + 1;
    assert [] + [Starting(p, loads[i].host)] == [Starting(p, loads[i].host)];
  }

  lemma AppendStaysGood(kept: seq<Workload>, w: Workload)
    requires DistinctOn(kept) && OneEach(kept) && WellLabelled(w)
    requires forall x :: x in kept ==> WellLabelled(x) && IntentOf(x) != IntentOf(w)
    ensures DistinctOn(kept + [w]) && OneEach(kept + [w])
    ensures forall x :: x in kept + [w] ==> WellLabelled(x)
  {
    forall i | 0 <= i < |kept| ensures DifferentIntents(kept[i], w) && DifferentIds(kept[i], w) {
      assert kept[i] in kept;
    }
  }

  /** A spared deployment runs beside the new one. */
  lemma SparedStaysBeside(loads: seq<HostLoad>, i: nat, p: Plan, query: Option<Query>, t: Teardown)
    requires i < |loads| && loads[i].host in p.a.hostsUsed && WellFormed(loads) && Composed(p)
    requires Filter(Spared(p, query, t, loads[i].host), loads[i].workloads) != []
    ensures !OneEach(AfterLaunch(loads, p, query, t)[i].workloads)
  {
    var left := LeftOver(loads, LaunchOf(p, query), t)[i].workloads;
    var own := Removed(left, {p.intent});
    OwnLeftIsSpared(loads, i, p, query, t);
    KeptIs(left, {p.intent});
    LeftIsThinned(loads, i, p, query, t);
    var w := own[0];
    assert w in own;
    var j :| 0 <= j < |left| && left[j] == w;
    LabelledOnHost(loads, i, w);
    MatchesItsIntent(w, p.intent);
    MatchesOne(w, p.intent);
    StartingIs(p, loads[i].host);
    var after := AfterLaunch(loads, p, query, t)[i].workloads;
    assert after[j] == w && after[|left|] == Starting(p, loads[i].host);
    assert !DifferentIntents(after[j], after[|left|]);
  }

  lemma KeptIsOther(ws: seq<Workload>, intent: string)
    requires intent != "" && forall x :: x in ws ==> WellLabelled(x)
    ensures forall x :: x in Kept(ws, {intent}) ==> x in ws && WellLabelled(x) && IntentOf(x) != intent
  {
    KeptIs(ws, {intent});
    forall x | x in Kept(ws, {intent}) ensures IntentOf(x) != intent {
      MatchesItsIntent(x, intent);
      MatchesOne(x, intent);
    }
  }

  lemma TargetStaysGoodIff(loads: seq<HostLoad>, i: nat, p: Plan, query: Option<Query>, t: Teardown,
                           hw: string -> Hardware)
    requires i < |loads| && loads[i].host in p.a.hostsUsed && WellFormed(loads) && Composed(p)
    requires OneEach(loads[i].workloads)
    ensures var ws := AfterLaunch(loads, p, query, t)[i].workloads;
      OneEach(ws) && Load(ws) <= hw(loads[i].host).gpus <==> SafeOn(loads[i], p, query, t, hw)
  {
    var h, left := loads[i].host, LeftOver(loads, LaunchOf(p, query), t)[i].workloads;
    TargetLoadIs(loads, i, p, query, t);
    SparedNone(loads, i, p, query, t);
    if Filter(Spared(p, query, t, h), loads[i].workloads) != [] {
      SparedStaysBeside(loads, i, p, query, t);
    } else {
      OwnLeftIsSpared(loads, i, p, query, t);
      LeftIsThinned(loads, i, p, query, t);
      KeptIs(left, {p.intent});
      forall w | w in left ensures WellLabelled(w) {
        LabelledOnHost(loads, i, w);
      }
      KeptIsOther(left, p.intent);
      StartingIs(p, h);
      AppendStaysGood(left, Starting(p, h));
    }
  }

  /**
   * A start leaves a good cluster good exactly when, on every target, the intent's other deployments are shown to the
   * eviction and removed and the workloads of other intents leave room for the new ranks.
   */
  lemma LaunchKeepsGoodIff(loads: seq<HostLoad>, p: Plan, query: Option<Query>, t: Teardown, hw: string -> Hardware)
    requires Good(loads, hw) && Composed(p)
    ensures Good(AfterLaunch(loads, p, query, t), hw) <==> SafeStart(loads, p, query, t, hw)
  {
    LaunchKeepsOthers(loads, p, query, t);
    var r := AfterLaunch(loads, p, query, t);
    forall i | 0 <= i < |loads|
      ensures OneEach(r[i].workloads) && Load(r[i].workloads) <= hw(r[i].host).gpus <==>
        (loads[i].host in p.a.hostsUsed ==> SafeOn(loads[i], p, query, t, hw))
    {
      assert loads[i] in loads;
      if loads[i].host in p.a.hostsUsed {
        TargetStaysGoodIff(loads, i, p, query, t, hw);
      } else {
        LeftIsThinned(loads, i, p, query, t);
      }
    }
    hide AfterLaunch, WellFormed, SafeOn, OneEach;
    if Good(r, hw) {
      forall i | 0 <= i < |loads| && loads[i].host in p.a.hostsUsed ensures SafeOn(loads[i], p, query, t, hw) {
        assert r[i] in r;
      }
    }
  }

  /**
   * `plan`: query, exclude the intent, place. `order` is the candidate list in the scheduler's preference order; when
   * the query brings back nothing, the fallback packs the same way as if nothing ran.
   */
  method MakePlan(c: Cluster, intent: string, token: string, order: seq<string>, ranks: nat, hw: string -> Hardware,
                  counts: Counts, query: Option<Query>, pick: (string, set<int>) -> Option<int>)
    returns (r: Result<Plan, PackError>)
    requires ValidHalves(intent, token) && ranks > 0
    requires NoDup(order) && PicksEligible(pick)
    ensures r.Ok? ==> Planned(r.value, hw) && |r.value.a.byRank| == ranks
    ensures r.Ok? ==> r.value == Plan(intent, token, r.value.a, ranks, order, counts, c.loads, query)
    ensures r == Err(Infeasible) && NeverDeclines(pick) ==>
      var blank := Plan(intent, token, Assignment([], []), ranks, order, counts, c.loads, query);
      Room(order, hw, PlanningView(blank, hw)) < ranks
      && forall a :: !Placed(a, ranks, order, hw, PlanningView(blank, hw))
    ensures r == Err(LayoutConflict) ==>
      var blank := Plan(intent, token, Assignment([], []), ranks, order, counts, c.loads, query);
      NeedsLayout(order, hw, PlanningView(blank, hw))
    ensures r.Ok? ==> InHostOrder(r.value.a, order)
    ensures r.Ok? && NeverDeclines(pick) ==> FirstFit(r.value.a.byRank, order, hw, PlanningView(r.value, hw))
  {
    var view: Option<Status> := None;
    if query.Some? {
      var snapshot := StatusExcludingIntent(Observed(Answer(c.loads, query.value), hw, counts), intent);
      view := Some(snapshot);
    }
    var placed := PackWithOccupancy(ranks, order, hw, view, pick);
    if placed.Err? {
      return Err(placed.error);
    }
    return Ok(Plan(intent, token, placed.value, ranks, order, counts, c.loads, query));
  }

  lemma ObservedAre(loads: seq<HostLoad>, p: Plan, query: Option<Query>)
    ensures query.Some? ==> forall cid :: cid in IdsOf(Visible(loads, LaunchOf(p, query))) <==>
      cid != "" && exists h, w ::
        h in p.hosts && Runs(loads, h, w) && w.clusterId == cid && h in query.value.answers && query.value.shows(h, w)
  {
    if query.Some? {
      var n := LaunchOf(p, query);
      forall cid | cid in IdsOf(Visible(loads, n))
        ensures exists h, w ::
          h in p.hosts && Runs(loads, h, w) && w.clusterId == cid && h in query.value.answers && query.value.shows(h, w)
      {
        var l, w :| l in Visible(loads, n) && w in l.workloads && w.clusterId == cid;
        VisibleIs(loads, n, l.host, w);
      }
      forall h, w | h in p.hosts && Runs(loads, h, w) && w.clusterId != "" && h in query.value.answers
        && query.value.shows(h, w)
        ensures w.clusterId in IdsOf(Visible(loads, n))
      {
        VisibleIs(loads, n, h, w);
      }
    }
  }

  lemma AllConfirmedIff(loads: seq<HostLoad>, p: Plan, query: Option<Query>, t: Teardown)
    requires WellFormed(loads) && Composed(p)
    ensures var seen := Seen(loads, LaunchOf(p, query));
      (forall cid, h :: cid in Overlapping(seen, ElemsOf(p.a.hostsUsed)) && (cid, h) in seen ==>
        !t.raises(cid) && t.confirms(cid, h)) <==>
      forall i, w ::
        && 0 <= i < |loads| && w in loads[i].workloads && MatchesIntent(w, p.intent) && w.clusterId != CidOf(p)
        && Aimed(loads, p, query, loads[i].host, w) ==>
          !t.raises(w.clusterId) && t.confirms(w.clusterId, loads[i].host)
  {
    hide Aimed, Overlapping, Seen;
    var n := LaunchOf(p, query);
    var seen := Seen(loads, n);
    forall i, w | 0 <= i < |loads| && w in loads[i].workloads && MatchesIntent(w, p.intent) && w.clusterId != CidOf(p)
      ensures Aimed(loads, p, query, loads[i].host, w) <==>
        (w.clusterId, loads[i].host) in seen && w.clusterId in Overlapping(seen, n.targets)
    {
      AimedIsSeen(loads, i, p, query, w);
    }
    forall cid, h | (cid, h) in seen
      ensures exists i, w ::
        && 0 <= i < |loads| && loads[i].host == h && w in loads[i].workloads && w.clusterId == cid
        && MatchesIntent(w, p.intent) && w.clusterId != CidOf(p)
    {
      SeenAre(loads, n, cid, h);
      var w :| Runs(loads, h, w) && w.clusterId == cid && Superseded(w, n) && Sees(n, h, w);
      var l :| l in loads && l.host == h && w in l.workloads;
      var i :| 0 <= i < |loads| && loads[i] == l;
      LabelledOnHost(loads, i, w);
      MatchesItsIntent(w, p.intent);
    }
  }

  /** `run` on a plan made earlier, on the cluster as it now is: evict, clean up, start. */
  method StartPlan(c: Cluster, p: Plan, query: Option<Query>, t: Teardown, ghost hw: string -> Hardware)
    returns (observed: Option<set<string>>, allConfirmed: bool)
    modifies c
    ensures c.loads == AfterLaunch(old(c.loads), p, query, t)
    ensures old(WellFormed(c.loads)) && Composed(p) ==> WellFormed(c.loads)
    ensures old(Good(c.loads, hw)) && Composed(p) ==>
      (Good(c.loads, hw) <==> SafeStart(old(c.loads), p, query, t, hw))
    // A failed query observes nothing; any other observes exactly the ids it showed on the candidates.
    ensures observed.None? <==> query.None?
    ensures query.Some? ==> forall cid :: cid in observed.value <==>
      cid != "" && exists h, w ::
        && h in p.hosts && Runs(old(c.loads), h, w) && w.clusterId == cid
        && h in query.value.answers && query.value.shows(h, w)
    ensures old(WellFormed(c.loads)) && Composed(p) ==>
      (allConfirmed <==> forall i, w ::
        && 0 <= i < |old(c.loads)| && w in old(c.loads)[i].workloads
        && MatchesIntent(w, p.intent) && w.clusterId != CidOf(p)
        && Aimed(old(c.loads), p, query, old(c.loads)[i].host, w) ==>
          !t.raises(w.clusterId) && t.confirms(w.clusterId, old(c.loads)[i].host))
    ensures allConfirmed && Honest(t) ==> RemovesAll(old(c.loads), LaunchOf(p, query), t)
  {
    ghost var was := c.loads;
    var n := LaunchOf(p, query);
    var evicted;
    evicted, observed, allConfirmed := c.Evict(n, t);
    c.loads := Started(CleanedOf(c.loads, n), p);
    ObservedAre(was, p, query);
    if Composed(p) && WellFormed(was) {
      AllConfirmedIff(was, p, query, t);
    }
    hide Seen, Overlapping, Visible, Aimed;
    if allConfirmed && Honest(t) {
      ConfirmedRemovesAll(was, n, t);
    }
    if Composed(p) && WellFormed(was) {
      LaunchKeepsOthers(was, p, query, t);
      if Good(was, hw) {
        LaunchKeepsGoodIff(was, p, query, t, hw);
      }
    }
  }
}
