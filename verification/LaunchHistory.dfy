/**
 * Histories of a cluster: plans made, plans started later, deployments stopped, in any order (`api/_run.py`, `plan`,
 * `run`). What every history keeps, exactly when capacity is kept, and what goes wrong otherwise.
 */
module LaunchHistory {
  import opened Prelude
  import opened Snapshot
  import opened Exclusion
  import opened Pack
  import opened Eviction
  import opened Halves
  import opened Relaunch

  /**
   * The loads, the plans made so far, and those of them that are current: no launch of another intent has started on
   * their targets since they were made.
   */
  datatype State = State(loads: seq<HostLoad>, plans: seq<Plan>, current: set<nat>)

  datatype Event =
    | Decide(p: Plan)
    | Start(k: nat, query: Option<Query>, t: Teardown)
    | Stop(cid: string, on: set<string>, t: Teardown)

  /** Plans are made of the loads as they are; which scheduler placed them does not matter here. */
  ghost predicate Allowed(s: State, e: Event) {
    match e
    case Decide(p) => Composed(p) && p.was == s.loads
    case Start(k, _, _) => k < |s.plans|
    case Stop(_, _, _) => true
  }

  predicate Disturbs(a: Plan, b: Plan) {
    a.intent != b.intent && exists h :: h in a.a.hostsUsed && h in b.a.hostsUsed
  }

  function OnHosts(cid: string, on: set<string>): set<(string, string)> {
    set h | h in on :: (cid, h)
  }

  function Next(s: State, e: Event): State
    requires e.Start? ==> e.k < |s.plans|
  {
    match e
    case Decide(p) => State(s.loads, s.plans + [p], s.current + {|s.plans|})
    case Start(k, query, t) =>
      State(AfterLaunch(s.loads, s.plans[k], query, t), s.plans,
            set j | j in s.current && j < |s.plans| && !Disturbs(s.plans[k], s.plans[j]))
    case Stop(cid, on, t) => s.(loads := Stopped(s.loads, {cid}, OnHosts(cid, on), t))
  }

  /** A stop by name takes that deployment off the hosts it is aimed at, as far as the stop removes it, and no more. */
  lemma StopExactly(s: State, cid: string, on: set<string>, t: Teardown, i: nat, w: Workload)
    requires i < |s.loads|
    ensures var next := Next(s, Stop(cid, on, t));
      && next.plans == s.plans && next.current == s.current && |next.loads| == |s.loads|
      && next.loads[i].host == s.loads[i].host
      && (w in next.loads[i].workloads <==>
            && w in s.loads[i].workloads
            && !(w.clusterId == cid && s.loads[i].host in on && t.removes(cid, s.loads[i].host)))
  {
    StoppedIs(s.loads, {cid}, OnHosts(cid, on), t, i, w);
  }

  /** A plan stays current unless another intent is started on one of its targets. */
  lemma StaysCurrentIff(s: State, k: nat, query: Option<Query>, t: Teardown, j: nat)
    requires k < |s.plans| && j < |s.plans|
    ensures var next := Next(s, Start(k, query, t));
      && next.plans == s.plans && next.loads == AfterLaunch(s.loads, s.plans[k], query, t)
      && (j in next.current <==>
            && j in s.current
            && (s.plans[k].intent == s.plans[j].intent
                || forall h :: h in s.plans[k].a.hostsUsed ==> h !in s.plans[j].a.hostsUsed))
  {
  }

  ghost predicate AllAllowed(s: State, es: seq<Event>)
    decreases |es|
  {
    es == [] || (Allowed(s, es[0]) && AllAllowed(Next(s, es[0]), es[1..]))
  }

  ghost function Run(s: State, es: seq<Event>): State
    requires AllAllowed(s, es)
    decreases |es|
  {
    if es == [] then s else Run(Next(s, es[0]), es[1..])
  }

  ghost predicate Consistent(s: State) {
    WellFormed(s.loads) && forall p :: p in s.plans ==> Composed(p)
  }

  lemma StopKeeps(loads: seq<HostLoad>, cid: string, seen: set<(string, string)>, t: Teardown)
    requires WellFormed(loads)
    ensures var r := Stopped(loads, {cid}, seen, t);
      && WellFormed(r)
      && (forall hw :: Good(loads, hw) ==> Good(r, hw))
      && forall i, w :: 0 <= i < |loads| && w in r[i].workloads ==> w in loads[i].workloads
  {
    var r := Stopped(loads, {cid}, seen, t);
    forall i | 0 <= i < |loads|
      ensures DistinctOn(r[i].workloads) && (OneEach(loads[i].workloads) ==> OneEach(r[i].workloads))
      ensures Load(r[i].workloads) <= Load(loads[i].workloads)
      ensures forall w :: w in r[i].workloads ==> w in loads[i].workloads && WellLabelled(w)
    {
      assert loads[i] in loads;
      ThinnedHost(loads[i].workloads, Survives({cid}, seen, loads[i].host, t));
      forall w | w in r[i].workloads ensures WellLabelled(w) {
        LabelledOnHost(loads, i, w);
      }
    }
    WellFormedFromHosts(r);
    forall hw | Good(loads, hw) ensures Good(r, hw) {
      forall l | l in r ensures OneEach(l.workloads) && Load(l.workloads) <= hw(l.host).gpus {
        var i :| 0 <= i < |r| && r[i] == l;
        assert loads[i] in loads;
      }
    }
  }

  lemma NextConsistent(s: State, e: Event)
    requires Consistent(s) && Allowed(s, e)
    ensures Consistent(Next(s, e))
    ensures |Next(s, e).loads| == |s.loads|
    ensures forall i :: 0 <= i < |s.loads| ==> Next(s, e).loads[i].host == s.loads[i].host
  {
    match e
    case Decide(p) =>
    case Start(k, query, t) => LaunchKeepsOthers(s.loads, s.plans[k], query, t);
    case Stop(cid, on, t) => StopKeeps(s.loads, cid, OnHosts(cid, on), t);
  }

  // ---- capacity over histories ----

  ghost predicate GoodThroughout(s: State, es: seq<Event>, hw: string -> Hardware)
    requires AllAllowed(s, es)
    decreases |es|
  {
    Good(s.loads, hw) && (es == [] || GoodThroughout(Next(s, es[0]), es[1..], hw))
  }

  ghost predicate SafeEvent(s: State, e: Event, hw: string -> Hardware)
    requires Allowed(s, e)
  {
    e.Start? ==> SafeStart(s.loads, s.plans[e.k], e.query, e.t, hw)
  }

  ghost predicate EveryStartSafe(s: State, es: seq<Event>, hw: string -> Hardware)
    requires AllAllowed(s, es)
    decreases |es|
  {
    es == [] || (SafeEvent(s, es[0], hw) && EveryStartSafe(Next(s, es[0]), es[1..], hw))
  }

  lemma NextGoodIff(s: State, e: Event, hw: string -> Hardware)
    requires Consistent(s) && Good(s.loads, hw) && Allowed(s, e)
    ensures Good(Next(s, e).loads, hw) <==> SafeEvent(s, e, hw)
  {
    match e
    case Decide(p) =>
    case Start(k, query, t) => LaunchKeepsGoodIff(s.loads, s.plans[k], query, t, hw);
    case Stop(cid, on, t) => StopKeeps(s.loads, cid, OnHosts(cid, on), t);
  }

  /**
   * Over every history of plans, starts and stops: no host ever exceeds its hardware and no intent ever runs twice on
   * one host, if and only if every start is safe on the loads it finds.
   */
  lemma {:induction false} HistoriesStayGoodIff(s: State, es: seq<Event>, hw: string -> Hardware)
    requires Consistent(s) && Good(s.loads, hw) && AllAllowed(s, es)
    ensures GoodThroughout(s, es, hw) <==> EveryStartSafe(s, es, hw)
    decreases |es|
  {
    if es != [] {
      NextGoodIff(s, es[0], hw);
      NextConsistent(s, es[0]);
      var next := Next(s, es[0]);
      if Good(next.loads, hw) {
        HistoriesStayGoodIff(next, es[1..], hw);
      }
    }
  }

  // ---- what makes starts safe ----

  /** The planning query showed every workload of another intent that ran on the targets. */
  ghost predicate FullyShown(p: Plan) {
    forall h, w :: h in p.a.hostsUsed && Runs(p.was, h, w) && !MatchesIntent(w, p.intent) ==> ShownToPlan(p, h, w)
  }

  /** Nothing of another intent runs on the plan's targets. */
  ghost predicate Clear(loads: seq<HostLoad>, p: Plan) {
    forall i :: 0 <= i < |loads| && loads[i].host in p.a.hostsUsed ==> Kept(loads[i].workloads, {p.intent}) == []
  }

  ghost predicate Sound(p: Plan, hw: string -> Hardware) {
    Planned(p, hw) && FullyShown(p)
  }

  /** The targets of a current plan are as clear as it found them. */
  ghost predicate CurrentClear(s: State, hw: string -> Hardware) {
    forall j :: j in s.current ==> j < |s.plans| && (Sound(s.plans[j], hw) ==> Clear(s.loads, s.plans[j]))
  }

  lemma KeptNone(ws: seq<Workload>, intent: string)
    ensures Kept(ws, {intent}) == [] <==> forall w :: w in ws ==> MatchesIntent(w, intent)
  {
    FilterExtremes(Foreign({intent}), ws);
    forall w ensures Foreign({intent})(w) <==> !MatchesIntent(w, intent) {
      MatchesOne(w, intent);
    }
  }

  /** A packed plan that was shown everything on its targets finds them clear. */
  lemma SoundPlanIsClear(p: Plan, hw: string -> Hardware)
    requires Sound(p, hw) && WellFormed(p.was)
    ensures Clear(p.was, p)
  {
    forall i | 0 <= i < |p.was| && p.was[i].host in p.a.hostsUsed ensures Kept(p.was[i].workloads, {p.intent}) == [] {
      var h := p.was[i].host;
      TargetLookedIdle(p, h, hw);
      forall w | w in p.was[i].workloads ensures MatchesIntent(w, p.intent) {
        RunsOnHost(p.was, i, w);
      }
      KeptNone(p.was[i].workloads, p.intent);
    }
  }

  lemma StartKeepsClear(loads: seq<HostLoad>, q: Plan, query: Option<Query>, t: Teardown, p: Plan)
    requires WellFormed(loads) && Composed(q) && Clear(loads, p) && !Disturbs(q, p)
    ensures Clear(AfterLaunch(loads, q, query, t), p)
  {
    var r := AfterLaunch(loads, q, query, t);
    forall i | 0 <= i < |r| && r[i].host in p.a.hostsUsed ensures Kept(r[i].workloads, {p.intent}) == [] {
      if q.intent == p.intent {
        StartOnHost(loads, i, q, query, t);
      } else {
        LeftIsThinned(loads, i, q, query, t);
        KeptNone(loads[i].workloads, p.intent);
        KeptNone(r[i].workloads, p.intent);
      }
    }
  }

  lemma StopKeepsClear(loads: seq<HostLoad>, cid: string, seen: set<(string, string)>, t: Teardown, p: Plan)
    requires WellFormed(loads) && Clear(loads, p)
    ensures Clear(Stopped(loads, {cid}, seen, t), p)
  {
    StopKeeps(loads, cid, seen, t);
    var r := Stopped(loads, {cid}, seen, t);
    forall i | 0 <= i < |r| && r[i].host in p.a.hostsUsed ensures Kept(r[i].workloads, {p.intent}) == [] {
      KeptNone(loads[i].workloads, p.intent);
      KeptNone(r[i].workloads, p.intent);
    }
  }

  lemma NextClear(s: State, e: Event, hw: string -> Hardware)
    requires Consistent(s) && CurrentClear(s, hw) && Allowed(s, e)
    ensures CurrentClear(Next(s, e), hw)
  {
    var next := Next(s, e);
    forall j | j in next.current
      ensures j < |next.plans| && (Sound(next.plans[j], hw) ==> Clear(next.loads, next.plans[j]))
    {
      if j < |s.plans| && Sound(next.plans[j], hw) {
        match e
        case Decide(p) =>
        case Start(k, query, t) => StartKeepsClear(s.loads, s.plans[k], query, t, s.plans[j]);
        case Stop(cid, on, t) => StopKeepsClear(s.loads, cid, OnHosts(cid, on), t, s.plans[j]);
      } else if Sound(next.plans[j], hw) {
        SoundPlanIsClear(next.plans[j], hw);
      }
    }
  }

  /** A packed plan, made on a full answer, started while current, with the intent's earlier deployments removed. */
  ghost predicate Careful(s: State, e: Event, hw: string -> Hardware)
    requires Allowed(s, e)
  {
    e.Start? ==>
      && e.k in s.current && Sound(s.plans[e.k], hw)
      && forall l :: l in s.loads && l.host in s.plans[e.k].a.hostsUsed ==> OwnReached(l, s.plans[e.k], e.query, e.t)
  }

  ghost predicate AllCareful(s: State, es: seq<Event>, hw: string -> Hardware)
    requires AllAllowed(s, es)
    decreases |es|
  {
    es == [] || (Careful(s, es[0], hw) && AllCareful(Next(s, es[0]), es[1..], hw))
  }

  lemma CarefulIsSafe(s: State, e: Event, hw: string -> Hardware)
    requires Consistent(s) && CurrentClear(s, hw) && Allowed(s, e) && Careful(s, e, hw)
    ensures SafeEvent(s, e, hw)
  {
    if e.Start? {
      var p := s.plans[e.k];
      forall i | 0 <= i < |s.loads| && s.loads[i].host in p.a.hostsUsed
        ensures SafeOn(s.loads[i], p, e.query, e.t, hw)
      {
        PlacementWithinHardware(p.a, p.ranks, p.hosts, hw, PlanningView(p, hw), s.loads[i].host);
      }
    }
  }

  /** Careful histories keep the cluster good throughout, however plans, starts and stops interleave. */
  lemma {:induction false} CarefulHistoriesStayGood(s: State, es: seq<Event>, hw: string -> Hardware)
    requires Consistent(s) && Good(s.loads, hw) && CurrentClear(s, hw)
    requires AllAllowed(s, es) && AllCareful(s, es, hw)
    ensures GoodThroughout(s, es, hw)
    decreases |es|
  {
    if es != [] {
      CarefulIsSafe(s, es[0], hw);
      NextGoodIff(s, es[0], hw);
      NextConsistent(s, es[0]);
      NextClear(s, es[0], hw);
      CarefulHistoriesStayGood(Next(s, es[0]), es[1..], hw);
    }
  }

  // ---- each condition is needed ----

  /** A query that brings back everything there is on these hosts. */
  function Everything(hosts: set<string>): Query {
    Query(hosts, (h, w) => true)
  }

  /** Stops that raise nothing, confirm everywhere and remove what they are aimed at. */
  function Obedient(): Teardown {
    Teardown(cid => false, (cid, h) => true, (cid, h) => true)
  }

  function OneGpu(): string -> Hardware {
    h => Hardware(1, {"nvidia"})
  }

  /** One rank on each of these hosts. */
  function OnePerHost(intent: string, token: string, hosts: seq<string>, was: seq<HostLoad>,
                      query: Option<Query>): Plan {
    var slots := seq(|hosts|, i requires 0 <= i < |hosts| => RankSlot(hosts[i], 0));
    Plan(intent, token, Assignment(slots, hosts), |hosts|, hosts, (h, w) => 1, was, query)
  }

  lemma {:induction false} OneRankEach(hosts: seq<string>, slots: seq<RankSlot>, h: string)
    requires NoDup(hosts) && |slots| == |hosts|
    requires forall i :: 0 <= i < |hosts| ==> slots[i] == RankSlot(hosts[i], 0)
    ensures RanksOn(slots, h) == if h in hosts then 1 else 0
  {
    if hosts != [] {
      var k := |hosts| - 1;
      OneRankEach(hosts[..k], slots[..k], h);
      assert hosts == hosts[..k] + [hosts[k]];
    }
  }

  /** Such a plan is what packing gives when the answer shows only its own intent on the hosts. */
  lemma OnePerHostIsPlanned(p: Plan)
    requires ValidHalves(p.intent, p.token) && NoDup(p.hosts) && DistinctHosts(p.was)
    requires p == OnePerHost(p.intent, p.token, p.hosts, p.was, p.query)
    requires forall h, w :: h in p.hosts && Runs(p.was, h, w) && ShownToPlan(p, h, w) ==> MatchesIntent(w, p.intent)
    ensures Planned(p, OneGpu())
    ensures forall h :: h in p.hosts ==> RanksOn(p.a.byRank, h) == 1
  {
    var slots, view := p.a.byRank, PlanningView(p, OneGpu());
    assert forall i :: 0 <= i < |slots| ==> slots[i] == RankSlot(p.hosts[i], 0);
    assert NamedHosts(slots) == ElemsOf(p.hosts) by {
      forall h | h in p.hosts ensures h in NamedHosts(slots) {
        var i :| 0 <= i < |p.hosts| && p.hosts[i] == h;
        assert slots[i] in slots;
      }
    }
    forall s | s in slots ensures s.gpu in Eligible(1, OccOf(view, s.host)) && !Ambiguous(1, OccOf(view, s.host)) {
      OfferedIff(p, s.host, OneGpu());
      assert 0 in Range(0, 1);
    }
    forall h | h in p.hosts ensures RanksOn(slots, h) == 1 {
      OneRankEach(p.hosts, slots, h);
    }
  }

  lemma Remainder(loads: seq<HostLoad>, i: nat, p: Plan, query: Option<Query>, t: Teardown, w: Workload)
    requires i < |loads| && loads[i].host in p.a.hostsUsed && WellFormed(loads) && Composed(p)
    requires w in loads[i].workloads
    requires MatchesIntent(w, p.intent) ==> Spared(p, query, t, loads[i].host)(w)
    ensures Load(AfterLaunch(loads, p, query, t)[i].workloads) >= 2
  {
    var spared, kept := Filter(Spared(p, query, t, loads[i].host), loads[i].workloads),
                        Kept(loads[i].workloads, {p.intent});
    TargetLoadIs(loads, i, p, query, t);
    RanksNamed(p, loads[i].host);
    FilterIs(Spared(p, query, t, loads[i].host), loads[i].workloads);
    KeptIs(loads[i].workloads, {p.intent});
    MatchesOne(w, p.intent);
    assert w in spared || w in kept;
    LoadCovers(spared);
    LoadCovers(kept);
  }

  /** A cluster of one idle host and one that runs a single rank of this intent. */
  function IdleAndBusy(g: string, h: string, intent: string, token: string): seq<HostLoad> {
    [HostLoad(g, []), HostLoad(h, [Workload(ClusterId(intent, token), Some(intent), 1)])]
  }

  lemma IdleAndBusyIsGood(g: string, h: string, intent: string, token: string)
    requires g != h && ValidHalves(intent, token)
    ensures Good(IdleAndBusy(g, h, intent, token), OneGpu())
    ensures forall x, w :: Runs(IdleAndBusy(g, h, intent, token), x, w) ==>
      x == h && WellLabelled(w) && IntentOf(w) == intent
  {
    var busy := Workload(ClusterId(intent, token), Some(intent), 1);
    ParseComposed(intent, token);
    assert [busy][1..] == [] && Load([busy]) == 1;
  }

  /**
   * The planning query misses a busy host: the packer takes it for idle. Whatever the eviction then sees and does, the
   * host ends up with at least two claims on one GPU, and nothing has failed that anyone is told of.
   */
  lemma MissedHostIsOverCommitted(g: string, h: string, intent: string, other: string, token: string,
                                  query: Option<Query>, t: Teardown) returns (loads: seq<HostLoad>, p: Plan)
    requires g != h && intent != other && ValidHalves(intent, token) && ValidHalves(other, token)
    ensures Good(loads, OneGpu()) && |loads| == 2 && loads[1].host == h
    ensures Planned(p, OneGpu()) && p.was == loads && p.query == Some(Everything({g}))
    ensures Load(AfterLaunch(loads, p, query, t)[1].workloads) >= 2
  {
    loads := IdleAndBusy(g, h, other, token);
    p := OnePerHost(intent, token, [g, h], loads, Some(Everything({g})));
    IdleAndBusyIsGood(g, h, other, token);
    OnePerHostIsPlanned(p);
    var w := loads[1].workloads[0];
    LabelledOnHost(loads, 1, w);
    MatchesItsIntent(w, intent);
    Remainder(loads, 1, p, query, t, w);
  }

  /**
   * The eviction's query fails, or misses the host on which planning saw only the intent's old deployment. That is
   * never stopped, so nothing can raise or fail to confirm, and the new one starts beside it.
   */
  lemma MissedEvictionIsOverCommitted(g: string, h: string, intent: string, earlier: string, token: string,
                                      query: Option<Query>, t: Teardown) returns (loads: seq<HostLoad>, p: Plan)
    requires g != h && earlier != token && ValidHalves(intent, token) && ValidHalves(intent, earlier)
    requires query.None? || h !in query.value.answers
    ensures Good(loads, OneGpu()) && |loads| == 2 && loads[1].host == h
    ensures Planned(p, OneGpu()) && p.was == loads && p.query == Some(Everything({g, h}))
    ensures Overlapping(Seen(loads, LaunchOf(p, query)), ElemsOf(p.a.hostsUsed)) == {}
    ensures Load(AfterLaunch(loads, p, query, t)[1].workloads) >= 2
  {
    loads := IdleAndBusy(g, h, intent, earlier);
    p := OnePerHost(intent, token, [g, h], loads, Some(Everything({g, h})));
    IdleAndBusyIsGood(g, h, intent, earlier);
    forall x, w | Runs(loads, x, w) ensures MatchesIntent(w, intent) {
      MatchesItsIntent(w, intent);
    }
    OnePerHostIsPlanned(p);
    var w := loads[1].workloads[0];
    LabelledOnHost(loads, 1, w);
    MatchesOne(w, intent);
    assert ClusterId(intent, earlier)[26..] == earlier && ClusterId(intent, token)[26..] == token;
    Remainder(loads, 1, p, query, t, w);
    forall pair | pair in Seen(loads, LaunchOf(p, query)) ensures false {
      SeenAre(loads, LaunchOf(p, query), pair.0, pair.1);
    }
  }

  lemma IdlePlanIsSound(h: string, intent: string, token: string)
    requires ValidHalves(intent, token)
    ensures var p := OnePerHost(intent, token, [h], [HostLoad(h, [])], Some(Everything({h})));
      Sound(p, OneGpu()) && Good(p.was, OneGpu())
  {
    OnePerHostIsPlanned(OnePerHost(intent, token, [h], [HostLoad(h, [])], Some(Everything({h}))));
  }

  /** Starting `p` and then `q`, of another intent, on a host of both. */
  lemma CrossedStarts(loads: seq<HostLoad>, p: Plan, q: Plan, first: Option<Query>, u: Teardown, query: Option<Query>,
                      t: Teardown)
    requires WellFormed(loads) && |loads| == 1 && Composed(p) && Composed(q) && p.intent != q.intent
    requires loads[0].host in p.a.hostsUsed && loads[0].host in q.a.hostsUsed
    ensures Load(AfterLaunch(AfterLaunch(loads, p, first, u), q, query, t)[0].workloads) >= 2
  {
    var h, next := loads[0].host, AfterLaunch(loads, p, first, u);
    var w := Starting(p, h);
    LaunchKeepsOthers(loads, p, first, u);
    StartingIs(p, h);
    MatchesItsIntent(w, q.intent);
    assert w in next[0].workloads;
    Remainder(next, 0, q, query, t, w);
  }

  /**
   * Two plans made on the same idle host, each on a full answer, both started: the first is in the way of the second,
   * whatever the second's eviction sees and does.
   */
  lemma CrossedPlansOverCommit(h: string, a: string, b: string, token: string, query: Option<Query>, t: Teardown)
    returns (s: State, es: seq<Event>)
    requires a != b && ValidHalves(a, token) && ValidHalves(b, token)
    ensures Consistent(s) && Good(s.loads, OneGpu()) && |s.loads| == 1 && s.loads[0] == HostLoad(h, [])
    ensures AllAllowed(s, es) && |es| == 4 && es[3] == Start(1, query, t)
    ensures forall e :: e in es && e.Decide? ==> Sound(e.p, OneGpu())
    ensures |Run(s, es).loads| == 1 && Load(Run(s, es).loads[0].workloads) >= 2
  {
    hide Sound, WellFormed, AfterLaunch, Stopped;
    var loads, all := [HostLoad(h, [])], Some(Everything({h}));
    var p, q := OnePerHost(a, token, [h], loads, all), OnePerHost(b, token, [h], loads, all);
    s := State(loads, [], {});
    es := [Decide(p), Decide(q), Start(0, all, Obedient()), Start(1, query, t)];
    IdlePlanIsSound(h, a, token);
    IdlePlanIsSound(h, b, token);
    SoundIsComposed(p);
    SoundIsComposed(q);
    var s1 := Next(s, es[0]);
    var s2 := Next(s1, es[1]);
    var s3 := Next(s2, es[2]);
    RunFour(s, es, s1, s2, s3, Next(s3, es[3]));
    CrossedStarts(loads, p, q, all, Obedient(), query, t);
  }

  lemma SoundIsComposed(p: Plan)
    requires Sound(p, OneGpu())
    ensures Composed(p)
  {
  }

  lemma RunFour(s: State, es: seq<Event>, s1: State, s2: State, s3: State, s4: State)
    requires |es| == 4
    requires Allowed(s, es[0]) && s1 == Next(s, es[0])
    requires Allowed(s1, es[1]) && s2 == Next(s1, es[1])
    requires Allowed(s2, es[2]) && s3 == Next(s2, es[2])
    requires Allowed(s3, es[3]) && s4 == Next(s3, es[3])
    ensures AllAllowed(s, es) && Run(s, es) == s4
  {
    var e1 := es[1..];
    var e2 := e1[1..];
    var e3 := e2[1..];
    assert e1[0] == es[1] && e2[0] == es[2] && e3[0] == es[3] && e3[1..] == [];
    assert AllAllowed(s4, e3[1..]) && Run(s4, e3[1..]) == s4;
    assert AllAllowed(s3, e3) && Run(s3, e3) == s4;
    assert AllAllowed(s2, e2) && Run(s2, e2) == s4;
    assert AllAllowed(s1, e1) && Run(s1, e1) == s4;
  }

  // ---- other intents over histories ----

  /** The event neither starts this intent nor stops one of its deployments by name. */
  ghost predicate LeavesAlone(s: State, e: Event, intent: string)
    requires Allowed(s, e)
  {
    match e
    case Decide(_) => true
    case Start(k, _, _) => s.plans[k].intent != intent
    case Stop(cid, _, _) => ParseClusterId(cid).Some? ==> ParseClusterId(cid).value.0 != intent
  }

  ghost predicate AllLeaveAlone(s: State, es: seq<Event>, intent: string)
    requires AllAllowed(s, es)
    decreases |es|
  {
    es == [] || (LeavesAlone(s, es[0], intent) && AllLeaveAlone(Next(s, es[0]), es[1..], intent))
  }

  lemma StopLeavesAlone(loads: seq<HostLoad>, i: nat, cid: string, seen: set<(string, string)>, t: Teardown,
                        intent: string)
    requires i < |loads| && intent != "" && (ParseClusterId(cid).Some? ==> ParseClusterId(cid).value.0 != intent)
    requires forall w :: w in loads[i].workloads ==> WellLabelled(w)
    ensures Removed(Stopped(loads, {cid}, seen, t)[i].workloads, {intent}) == Removed(loads[i].workloads, {intent})
  {
    var ws, h := loads[i].workloads, loads[i].host;
    forall w | w in ws ensures Own({intent})(w) ==> Survives({cid}, seen, h, t)(w) {
      MatchesOne(w, intent);
      MatchesItsIntent(w, intent);
    }
    FilterFilter(Survives({cid}, seen, h, t), Own({intent}), Own({intent}), ws);
  }

  lemma LaunchLeavesAlone(before: seq<Workload>, after: seq<Workload>, launched: string, intent: string)
    requires launched != "" && intent != "" && launched != intent
    requires forall w :: w in before || w in after ==> WellLabelled(w)
    requires Kept(after, {launched}) == Kept(before, {launched})
    ensures Removed(after, {intent}) == Removed(before, {intent})
  {
    forall w | w in before || w in after ensures Own({intent})(w) ==> Foreign({launched})(w) {
      MatchesOne(w, intent); MatchesOne(w, launched);
      MatchesItsIntent(w, intent); MatchesItsIntent(w, launched);
    }
    FilterFilter(Foreign({launched}), Own({intent}), Own({intent}), before);
    FilterFilter(Foreign({launched}), Own({intent}), Own({intent}), after);
  }

  lemma NextLeavesAlone(s: State, e: Event, intent: string)
    requires Consistent(s) && Allowed(s, e) && LeavesAlone(s, e, intent) && intent != ""
    ensures |Next(s, e).loads| == |s.loads|
    ensures forall i :: 0 <= i < |s.loads| ==>
      Removed(Next(s, e).loads[i].workloads, {intent}) == Removed(s.loads[i].workloads, {intent})
  {
    var next := Next(s, e);
    NextConsistent(s, e);
    forall i | 0 <= i < |s.loads|
      ensures Removed(next.loads[i].workloads, {intent}) == Removed(s.loads[i].workloads, {intent})
    {
      forall w | w in s.loads[i].workloads ensures WellLabelled(w) { LabelledOnHost(s.loads, i, w); }
      forall w | w in next.loads[i].workloads ensures WellLabelled(w) { LabelledOnHost(next.loads, i, w); }
      match e
      case Decide(_) =>
      case Start(k, query, t) =>
        LaunchKeepsOthers(s.loads, s.plans[k], query, t);
        LaunchLeavesAlone(s.loads[i].workloads, next.loads[i].workloads, s.plans[k].intent, intent);
      case Stop(cid, on, t) => StopLeavesAlone(s.loads, i, cid, OnHosts(cid, on), t, intent);
    }
  }

  /**
   * Over every history, whatever the queries miss and the stops do, an intent nobody starts or stops keeps exactly its
   * workloads on every host.
   */
  lemma {:induction false} HistoriesKeepOthers(s: State, es: seq<Event>, intent: string)
    requires Consistent(s) && AllAllowed(s, es) && AllLeaveAlone(s, es, intent) && intent != ""
    ensures |Run(s, es).loads| == |s.loads|
    ensures forall i :: 0 <= i < |s.loads| ==>
      Run(s, es).loads[i].host == s.loads[i].host
      && Removed(Run(s, es).loads[i].workloads, {intent}) == Removed(s.loads[i].workloads, {intent})
    decreases |es|
  {
    if es != [] {
      NextConsistent(s, es[0]);
      NextLeavesAlone(s, es[0], intent);
      HistoriesKeepOthers(Next(s, es[0]), es[1..], intent);
    }
  }
}
