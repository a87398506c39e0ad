/** Which recorded state a benchmark run picks up (`api/_benchmark.py`, `_execute_benchmark`). */
module Resume {
  import opened Prelude
  import opened RunState
  import HostKey
  import Snapshot
  import TaskList

  datatype Mode = Auto | IfExists | Fresh | Required

  /**
   * One benchmark run under its lock. `onComplete` and `onPrompt` are the callbacks' answers, when the caller supplied
   * them; `configured` says that a configuration object is present.
   */
  datatype Request = Request(clusterId: string, framework: string, profile: Option<string>, baseArgs: TaskList.Args,
                             schedule: seq<TaskList.Args>, fingerprint: Option<string>, hosts: seq<string>,
                             mode: Mode, onComplete: Option<bool>, onPrompt: Option<bool>, configured: bool)

  // ---- the benchmark id ----

  /** What `derive_benchmark_id` digests; with an injective digest this is the id itself. */
  datatype Payload = Payload(identity: string, framework: string, profile: Option<string>, baseArgs: TaskList.Args,
                             schedule: seq<TaskList.Args>, fingerprint: Option<string>, hostKey: Option<string>)

  /** The intent half of a canonical cluster id; any other id verbatim. */
  function Identity(clusterId: string): string {
    match Snapshot.ParseClusterId(clusterId)
    case Some((intent, _)) => intent
    case None => clusterId
  }

  function IdOf(r: Request): Payload {
    var key := HostKey.CanonicalHostKey(r.hosts);
    Payload(Identity(r.clusterId), r.framework, r.profile, r.baseArgs, r.schedule, r.fingerprint,
            if key == "" then None else Some(key))
  }

  /**
   * Two runs share a directory exactly when they agree on intent, recipe content, schedule and nodes; an id that does
   * not parse stands for itself.
   */
  lemma SameIdIff(r: Request, r': Request)
    requires HostKey.PlainHosts(r.hosts) && HostKey.PlainHosts(r'.hosts)
    ensures IdOf(r) == IdOf(r') <==>
      && (match (Snapshot.ParseClusterId(r.clusterId), Snapshot.ParseClusterId(r'.clusterId))
          case (Some((a, _)), Some((b, _))) => a == b
          case (Some((a, _)), None) => a == r'.clusterId
          case (None, Some((b, _))) => r.clusterId == b
          case (None, None) => r.clusterId == r'.clusterId)
      && r.framework == r'.framework && r.profile == r'.profile && r.fingerprint == r'.fingerprint
      && r.baseArgs == r'.baseArgs && r.schedule == r'.schedule
      && multiset(r.hosts) == multiset(r'.hosts)
  {
    HostKey.KeyEmpty(r.hosts);
    HostKey.KeyEmpty(r'.hosts);
    HostKey.KeyIdentifiesMultiset(r.hosts, r'.hosts);
  }

  lemma RelaunchKeepsId(r: Request, intent: string, token: string, token': string)
    requires Snapshot.ValidHalves(intent, token) && Snapshot.ValidHalves(intent, token')
    ensures IdOf(r.(clusterId := Snapshot.ClusterId(intent, token)))
         == IdOf(r.(clusterId := Snapshot.ClusterId(intent, token')))
  {
    Snapshot.ParseComposed(intent, token);
    Snapshot.ParseComposed(intent, token');
  }

  // ---- the decision ----

  predicate IsMismatch(found: Option<Saved>, r: Request) {
    found.Some? && !HostKey.MatchesHosts(found.value.hosts, r.hosts)
  }

  predicate AllDone(s: Saved, total: nat) {
    Pending(s, total).None?
  }

  /** The recorded state is kept, rather than discarded by the mode or by the user's answer. */
  predicate Kept(s: Saved, r: Request) {
    && r.mode != Fresh
    && (r.mode == Auto ==> if AllDone(s, |r.schedule|) then r.onComplete != Some(true) else r.onPrompt != Some(false))
  }

  predicate Reuses(found: Option<Saved>, r: Request) {
    found.Some? && !IsMismatch(found, r) && Kept(found.value, r)
  }

  /** `NoResumableState`. */
  predicate Refuses(found: Option<Saved>, r: Request) {
    r.mode == Required && (found.None? || IsMismatch(found, r))
  }

  predicate Clears(found: Option<Saved>, r: Request) {
    r.configured && found.Some? && !Reuses(found, r)
  }

  /** A reused state with its host list backfilled and its cluster id brought up to date. */
  function Refreshed(s: Saved, r: Request): Saved {
    s.(hosts := if s.hosts == [] then r.hosts else s.hosts, clusterId := r.clusterId)
  }

  function NewState(r: Request): Saved {
    Saved(r.clusterId, r.hosts, [], [], 0, 0, [])
  }

  method Discard(dir: StateDir, r: Request)
    modifies dir
    ensures dir.saved == if r.configured then None else old(dir.saved)
    ensures dir.files == if r.configured then map[] else old(dir.files)
  {
    if r.configured {
      dir.Clear();
    }
  }

  /** A state is there, and it records these nodes or none. */
  ghost predicate OfTheseNodes(found: Option<Saved>, r: Request) {
    && found.Some? && HostKey.PlainHosts(found.value.hosts) && HostKey.PlainHosts(r.hosts)
    && (found.value.hosts == [] || multiset(found.value.hosts) == multiset(r.hosts))
  }

  ghost predicate OfOtherNodes(found: Option<Saved>, r: Request) {
    && found.Some? && HostKey.PlainHosts(found.value.hosts) && HostKey.PlainHosts(r.hosts)
    && found.value.hosts != [] && multiset(found.value.hosts) != multiset(r.hosts)
  }

  lemma NodesTold(found: Option<Saved>, r: Request)
    ensures OfTheseNodes(found, r) ==> found.Some? && HostKey.MatchesHosts(found.value.hosts, r.hosts)
    ensures OfOtherNodes(found, r) ==> found.Some? && !HostKey.MatchesHosts(found.value.hosts, r.hosts)
  {
    if OfTheseNodes(found, r) || OfOtherNodes(found, r) {
      HostKey.MatchIsMultisetEquality(found.value.hosts, r.hosts);
    }
  }

  /** When a found state is kept, mode by mode. */
  lemma WhatReuseMeans(found: Option<Saved>, r: Request)
    ensures r.mode == Auto && found.Some? && !IsMismatch(found, r) ==>
      (Reuses(found, r) <==> !(if forall i :: 0 <= i < |r.schedule| ==> i in found.value.completed
                               then r.onComplete == Some(true) else r.onPrompt == Some(false)))
    ensures r.mode == Fresh ==> !Reuses(found, r)
    ensures r.mode in {IfExists, Required} ==> (Reuses(found, r) <==> found.Some? && !IsMismatch(found, r))
    ensures found.None? || IsMismatch(found, r) ==> !Reuses(found, r)
    ensures Refuses(found, r) <==> r.mode == Required && (found.None? || IsMismatch(found, r))
  {
  }

  /** The load, and the decision to keep what was loaded, to discard it or to refuse. */
  method Choose(dir: StateDir, r: Request) returns (refused: bool, state: BenchmarkRunState?)
    modifies dir
    ensures refused <==> Refuses(old(dir.saved), r)
    ensures !refused ==> (state != null <==> Reuses(old(dir.saved), r))
    ensures state != null ==> fresh(state) && old(dir.saved).Some? && state.Now() == old(dir.saved).value
    ensures dir.saved == if Clears(old(dir.saved), r) then None else old(dir.saved)
    ensures dir.files == if Clears(old(dir.saved), r) then map[] else old(dir.files)
  {
    refused, state := false, null;
    if dir.saved.Some? {
      state := new BenchmarkRunState.Load(dir.saved.value);
    }
    if state != null && !HostKey.MatchesHosts(state.hosts, r.hosts) {
      Discard(dir, r);
      state := null;
    }
    if state == null {
      refused := r.mode == Required;
      return;
    }
    hide HostKey.MatchesHosts;
    var complete := state.IsComplete(|r.schedule|);
    if complete {
      if r.mode == Fresh {
        Discard(dir, r);
        state := null;
      } else if r.mode == Auto && r.onComplete == Some(true) {
        Discard(dir, r);
        state := null;
      }
    } else {
      if r.mode == Fresh {
        Discard(dir, r);
        state := null;
      } else if r.mode == IfExists || r.mode == Required {
      } else {
        var promptOk := if r.onPrompt.Some? then r.onPrompt.value else true;
        if !promptOk {
          Discard(dir, r);
          state := null;
        }
      }
    }
  }

  /** The load / discard / reuse / create sequence of `_execute_benchmark`; no state is returned on refusal. */
  method OpenState(dir: StateDir, r: Request) returns (state: BenchmarkRunState?)
    modifies dir
    ensures state == null <==> Refuses(old(dir.saved), r)
    ensures state != null ==> fresh(state)
    ensures state != null ==>
      state.Now() == if Reuses(old(dir.saved), r) then Refreshed(old(dir.saved).value, r) else NewState(r)
    ensures dir.saved == if Clears(old(dir.saved), r) then None else old(dir.saved)
    ensures dir.files == if Clears(old(dir.saved), r) then map[] else old(dir.files)
    // A new state starts over an empty directory exactly when it had no files, or a loadable state was there to clear:
    // without a configuration object, or with an unreadable state file, the old files stay.
    ensures state != null && !Reuses(old(dir.saved), r) ==>
      (dir.files == map[] <==> old(dir.files) == map[] || (r.configured && old(dir.saved).Some?))
    // This is the step that the histories below take, files and all.
    ensures var d := Begun(Dir(old(dir.saved), map i | i in old(dir.files) :: multiset(r.hosts), None), r, true);
      && d.measured.Keys == dir.files.Keys
      && d.saved == if state == null then dir.saved else Some(state.Now())
    // Under AUTO a state of the same nodes is treated as the caller answered.
    ensures r.mode == Auto && OfTheseNodes(old(dir.saved), r) ==>
      var f := old(dir.saved).value;
      var asked := if forall i :: 0 <= i < |r.schedule| ==> i in f.completed
        then r.onComplete == Some(true) else r.onPrompt == Some(false);
      && state != null
      && (asked ==> state.Now() == Saved(r.clusterId, r.hosts, [], [], 0, 0, []))
      && (asked && r.configured ==> dir.files == map[])
      && (!asked ==> dir.files == old(dir.files))
      && (!asked ==>
            state.Now() == f.(clusterId := r.clusterId, hosts := if f.hosts == [] then r.hosts else f.hosts))
    // The other modes do not ask.
    ensures r.mode == Fresh ==> state != null && state.Now() == Saved(r.clusterId, r.hosts, [], [], 0, 0, [])
    ensures r.mode == Fresh && r.configured && old(dir.saved).Some? ==> dir.files == map[]
    ensures r.mode in {IfExists, Required} && OfTheseNodes(old(dir.saved), r) ==>
      var f := old(dir.saved).value;
      && state != null && dir.files == old(dir.files)
      && state.Now() == f.(clusterId := r.clusterId, hosts := if f.hosts == [] then r.hosts else f.hosts)
    // A state of other nodes is never picked up.
    ensures OfOtherNodes(old(dir.saved), r) ==>
      && (state == null <==> r.mode == Required)
      && (state != null ==> state.Now() == Saved(r.clusterId, r.hosts, [], [], 0, 0, []))
      && (r.configured ==> dir.files == map[])
    ensures old(dir.saved).None? ==>
      && (state == null <==> r.mode == Required) && dir.files == old(dir.files)
      && (state != null ==> state.Now() == Saved(r.clusterId, r.hosts, [], [], 0, 0, []))
  {
    NodesTold(dir.saved, r);
    WhatReuseMeans(dir.saved, r);
    hide Reuses, Refuses, OfTheseNodes, OfOtherNodes;
    var refused;
    refused, state := Choose(dir, r);
    if refused {
      return null;
    }
    if state != null {
      if state.hosts == [] {
        state.hosts := r.hosts;
      }
      if state.clusterId != r.clusterId {
        state.clusterId := r.clusterId;
      }
    } else {
      state := new BenchmarkRunState.Fresh(r.clusterId, r.hosts);
    }
  }

  /** `benchmark resume` finds an incomplete state, and job metadata with hosts for its cluster id. */
  predicate Resumable(saved: Option<Saved>, jobs: map<string, seq<string>>, total: nat) {
    saved.Some? && !AllDone(saved.value, total) && saved.value.clusterId in jobs && jobs[saved.value.clusterId] != []
  }

  /** The opening of `_resume_locked`: the state as it was saved, measured on the hosts of the job metadata. */
  method ReopenState(dir: StateDir, jobs: map<string, seq<string>>, total: nat)
    returns (state: BenchmarkRunState?, hosts: seq<string>)
    ensures state != null <==> Resumable(dir.saved, jobs, total)
    ensures state != null <==>
      && dir.saved.Some? && (exists i :: 0 <= i < total && i !in dir.saved.value.completed)
      && dir.saved.value.clusterId in jobs && jobs[dir.saved.value.clusterId] != []
    ensures state != null ==> fresh(state) && state.Now() == dir.saved.value && hosts == jobs[state.clusterId]
  {
    state, hosts := null, [];
    if dir.saved.None? {
      return;
    }
    var found := new BenchmarkRunState.Load(dir.saved.value);
    var complete := found.IsComplete(total);
    if complete {
      return;
    }
    if found.clusterId !in jobs || jobs[found.clusterId] == [] {
      return;
    }
    state, hosts := found, jobs[found.clusterId];
  }

  /** FRESH never reuses; REQUIRED reuses or refuses, and never starts a new state. */
  lemma ModesKeepTheirWord(found: Option<Saved>, r: Request)
    ensures r.mode == Fresh ==> !Reuses(found, r) && !Refuses(found, r)
    ensures r.mode == Required ==> (Reuses(found, r) <==> !Refuses(found, r))
    ensures r.mode == IfExists ==> (Reuses(found, r) <==> found.Some? && !IsMismatch(found, r)) && !Refuses(found, r)
  {
  }

  /** REQUIRED on a state measured elsewhere destroys that state before it reports that there is none. */
  lemma RequiredClearsWhatItRefuses(found: Option<Saved>, r: Request)
    requires r.mode == Required
    ensures Clears(found, r) <==> r.configured && found.Some? && Refuses(found, r)
  {
  }

  /** Even where two node sets share an id, a reused state was measured on this run's nodes or recorded none. */
  lemma ReuseIsOfTheSameNodes(found: Option<Saved>, r: Request)
    requires HostKey.PlainHosts(r.hosts) && found.Some? && HostKey.PlainHosts(found.value.hosts)
    requires Reuses(found, r)
    ensures found.value.hosts == [] || multiset(found.value.hosts) == multiset(r.hosts)
  {
    HostKey.MatchIsMultisetEquality(found.value.hosts, r.hosts);
  }

  // ---- any sequence of runs and resumes ----

  /**
   * A directory: the recorded state, for each result file the node multiset it was measured on, and the hosts that the
   * session holding the directory, if any, measures on.
   */
  datatype Dir = Dir(saved: Option<Saved>, measured: map<int, multiset<string>>, on: Option<seq<string>>)

  /** The state directories by id, and the job metadata: the hosts of the latest launch under each cluster id. */
  datatype World = World(dirs: map<string, Dir>, jobs: map<string, seq<string>>)

  datatype Event =
    | Launched(cid: string, hosts: seq<string>)
    | Begin(r: Request, saves: bool) // `saves`: it got as far as the save that opens its session
    | Continue(id: string, total: nat) // `benchmark resume`
    | Save(id: string, s: Saved)
    | Measure(id: string, i: int)
    | Release(id: string)

  function At(w: World, id: string): Dir {
    if id in w.dirs then w.dirs[id] else Dir(None, map[], None)
  }

  function Put(w: World, id: string, d: Dir): World {
    w.(dirs := w.dirs[id := d])
  }

  /** Sessions change progress only. */
  predicate Progress(s: Saved, s': Saved) {
    s'.hosts == s.hosts && s'.clusterId == s.clusterId
  }

  predicate Named(hosts: seq<string>) {
    hosts != [] && HostKey.PlainHosts(hosts)
  }

  /** The lock lets one session at a time into a directory. */
  predicate Allowed(idOf: Request -> string, w: World, e: Event) {
    match e
    case Launched(_, _) => true
    case Begin(r, _) => Named(r.hosts) && At(w, idOf(r)).on == None
    case Continue(id, _) => At(w, id).on == None
    case Save(id, s) => At(w, id).on.Some? && At(w, id).saved.Some? && Progress(At(w, id).saved.value, s)
    case Measure(id, _) => At(w, id).on.Some?
    case Release(id) => At(w, id).on.Some?
  }

  function Begun(d: Dir, r: Request, saves: bool): Dir {
    var kept := if Clears(d.saved, r) then Dir(None, map[], None) else d;
    if Refuses(d.saved, r) || !saves then kept
    else
      var s := if Reuses(d.saved, r) then Refreshed(d.saved.value, r) else NewState(r);
      kept.(saved := Some(s), on := Some(r.hosts))
  }

  predicate Continues(w: World, id: string, total: nat) {
    Resumable(At(w, id).saved, w.jobs, total)
  }

  function Apply(idOf: Request -> string, w: World, e: Event): World
    requires Allowed(idOf, w, e)
  {
    match e
    case Launched(cid, hosts) => w.(jobs := w.jobs[cid := hosts])
    case Begin(r, saves) => Put(w, idOf(r), Begun(At(w, idOf(r)), r, saves))
    case Continue(id, total) =>
      if Continues(w, id, total) then Put(w, id, At(w, id).(on := Some(w.jobs[At(w, id).saved.value.clusterId]))) else w
    case Save(id, s) => Put(w, id, At(w, id).(saved := Some(s)))
    case Measure(id, i) => Put(w, id, At(w, id).(measured := At(w, id).measured[i := multiset(At(w, id).on.value)]))
    case Release(id) => Put(w, id, At(w, id).(on := None))
  }

  predicate Run(idOf: Request -> string, w: World, log: seq<Event>)
    decreases |log|
  {
    log == [] || (Allowed(idOf, w, log[0]) && Run(idOf, Apply(idOf, w, log[0]), log[1..]))
  }

  function After(idOf: Request -> string, w: World, log: seq<Event>): World
    requires Run(idOf, w, log)
    decreases |log|
  {
    if log == [] then w else After(idOf, Apply(idOf, w, log[0]), log[1..])
  }

  predicate Records(d: Dir) {
    d.saved.Some? && d.saved.value.hosts != []
  }

  /** A directory that records its nodes holds files of those nodes only, and is being added to on those nodes only. */
  ghost predicate Steady(d: Dir) {
    Records(d) ==>
      && Named(d.saved.value.hosts)
      && (forall i :: i in d.measured ==> d.measured[i] == multiset(d.saved.value.hosts))
      && (d.on.Some? ==> multiset(d.on.value) == multiset(d.saved.value.hosts))
  }

  ghost predicate AllSteady(w: World) {
    forall id :: id in w.dirs ==> Steady(w.dirs[id])
  }

  // ---- exactly which events upset a directory ----

  /**
   * A run that opens its session over files it neither cleared nor can account for: of a recorded other node set, or,
   * where no node set was recorded, not all of its own.
   */
  ghost predicate Mixes(d: Dir, r: Request, saves: bool) {
    && saves && !Refuses(d.saved, r) && !Clears(d.saved, r)
    && exists i :: i in d.measured && if Records(d) then IsMismatch(d.saved, r) else d.measured[i] != multiset(r.hosts)
  }

  /** The check `_resume_locked` does not make: the metadata's hosts are the recorded ones. */
  predicate Strays(w: World, id: string, total: nat) {
    Continues(w, id, total) && Records(At(w, id))
    && multiset(w.jobs[At(w, id).saved.value.clusterId]) != multiset(At(w, id).saved.value.hosts)
  }

  ghost predicate Harmless(idOf: Request -> string, w: World, e: Event) {
    match e
    case Begin(r, saves) => !Mixes(At(w, idOf(r)), r, saves)
    case Continue(id, total) => !Strays(w, id, total)
    case _ => true
  }

  lemma BeginKeepsSteadyIff(d: Dir, r: Request, saves: bool)
    requires Steady(d) && Named(r.hosts) && d.on == None
    ensures Steady(Begun(d, r, saves)) <==> !Mixes(d, r, saves)
  {
    if Records(d) {
      HostKey.MatchIsMultisetEquality(d.saved.value.hosts, r.hosts);
    }
    if exists i :: i in d.measured {
      var i :| i in d.measured;
      assert Begun(d, r, saves).measured == d.measured || Clears(d.saved, r);
    }
  }

  lemma PutIsSteady(w: World, id: string, d: Dir)
    requires AllSteady(w)
    ensures AllSteady(Put(w, id, d)) <==> Steady(d)
    ensures Steady(At(w, id))
  {
    assert id in Put(w, id, d).dirs && Put(w, id, d).dirs[id] == d;
  }

  /** An event keeps every directory steady exactly when it is harmless, whatever the digest does. */
  lemma StepKeepsSteadyIff(idOf: Request -> string, w: World, e: Event)
    requires AllSteady(w) && Allowed(idOf, w, e)
    ensures AllSteady(Apply(idOf, w, e)) <==> Harmless(idOf, w, e)
  {
    match e
    case Launched(_, _) =>
    case Begin(r, saves) =>
      PutIsSteady(w, idOf(r), Begun(At(w, idOf(r)), r, saves));
      BeginKeepsSteadyIff(At(w, idOf(r)), r, saves);
    case Continue(id, total) =>
      if Continues(w, id, total) {
        PutIsSteady(w, id, At(w, id).(on := Some(w.jobs[At(w, id).saved.value.clusterId])));
      }
    case Save(id, s) => PutIsSteady(w, id, Apply(idOf, w, e).dirs[id]);
    case Measure(id, _) => PutIsSteady(w, id, Apply(idOf, w, e).dirs[id]);
    case Release(id) => PutIsSteady(w, id, Apply(idOf, w, e).dirs[id]);
  }

  ghost predicate SteadyThroughout(idOf: Request -> string, w: World, log: seq<Event>)
    requires Run(idOf, w, log)
    decreases |log|
  {
    AllSteady(w) && (log == [] || SteadyThroughout(idOf, Apply(idOf, w, log[0]), log[1..]))
  }

  ghost predicate AllHarmless(idOf: Request -> string, w: World, log: seq<Event>)
    requires Run(idOf, w, log)
    decreases |log|
  {
    log == [] || (Harmless(idOf, w, log[0]) && AllHarmless(idOf, Apply(idOf, w, log[0]), log[1..]))
  }

  /**
   * Over any sequence of launches, runs and resumes, under any id function, colliding or not: every directory stays
   * with its recorded node set throughout if and only if no run opens over another node set's files and no resume
   * strays from the recorded hosts.
   */
  lemma {:induction false} HistoryIsSteadyIff(idOf: Request -> string, w: World, log: seq<Event>)
    requires AllSteady(w) && Run(idOf, w, log)
    ensures SteadyThroughout(idOf, w, log) <==> AllHarmless(idOf, w, log)
    decreases |log|
  {
    if log != [] {
      var next := Apply(idOf, w, log[0]);
      StepKeepsSteadyIff(idOf, w, log[0]);
      if AllSteady(next) {
        HistoryIsSteadyIff(idOf, next, log[1..]);
      }
    }
  }

  // ---- runs with a configuration object ----

  ghost predicate Orderly(idOf: Request -> string, w: World, log: seq<Event>)
    requires Run(idOf, w, log)
    decreases |log|
  {
    log == [] || (OrderlyStep(w, log[0]) && Orderly(idOf, Apply(idOf, w, log[0]), log[1..]))
  }

  predicate OrderlyStep(w: World, e: Event) {
    (e.Begin? ==> e.r.configured) && (e.Continue? ==> !Strays(w, e.id, e.total))
  }

  /** Nothing is known of a directory, or its nodes are recorded: there is no legacy state. */
  predicate Attributed(d: Dir) {
    Records(d) || d == Dir(None, map[], None)
  }

  ghost predicate AllAttributed(w: World) {
    forall id :: id in w.dirs ==> Attributed(w.dirs[id])
  }

  /** With a configuration object the discard of another node set's state takes its files with it. */
  lemma ConfiguredStep(idOf: Request -> string, w: World, e: Event)
    requires AllSteady(w) && AllAttributed(w) && Allowed(idOf, w, e) && OrderlyStep(w, e)
    ensures AllSteady(Apply(idOf, w, e)) && AllAttributed(Apply(idOf, w, e))
  {
    StepKeepsSteadyIff(idOf, w, e);
    if e.Begin? {
      var d := At(w, idOf(e.r));
      assert Attributed(d);
      assert Attributed(Begun(d, e.r, e.saves));
    }
  }

  /**
   * Under any id function, colliding or not: if every run has a configuration object and no resume strays, every
   * directory's files are all of its recorded node set, at every moment.
   */
  lemma {:induction false} ConfiguredRunsStaySteady(idOf: Request -> string, w: World, log: seq<Event>)
    requires AllSteady(w) && AllAttributed(w) && Run(idOf, w, log) && Orderly(idOf, w, log)
    ensures SteadyThroughout(idOf, w, log)
    decreases |log|
  {
    if log != [] {
      ConfiguredStep(idOf, w, log[0]);
      ConfiguredRunsStaySteady(idOf, Apply(idOf, w, log[0]), log[1..]);
    }
  }

  // ---- an injective digest ----

  ghost predicate Injective(idOf: Request -> string) {
    forall r, r' :: idOf(r) == idOf(r') ==> IdOf(r) == IdOf(r')
  }

  /**
   * A directory that a run can reach records the nodes of every request that leads to it. State from before hosts
   * joined the id lies under ids that no request with named hosts leads to.
   */
  ghost predicate Keyed(idOf: Request -> string, w: World) {
    forall r: Request :: Named(r.hosts) && At(w, idOf(r)).saved.Some? ==>
      Named(At(w, idOf(r)).saved.value.hosts) && multiset(At(w, idOf(r)).saved.value.hosts) == multiset(r.hosts)
  }

  lemma StepKeepsKeyed(idOf: Request -> string, w: World, e: Event)
    requires Injective(idOf) && Keyed(idOf, w) && Allowed(idOf, w, e)
    ensures Keyed(idOf, Apply(idOf, w, e))
  {
    var w' := Apply(idOf, w, e);
    forall r: Request | Named(r.hosts) && At(w', idOf(r)).saved.Some?
      ensures Named(At(w', idOf(r)).saved.value.hosts)
      ensures multiset(At(w', idOf(r)).saved.value.hosts) == multiset(r.hosts)
    {
      if At(w, idOf(r)).saved.Some? {
        assert Named(At(w, idOf(r)).saved.value.hosts);
      }
      if e.Begin? && idOf(e.r) == idOf(r) {
        assert IdOf(e.r) == IdOf(r);
        SameIdIff(e.r, r);
      }
    }
  }

  lemma {:induction false} RunsStayKeyed(idOf: Request -> string, w: World, log: seq<Event>)
    requires Injective(idOf) && Keyed(idOf, w) && Run(idOf, w, log)
    ensures Keyed(idOf, After(idOf, w, log))
    decreases |log|
  {
    if log != [] {
      StepKeepsKeyed(idOf, w, log[0]);
      RunsStayKeyed(idOf, Apply(idOf, w, log[0]), log[1..]);
    }
  }

  /**
   * Whatever launches, runs and resumes came before, a state found under a run's id records its node multiset: the host
   * mismatch and the legacy backfill cannot arise for a run that names its hosts.
   */
  lemma FoundStateIsOfTheSameNodes(idOf: Request -> string, w: World, log: seq<Event>, r: Request)
    requires Injective(idOf) && Keyed(idOf, w) && Run(idOf, w, log) && Named(r.hosts)
    ensures var found := At(After(idOf, w, log), idOf(r)).saved;
      && !IsMismatch(found, r)
      && (found.Some? ==> found.value.hosts != [] && multiset(found.value.hosts) == multiset(r.hosts))
  {
    RunsStayKeyed(idOf, w, log);
    var found := At(After(idOf, w, log), idOf(r)).saved;
    if found.Some? {
      HostKey.MatchIsMultisetEquality(found.value.hosts, r.hosts);
    }
  }

  ghost predicate NoneStrays(idOf: Request -> string, w: World, log: seq<Event>)
    requires Run(idOf, w, log)
    decreases |log|
  {
    log == [] ||
    ((log[0].Continue? ==> !Strays(w, log[0].id, log[0].total)) && NoneStrays(idOf, Apply(idOf, w, log[0]), log[1..]))
  }

  /** Where a node set is recorded or nothing lies at all, an injective digest leaves a run nothing to mix. */
  lemma KeyedBeginIsHarmless(idOf: Request -> string, w: World, r: Request, saves: bool)
    requires Keyed(idOf, w) && Named(r.hosts) && Filed(w)
    ensures !Mixes(At(w, idOf(r)), r, saves)
  {
    var d := At(w, idOf(r));
    if d.saved.Some? {
      HostKey.MatchIsMultisetEquality(d.saved.value.hosts, r.hosts);
    }
  }

  /** No result file lies beside a missing or unreadable state file. */
  ghost predicate Filed(w: World) {
    forall id :: id in w.dirs && w.dirs[id].saved.None? ==> w.dirs[id].measured == map[] && w.dirs[id].on == None
  }

  lemma StepKeepsFiled(idOf: Request -> string, w: World, e: Event)
    requires Filed(w) && Allowed(idOf, w, e)
    ensures Filed(Apply(idOf, w, e))
  {
  }

  /**
   * With an injective digest only resumes matter: every directory's files and open session stay of its one recorded
   * node set, throughout any sequence of launches, runs and resumes, if and only if each resume's job metadata names
   * the recorded hosts.
   */
  lemma {:induction false} SessionsKeepToOneNodeSetIff(idOf: Request -> string, w: World, log: seq<Event>)
    requires Injective(idOf) && Keyed(idOf, w) && AllSteady(w) && Filed(w) && Run(idOf, w, log)
    ensures SteadyThroughout(idOf, w, log) <==> NoneStrays(idOf, w, log)
    decreases |log|
  {
    if log != [] {
      var e, next := log[0], Apply(idOf, w, log[0]);
      if e.Begin? {
        KeyedBeginIsHarmless(idOf, w, e.r, e.saves);
      }
      StepKeepsSteadyIff(idOf, w, e);
      StepKeepsKeyed(idOf, w, e);
      StepKeepsFiled(idOf, w, e);
      if AllSteady(next) {
        SessionsKeepToOneNodeSetIff(idOf, next, log[1..]);
      }
    }
  }

  // ---- result files alone ----

  /** A directory that records its nodes holds files of those nodes only. */
  ghost predicate Pure(d: Dir) {
    Records(d) ==>
      && Named(d.saved.value.hosts)
      && forall i :: i in d.measured ==> d.measured[i] == multiset(d.saved.value.hosts)
  }

  ghost predicate PureThroughout(idOf: Request -> string, w: World, log: seq<Event>)
    requires Run(idOf, w, log)
    decreases |log|
  {
    (forall id :: id in w.dirs ==> Pure(w.dirs[id]))
    && (log == [] || PureThroughout(idOf, Apply(idOf, w, log[0]), log[1..]))
  }

  /** A measurement on other nodes than the directory records. */
  predicate Misplaced(w: World, e: Event) {
    && e.Measure? && At(w, e.id).on.Some? && Records(At(w, e.id))
    && multiset(At(w, e.id).on.value) != multiset(At(w, e.id).saved.value.hosts)
  }

  ghost predicate NoneMisplaced(idOf: Request -> string, w: World, log: seq<Event>)
    requires Run(idOf, w, log)
    decreases |log|
  {
    log == [] || (!Misplaced(w, log[0]) && NoneMisplaced(idOf, Apply(idOf, w, log[0]), log[1..]))
  }

  /** The directory an event works on, if any. */
  function Touched(idOf: Request -> string, e: Event): Option<string> {
    match e
    case Launched(_, _) => None
    case Begin(r, _) => Some(idOf(r))
    case Continue(id, _) => Some(id)
    case Save(id, _) => Some(id)
    case Measure(id, _) => Some(id)
    case Release(id) => Some(id)
  }

  lemma OthersUntouched(idOf: Request -> string, w: World, e: Event, id: string)
    requires Allowed(idOf, w, e) && Touched(idOf, e) != Some(id)
    ensures At(Apply(idOf, w, e), id) == At(w, id)
  {
  }

  lemma StepKeepsPureIff(idOf: Request -> string, w: World, e: Event)
    requires Keyed(idOf, w) && Filed(w) && Allowed(idOf, w, e)
    requires forall id :: Pure(At(w, id))
    ensures (forall id :: Pure(At(Apply(idOf, w, e), id))) <==> !Misplaced(w, e)
  {
    var w' := Apply(idOf, w, e);
    forall id | Touched(idOf, e) != Some(id) ensures At(w', id) == At(w, id) {
      OthersUntouched(idOf, w, e, id);
    }
    if e.Begin? {
      var d := At(w, idOf(e.r));
      KeyedBeginIsHarmless(idOf, w, e.r, e.saves);
      BeginKeepsSteadyIff(d, e.r, e.saves);
    }
    if Misplaced(w, e) {
      assert At(w', e.id).measured[e.i] != multiset(At(w', e.id).saved.value.hosts);
      assert !Pure(At(w', e.id));
    }
  }

  /**
   * With an injective digest, whatever launches, runs and resumes come: every directory's result files stay of its one
   * recorded node set if and only if no session measures on other nodes than its directory records.
   */
  lemma {:induction false} ResultFilesAreOfOneNodeSetIff(idOf: Request -> string, w: World, log: seq<Event>)
    requires Injective(idOf) && Keyed(idOf, w) && Filed(w) && Run(idOf, w, log)
    requires forall id :: Pure(At(w, id))
    ensures PureThroughout(idOf, w, log) <==> NoneMisplaced(idOf, w, log)
    decreases |log|
  {
    AllPure(w);
    if log != [] {
      var next := Apply(idOf, w, log[0]);
      StepKeepsPureIff(idOf, w, log[0]);
      StepKeepsKeyed(idOf, w, log[0]);
      StepKeepsFiled(idOf, w, log[0]);
      AllPure(next);
      if forall id :: Pure(At(next, id)) {
        ResultFilesAreOfOneNodeSetIff(idOf, next, log[1..]);
      }
    }
  }

  lemma AllPure(w: World)
    ensures (forall id :: id in w.dirs ==> Pure(w.dirs[id])) <==> forall id :: Pure(At(w, id))
  {
    if forall id :: Pure(At(w, id)) {
      forall id | id in w.dirs ensures Pure(w.dirs[id]) {
        assert Pure(At(w, id));
      }
    }
  }

  // ---- runs that mix two node sets ----

  ghost predicate TwoNodeSets(d: Dir) {
    exists i, j :: i in d.measured && j in d.measured && d.measured[i] != d.measured[j]
  }

  /** `derive_placement_token_from_hosts`, for any hash. */
  function TokenOf(hash: string -> string, candidates: seq<string>): string {
    hash(HostKey.CanonicalHostKey(candidates))
  }

  /** The order in which candidates are named does not reach a deterministic token. */
  lemma TokenIgnoresOrder(hash: string -> string, a: seq<string>, b: seq<string>)
    requires multiset(a) == multiset(b) && HostKey.PlainHosts(a) && HostKey.PlainHosts(b)
    ensures TokenOf(hash, a) == TokenOf(hash, b)
  {
    HostKey.KeyIdentifiesMultiset(a, b);
  }

  lemma SwappedCandidates(hash: string -> string, intent: string, a: string, b: string)
    requires HostKey.PlainHost(a) && HostKey.PlainHost(b)
    ensures Snapshot.ClusterId(intent, TokenOf(hash, [a, b])) == Snapshot.ClusterId(intent, TokenOf(hash, [b, a]))
  {
    assert [a, b] == [a] + [b] && [b, a] == [b] + [a];
    TokenIgnoresOrder(hash, [a, b], [b, a]);
  }

  /** A resume measures where the latest launch under the recorded cluster id went. */
  lemma ResumeFollowsTheLaunch(idOf: Request -> string, r: Request, a: string, b: string) returns (log: seq<Event>)
    requires a != b && HostKey.PlainHost(a)
    requires r.hosts == [a] && r.mode == Auto && |r.schedule| >= 2
    ensures log == [Launched(r.clusterId, [a])] + ([Begin(r, true), Measure(idOf(r), 0), Release(idOf(r))]
                    + [Launched(r.clusterId, [b]), Continue(idOf(r), |r.schedule|), Measure(idOf(r), 1)])
    ensures var w := World(map[], map[]);
      Run(idOf, w, log) && TwoNodeSets(At(After(idOf, w, log), idOf(r)))
  {
    var id, cid, s := idOf(r), r.clusterId, NewState(r);
    var rest := [Launched(cid, [b]), Continue(id, |r.schedule|), Measure(id, 1)];
    log := [Launched(cid, [a])] + ([Begin(r, true), Measure(id, 0), Release(id)] + rest);
    var w0, w1 := World(map[], map[]), World(map[], map[cid := [a]]);
    assert Pending(s, |r.schedule|).Some?;
    hide Run, After, Begun, Pending, HostKey.PlainHost;
    assert Named([a]);
    assert log[1..] == [Begin(r, true), Measure(id, 0), Release(id)] + rest;
    OneStep(idOf, w0, log, w1);
    var w4 := BeginMeasureRelease(idOf, w1, r, rest);
    var w5 := w4.(jobs := w4.jobs[cid := [b]]);
    OneStep(idOf, w4, rest, w5);
    var w6 := Put(w5, id, At(w5, id).(on := Some([b])));
    assert rest[1..] == [Continue(id, |r.schedule|), Measure(id, 1)];
    OneStep(idOf, w5, rest[1..], w6);
    assert rest[1..][1..] == [Measure(id, 1)];
    MeasureLast(idOf, w6, id, 1);
    assert multiset([a])[a] == 1 && multiset([b])[a] == 0;
    var d := At(After(idOf, w0, log), id);
    assert d.measured[0] != d.measured[1];
  }

  /**
   * A solo launch on candidates `a, b` lands on `a`, one on `b, a` lands on `b`, and both have the same cluster id. A
   * benchmark begun between them and resumed after them has measured one index on `a` and another on `b`.
   */
  lemma ResumeMixesNodeSets(idOf: Request -> string, hash: string -> string, intent: string, r: Request, a: string,
                            b: string)
    returns (log: seq<Event>)
    requires a != b && HostKey.PlainHost(a) && HostKey.PlainHost(b)
    requires r.clusterId == Snapshot.ClusterId(intent, TokenOf(hash, [a, b]))
    requires r.hosts == [a] && r.mode == Auto && |r.schedule| >= 2
    ensures log == [Launched(Snapshot.ClusterId(intent, TokenOf(hash, [a, b])), [a])]
                    + ([Begin(r, true), Measure(idOf(r), 0), Release(idOf(r))]
                    + [Launched(Snapshot.ClusterId(intent, TokenOf(hash, [b, a])), [b]),
                       Continue(idOf(r), |r.schedule|), Measure(idOf(r), 1)])
    ensures var w := World(map[], map[]);
      Run(idOf, w, log) && TwoNodeSets(At(After(idOf, w, log), idOf(r)))
  {
    SwappedCandidates(hash, intent, a, b);
    hide *;
    log := ResumeFollowsTheLaunch(idOf, r, a, b);
  }

  lemma BeginMeasureRelease(idOf: Request -> string, w: World, r: Request, rest: seq<Event>) returns (next: World)
    requires At(w, idOf(r)) == Dir(None, map[], None) && r.mode == Auto && Named(r.hosts)
    ensures At(next, idOf(r)) == Dir(Some(NewState(r)), map[0 := multiset(r.hosts)], None) && next.jobs == w.jobs
    ensures var log := [Begin(r, true), Measure(idOf(r), 0), Release(idOf(r))] + rest;
      && (Run(idOf, w, log) <==> Run(idOf, next, rest))
      && (Run(idOf, w, log) ==> After(idOf, w, log) == After(idOf, next, rest))
  {
    var id := idOf(r);
    var log := [Begin(r, true), Measure(id, 0), Release(id)] + rest;
    FreshRunBegins(w, r, true);
    hide Run, After, Begun, NewState;
    var w1 := Put(w, id, Dir(Some(NewState(r)), map[], Some(r.hosts)));
    OneStep(idOf, w, log, w1);
    var w2 := Put(w1, id, Dir(Some(NewState(r)), map[0 := multiset(r.hosts)], Some(r.hosts)));
    assert log[1..] == [Measure(id, 0), Release(id)] + rest;
    OneStep(idOf, w1, log[1..], w2);
    next := Put(w2, id, Dir(Some(NewState(r)), map[0 := multiset(r.hosts)], None));
    assert log[1..][1..] == [Release(id)] + rest;
    OneStep(idOf, w2, log[1..][1..], next);
    assert log[1..][1..][1..] == rest;
  }

  lemma MeasureLast(idOf: Request -> string, w: World, id: string, i: int)
    requires At(w, id).on.Some?
    ensures Run(idOf, w, [Measure(id, i)])
    ensures At(After(idOf, w, [Measure(id, i)]), id).measured == At(w, id).measured[i := multiset(At(w, id).on.value)]
  {
    var log := [Measure(id, i)];
    OneStep(idOf, w, log, Apply(idOf, w, log[0]));
    NoStep(idOf, Apply(idOf, w, log[0]));
    assert log[1..] == [];
  }

  lemma FreshRunBegins(w: World, r: Request, saves: bool)
    requires r.mode == Auto && saves
    ensures Begun(Dir(None, map[], None), r, saves) == Dir(Some(NewState(r)), map[], Some(r.hosts))
  {
  }

  lemma OneStep(idOf: Request -> string, w: World, log: seq<Event>, next: World)
    requires log != [] && Allowed(idOf, w, log[0]) && Apply(idOf, w, log[0]) == next
    ensures Run(idOf, w, log) <==> Run(idOf, next, log[1..])
    ensures Run(idOf, w, log) ==> After(idOf, w, log) == After(idOf, next, log[1..])
  {
  }

  lemma NoStep(idOf: Request -> string, w: World)
    ensures Run(idOf, w, []) && After(idOf, w, []) == w
  {
  }

  /**
   * Two requests whose ids collide, on different nodes, without a configuration object: the second discards the first
   * one's state but not its files, and measures beside them.
   */
  lemma UnconfiguredRunsMixNodeSets(idOf: Request -> string, r: Request, r': Request) returns (log: seq<Event>)
    requires idOf(r) == idOf(r') && Named(r.hosts) && Named(r'.hosts) && multiset(r.hosts) != multiset(r'.hosts)
    requires r.mode == Auto && r'.mode == Auto && !r'.configured
    ensures log == [Begin(r, true), Measure(idOf(r), 0), Release(idOf(r)), Begin(r', true), Measure(idOf(r), 1)]
    ensures var w := World(map[], map[]);
      Run(idOf, w, log) && TwoNodeSets(At(After(idOf, w, log), idOf(r)))
  {
    var id, m := idOf(r), multiset(r.hosts);
    var rest := [Begin(r', true), Measure(id, 1)];
    log := [Begin(r, true), Measure(id, 0), Release(id)] + rest;
    var w0 := World(map[], map[]);
    var w3 := BeginMeasureRelease(idOf, w0, r, rest);
    HostKey.MatchIsMultisetEquality(r.hosts, r'.hosts);
    assert Begun(Dir(Some(NewState(r)), map[0 := m], None), r', true)
        == Dir(Some(NewState(r')), map[0 := m], Some(r'.hosts));
    hide Run, After, Begun, NewState;
    var w4 := Put(w3, id, Dir(Some(NewState(r')), map[0 := m], Some(r'.hosts)));
    OneStep(idOf, w3, rest, w4);
    assert rest[1..] == [Measure(id, 1)];
    MeasureLast(idOf, w4, id, 1);
    var d := At(After(idOf, w0, log), id);
    assert d.measured[0] != d.measured[1];
  }
}
