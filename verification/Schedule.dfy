/**
 * The life of one state directory over any number of sessions (`benchmarking/scheduler.py`): what each step of
 * `run_schedule` does to the saved state, to the result files and to the consolidated view, with a session free to be
 * killed at any point. Every mark is followed by a save before anything else can be observed, so the two are one step.
 */
module Schedule {
  import opened Prelude
  import opened RunState
  import opened TaskList
  import opened Aggregator

  /** What a directory's life starts from: a schedule, where it first ran, and the result files already lying there. */
  datatype Config = Config(tasks: seq<BenchTask>, clusterId: string, hosts: seq<string>, files: map<int, Doc>)

  datatype Phase = Down | Between | InTask(i: nat) | Exited(i: nat, ok: bool) | Aborting

  /** `exitFirst` is the live session's own option: a resume always passes false, a run passes what it was given. */
  datatype World = World(disk: Saved, phase: Phase, exitFirst: bool, gapDone: bool, first: bool, files: map<int, Doc>,
                         view: Consolidated)

  datatype Event =
    | Start(exitFirst: bool, clusterId: string, hosts: seq<string>) // as the run that picks the state up refreshed it
    | Launch(i: nat, warm: bool)
    | Write(doc: Doc)
    | Exit(ok: bool)
    | Record
    | GapPass(gaps: seq<nat>)
    | End(status: string)
    | Kill

  function Initial(c: Config): World {
    World(Saved(c.clusterId, c.hosts, [], [], 0, 0, []), Down, false, false, false, c.files,
          View(c.files, c.tasks))
  }

  function Next(c: Config, w: World): Option<nat> {
    Pending(w.disk, |c.tasks|)
  }

  ghost predicate Allowed(c: Config, w: World, e: Event) {
    match e
    case Start(_, _, hosts) => w.phase.Down? && (hosts == w.disk.hosts || w.disk.hosts == [])
    case Launch(i, warm) => w.phase.Between? && Next(c, w) == Some(i) && warm == w.first
    case Write(doc) => w.phase.InTask?
    case Exit(ok) => w.phase.InTask?
    case Record => w.phase.Exited?
    case GapPass(gaps) => w.phase.Between? && !w.gapDone && Next(c, w) == None && IsGapList(gaps, c.tasks, w.view.rows)
    case End(status) =>
      || (status == "completed" && w.phase.Between? && w.gapDone && Next(c, w) == None)
      || (status == "partial" && w.phase.Aborting?)
      || (status in {"interrupted", "crashed"} && !w.phase.Down?)
    case Kill => !w.phase.Down?
  }

  /** Removing gap indices from the completed list, one after the other. */
  function WithoutAll(s: seq<int>, gaps: seq<nat>): seq<int> {
    if gaps == [] then s
    else
      var front := WithoutAll(s, gaps[..|gaps| - 1]);
      if gaps[|gaps| - 1] in front then RemoveFirst(front, gaps[|gaps| - 1]) else front
  }

  function Ended(s: Saved, status: string): Saved {
    Closed(if status == "crashed" then Crashed(s) else s, status)
  }

  ghost function Apply(c: Config, w: World, e: Event): World
    requires Allowed(c, w, e)
  {
    match e
    case Start(exitFirst, clusterId, hosts) =>
      w.(disk := Opened(w.disk.(clusterId := clusterId, hosts := hosts)), phase := Between, exitFirst := exitFirst,
         gapDone := false, first := true,
         view := View(w.files, c.tasks))
    case Launch(i, _) => w.(phase := InTask(i))
    case Write(doc) => w.(files := w.files[w.phase.i as int := doc])
    case Exit(ok) => w.(phase := Exited(w.phase.i, ok))
    case Record =>
      if w.phase.ok then
        w.(disk := WithCompleted(w.disk, w.phase.i), phase := Between, first := false, view := View(w.files, c.tasks))
      else w.(disk := WithFailed(w.disk, w.phase.i), phase := if w.exitFirst then Aborting else Between)
    case GapPass(gaps) => w.(disk := w.disk.(completed := WithoutAll(w.disk.completed, gaps)), gapDone := true)
    case End(status) => w.(disk := Ended(w.disk, status), phase := Down)
    case Kill => w.(phase := Down)
  }

  ghost predicate Run(c: Config, log: seq<Event>)
    decreases |log|, 0
  {
    log == [] || (Run(c, log[..|log| - 1]) && Allowed(c, After(c, log[..|log| - 1]), log[|log| - 1]))
  }

  ghost function After(c: Config, log: seq<Event>): World
    requires Run(c, log)
    decreases |log|, 1
  {
    if log == [] then Initial(c) else Apply(c, After(c, log[..|log| - 1]), log[|log| - 1])
  }

  lemma Extended(c: Config, log: seq<Event>, e: Event)
    requires Run(c, log) && Allowed(c, After(c, log), e)
    ensures Run(c, log + [e]) && After(c, log + [e]) == Apply(c, After(c, log), e)
  {
    assert (log + [e])[..|log|] == log;
  }

  // ---- bookkeeping over a run ----

  /** `earned` holds the tasks whose subprocess exited 0 and that no gap pass has re-queued since. */
  datatype Tally = Tally(launches: nat, recorded: nat, failures: nat, cut: nat, requeued: nat, kills: nat, crashes: nat,
                         earned: set<int>)

  function InFlight(p: Phase): nat {
    if p.InTask? || p.Exited? then 1 else 0
  }

  ghost function Noted(w: World, t: Tally, e: Event): Tally {
    match e
    case Start(_, _, _) => t
    case Launch(_, _) => t.(launches := t.launches + 1)
    case Write(_) => t
    case Exit(ok) => if ok && w.phase.InTask? then t.(earned := t.earned + {w.phase.i as int}) else t
    case Record =>
      if w.phase.Exited? && w.phase.ok then t.(recorded := t.recorded + 1) else t.(failures := t.failures + 1)
    case GapPass(gaps) => t.(requeued := t.requeued + |gaps|, earned := set x | x in t.earned && x !in gaps)
    case End(status) =>
      t.(cut := t.cut + InFlight(w.phase), crashes := t.crashes + if status == "crashed" then 1 else 0)
    case Kill => t.(cut := t.cut + InFlight(w.phase), kills := t.kills + 1)
  }

  ghost function Count(c: Config, log: seq<Event>): Tally
    requires Run(c, log)
  {
    if log == [] then Tally(0, 0, 0, 0, 0, 0, 0, {})
    else Noted(After(c, log[..|log| - 1]), Count(c, log[..|log| - 1]), log[|log| - 1])
  }

  function WithStatus(sessions: seq<SessionEntry>, status: string): nat {
    if sessions == [] then 0
    else WithStatus(sessions[..|sessions| - 1], status) + if sessions[|sessions| - 1].status == status then 1 else 0
  }

  ghost predicate ListsFit(c: Config, w: World) {
    && Sound(w.disk, |c.tasks|) && Numbered(w.disk)
    && (w.phase.InTask? || w.phase.Exited? ==> Next(c, w) == Some(w.phase.i))
  }

  ghost predicate SessionsFit(w: World, t: Tally) {
    && WithStatus(w.disk.sessions, "running") == t.kills + (if w.phase.Down? then 0 else 1)
    && WithStatus(w.disk.sessions, "crashed") == w.disk.crashes == t.crashes
    && (!w.phase.Down? ==> w.disk.sessions != [] && w.disk.sessions[|w.disk.sessions| - 1].status == "running")
  }

  ghost predicate EarnedFits(c: Config, w: World, t: Tally) {
    && (forall x :: x in w.disk.completed ==> x in t.earned)
    && (forall x :: x in t.earned ==> x in w.disk.completed || (Next(c, w).Some? && Next(c, w).value == x))
    && (w.phase.Exited? && w.phase.ok ==> w.phase.i in t.earned)
  }

  ghost predicate CountsFit(w: World, t: Tally) {
    && t.launches == t.recorded + t.failures + t.cut + InFlight(w.phase)
    && t.recorded == |w.disk.completed| + t.requeued
  }

  /** While nothing is pending in a live session, the consolidated view is that of the current result files. */
  ghost predicate ViewFits(c: Config, w: World) {
    !w.phase.Down? && Next(c, w) == None ==> w.view == View(w.files, c.tasks)
  }

  // ---- every step keeps each of these ----

  lemma PendingDepends(s: Saved, s': Saved, total: nat)
    requires forall x :: x in s.completed <==> x in s'.completed
    ensures Pending(s, total) == Pending(s', total)
  {
    var p, p' := Pending(s, total), Pending(s', total);
    if p.Some? && p'.Some? {
      assert !(p.value < p'.value) && !(p'.value < p.value);
    }
  }

  lemma {:induction false} WithoutAllIs(s: seq<int>, gaps: seq<nat>)
    requires NoDup(s) && NoDup(gaps) && forall g :: g in gaps ==> g in s
    ensures NoDup(WithoutAll(s, gaps))
    ensures forall x :: x in WithoutAll(s, gaps) <==> x in s && x !in gaps
    ensures |WithoutAll(s, gaps)| == |s| - |gaps|
  {
    if gaps != [] {
      var n := |gaps| - 1;
      var front := gaps[..n];
      assert gaps == front + [gaps[n]];
      assert gaps[n] !in front;
      WithoutAllIs(s, front);
      RemoveFirstIs(WithoutAll(s, front), gaps[n]);
    }
  }

  /** A gap pass runs only when everything is completed, so it removes exactly the gaps. */
  lemma GapPassIs(c: Config, w: World, gaps: seq<nat>)
    requires ListsFit(c, w) && Allowed(c, w, GapPass(gaps))
    ensures NoDup(WithoutAll(w.disk.completed, gaps))
    ensures forall x :: x in WithoutAll(w.disk.completed, gaps) <==> x in w.disk.completed && x !in gaps
    ensures |WithoutAll(w.disk.completed, gaps)| == |w.disk.completed| - |gaps|
  {
    forall g | g in gaps ensures g in w.disk.completed {
      assert 0 <= g < |c.tasks|;
    }
    WithoutAllIs(w.disk.completed, gaps);
  }

  lemma StepKeepsLists(c: Config, w: World, e: Event)
    requires ListsFit(c, w) && Allowed(c, w, e)
    ensures ListsFit(c, Apply(c, w, e))
  {
    var n := |c.tasks|;
    match e
    case Start(_, _, _) => PendingDepends(w.disk, Opened(w.disk), n);
    case Record =>
      CompletedKeepsSound(w.disk, w.phase.i, n);
      FailedKeepsSound(w.disk, w.phase.i, n);
    case GapPass(gaps) => GapPassIs(c, w, gaps);
    case _ =>
  }

  lemma LastStatus(s: seq<SessionEntry>, status: string, k: string)
    requires s != []
    ensures var t := s[|s| - 1 := s[|s| - 1].(status := status)];
      WithStatus(t, k) == WithStatus(s, k) - (if s[|s| - 1].status == k then 1 else 0) + if status == k then 1 else 0
  {
    var t := s[|s| - 1 := s[|s| - 1].(status := status)];
    assert t[..|t| - 1] == s[..|s| - 1];
  }

  lemma OpenedStatus(s: Saved, k: string)
    ensures WithStatus(Opened(s).sessions, k) == WithStatus(s.sessions, k) + if k == "running" then 1 else 0
  {
    var s' := Opened(s).sessions;
    assert s'[..|s'| - 1] == s.sessions;
  }

  lemma EndKeepsSessions(c: Config, w: World, t: Tally, status: string)
    requires SessionsFit(w, t) && Allowed(c, w, End(status))
    ensures SessionsFit(Apply(c, w, End(status)), Noted(w, t, End(status)))
  {
    hide Pending, View;
    LastStatus(w.disk.sessions, status, "running");
    LastStatus(w.disk.sessions, status, "crashed");
  }

  lemma StepKeepsSessions(c: Config, w: World, t: Tally, e: Event)
    requires SessionsFit(w, t) && Allowed(c, w, e)
    ensures SessionsFit(Apply(c, w, e), Noted(w, t, e))
  {
    hide Pending, View, IsGapList, WithoutAll, RemoveFirst;
    match e
    case Start(_, _, _) =>
      OpenedStatus(w.disk, "running");
      OpenedStatus(w.disk, "crashed");
    case End(status) => EndKeepsSessions(c, w, t, status);
    case _ =>
  }

  lemma StepKeepsEarned(c: Config, w: World, t: Tally, e: Event)
    requires ListsFit(c, w) && EarnedFits(c, w, t) && Allowed(c, w, e)
    ensures EarnedFits(c, Apply(c, w, e), Noted(w, t, e))
  {
    var n := |c.tasks|;
    var w' := Apply(c, w, e);
    match e
    case Record =>
      CompletedKeepsSound(w.disk, w.phase.i, n);
      if !w.phase.ok { PendingDepends(w.disk, w'.disk, n); }
    case GapPass(gaps) =>
      GapPassIs(c, w, gaps);
    case _ => PendingDepends(w.disk, w'.disk, n);
  }

  lemma StepKeepsCounts(c: Config, w: World, t: Tally, e: Event)
    requires ListsFit(c, w) && CountsFit(w, t) && Allowed(c, w, e)
    ensures CountsFit(Apply(c, w, e), Noted(w, t, e))
  {
    match e
    case Record => CompletedKeepsSound(w.disk, w.phase.i, |c.tasks|);
    case GapPass(gaps) => GapPassIs(c, w, gaps);
    case _ =>
  }

  lemma StepKeepsView(c: Config, w: World, e: Event)
    requires ListsFit(c, w) && ViewFits(c, w) && Allowed(c, w, e)
    ensures ViewFits(c, Apply(c, w, e))
  {
    var w' := Apply(c, w, e);
    match e
    case Record => if !w.phase.ok { PendingDepends(w.disk, w'.disk, |c.tasks|); }
    case GapPass(gaps) => GapPassIs(c, w, gaps);
    case _ => PendingDepends(w.disk, w'.disk, |c.tasks|);
  }

  lemma {:induction false} RunKeeps(c: Config, log: seq<Event>)
    requires Run(c, log)
    ensures ListsFit(c, After(c, log)) && ViewFits(c, After(c, log))
    ensures SessionsFit(After(c, log), Count(c, log))
    ensures EarnedFits(c, After(c, log), Count(c, log))
    ensures CountsFit(After(c, log), Count(c, log))
    decreases |log|
  {
    if log != [] {
      var front, e := log[..|log| - 1], log[|log| - 1];
      RunKeeps(c, front);
      var w, t := After(c, front), Count(c, front);
      StepKeepsLists(c, w, e);
      StepKeepsView(c, w, e);
      StepKeepsSessions(c, w, t, e);
      StepKeepsEarned(c, w, t, e);
      StepKeepsCounts(c, w, t, e);
    }
  }

  lemma StepKeepsHosts(c: Config, w: World, e: Event)
    requires Allowed(c, w, e) && w.disk.hosts != []
    ensures Apply(c, w, e).disk.hosts == w.disk.hosts
  {
    hide Pending, View, IsGapList, WithoutAll, RemoveFirst;
  }

  /** Hosts once recorded stay recorded: sessions add to the progress of one node set. */
  lemma {:induction false} RecordedHostsStay(c: Config, log: seq<Event>, k: nat)
    requires Run(c, log) && k <= |log|
    ensures Run(c, log[..k])
    ensures After(c, log[..k]).disk.hosts != [] ==> After(c, log).disk.hosts == After(c, log[..k]).disk.hosts
    decreases |log|
  {
    hide Apply, Allowed;
    if k == |log| {
      assert log[..k] == log;
    } else {
      var n := |log| - 1;
      assert log[..n][..k] == log[..k];
      RecordedHostsStay(c, log[..n], k);
      if After(c, log[..n]).disk.hosts != [] {
        StepKeepsHosts(c, After(c, log[..n]), log[n]);
      }
    }
  }

  // ---- what holds over every run ----

  /** Killed anywhere, any number of times, the saved lists stay duplicate-free, disjoint and in range. */
  lemma ProgressStaysSound(c: Config, log: seq<Event>)
    requires Run(c, log)
    ensures var s := After(c, log).disk;
      && (forall i, j :: 0 <= i < j < |s.completed| ==> s.completed[i] != s.completed[j])
      && (forall i, j :: 0 <= i < j < |s.failed| ==> s.failed[i] != s.failed[j])
      && (forall x :: x in s.completed ==> 0 <= x < |c.tasks| && x !in s.failed)
      && (forall x :: x in s.failed ==> 0 <= x < |c.tasks|)
  {
    RunKeeps(c, log);
  }

  /** Position `k` of the log is an exit with status 0 of task `i`. */
  ghost predicate ExitedZero(c: Config, log: seq<Event>, k: nat, i: int) {
    k < |log| && Run(c, log[..k]) && log[k].Exit? && log[k].ok
      && After(c, log[..k]).phase.InTask? && After(c, log[..k]).phase.i == i
  }

  ghost predicate NotRequeuedAfter(log: seq<Event>, k: nat, i: int) {
    forall m :: k < m < |log| && log[m].GapPass? ==> i !in log[m].gaps
  }

  lemma EarnedStep(w: World, t: Tally, e: Event, i: int)
    requires i in Noted(w, t, e).earned
    ensures (i in t.earned && (e.GapPass? ==> i !in e.gaps)) || (w.phase.InTask? && w.phase.i == i && e.Exit? && e.ok)
  {
  }

  lemma ExitStaysVisible(c: Config, log: seq<Event>, k: nat, i: int)
    requires log != [] && ExitedZero(c, log[..|log| - 1], k, i)
    ensures ExitedZero(c, log, k, i)
    ensures NotRequeuedAfter(log, k, i) <==>
      NotRequeuedAfter(log[..|log| - 1], k, i) && (log[|log| - 1].GapPass? ==> i !in log[|log| - 1].gaps)
  {
    assert log[..|log| - 1][..k] == log[..k];
    assert forall m :: 0 <= m < |log| - 1 ==> log[..|log| - 1][m] == log[m];
  }

  lemma {:induction false} EarnedMeansExit(c: Config, log: seq<Event>, i: int) returns (k: nat)
    requires Run(c, log) && i in Count(c, log).earned
    ensures ExitedZero(c, log, k, i) && NotRequeuedAfter(log, k, i)
    decreases |log|
  {
    var n := |log| - 1;
    var front := log[..n];
    var w, t := After(c, front), Count(c, front);
    EarnedStep(w, t, log[n], i);
    if i in t.earned && (log[n].GapPass? ==> i !in log[n].gaps) {
      k := EarnedMeansExit(c, front, i);
      ExitStaysVisible(c, log, k, i);
    } else {
      k := n;
    }
  }

  /** Every saved completion was earned by a subprocess that exited 0 and has not been re-queued since. */
  lemma CompletedWasEarned(c: Config, log: seq<Event>, i: int) returns (k: nat)
    requires Run(c, log) && i in After(c, log).disk.completed
    ensures ExitedZero(c, log, k, i) && NotRequeuedAfter(log, k, i)
  {
    RunKeeps(c, log);
    k := EarnedMeansExit(c, log, i);
  }

  lemma EarnedStays(w: World, t: Tally, e: Event, i: int)
    requires (i in t.earned && (e.GapPass? ==> i !in e.gaps)) || (w.phase.InTask? && w.phase.i == i && e.Exit? && e.ok)
    ensures i in Noted(w, t, e).earned
  {
  }

  lemma CountUnfolds(c: Config, log: seq<Event>)
    requires log != [] && Run(c, log)
    ensures Run(c, log[..|log| - 1])
    ensures Count(c, log) == Noted(After(c, log[..|log| - 1]), Count(c, log[..|log| - 1]), log[|log| - 1])
  {
  }

  lemma {:induction false} ExitIsEarned(c: Config, log: seq<Event>, k: nat, i: int)
    requires Run(c, log) && ExitedZero(c, log, k, i) && NotRequeuedAfter(log, k, i)
    ensures i in Count(c, log).earned
    decreases |log|
  {
    hide Noted, Apply, Allowed;
    var n := |log| - 1;
    var front := log[..n];
    CountUnfolds(c, log);
    if k < n {
      assert front[..k] == log[..k];
      ExitIsEarned(c, front, k, i);
    }
    EarnedStays(After(c, front), Count(c, front), log[n], i);
  }

  /**
   * Over any number of kills, interrupts and crashes, at most one exit-0 task that no gap pass re-queued is missing
   * from the saved state, and it is the very task the next session starts with.
   */
  lemma AtMostOneExitIsLost(c: Config, log: seq<Event>, k: nat, i: int)
    requires Run(c, log) && ExitedZero(c, log, k, i) && NotRequeuedAfter(log, k, i)
    ensures i in After(c, log).disk.completed || (i >= 0 && Next(c, After(c, log)) == Some(i))
  {
    ExitIsEarned(c, log, k, i);
    RunKeeps(c, log);
  }

  /** Every launch is a saved completion, a completion since re-queued, a saved failure, cut short, or in flight. */
  lemma LaunchesAreAccountedFor(c: Config, log: seq<Event>)
    requires Run(c, log)
    ensures var w, t := After(c, log), Count(c, log);
      t.launches == |w.disk.completed| + t.requeued + t.failures + t.cut + InFlight(w.phase)
  {
    RunKeeps(c, log);
  }

  /** Sessions are numbered from 1; the ones left "running" are the kills and the live one; crashes count once each. */
  lemma SessionsAreAccountedFor(c: Config, log: seq<Event>)
    requires Run(c, log)
    ensures var w, t := After(c, log), Count(c, log);
      && |w.disk.sessions| == w.disk.sessionCount
      && (forall k :: 0 <= k < |w.disk.sessions| ==> w.disk.sessions[k].number == k + 1)
      && WithStatus(w.disk.sessions, "running") == t.kills + (if w.phase.Down? then 0 else 1)
      && WithStatus(w.disk.sessions, "crashed") == t.crashes == w.disk.crashes
  {
    RunKeeps(c, log);
  }

  /** An exit closes the one session that is open, the last, and leaves every earlier entry alone. */
  lemma EndClosesItsSession(c: Config, log: seq<Event>, status: string)
    requires Run(c, log) && Allowed(c, After(c, log), End(status))
    ensures var s, s' := After(c, log).disk.sessions, Apply(c, After(c, log), End(status)).disk.sessions;
      && |s'| == |s| > 0 && s[|s| - 1].status == "running" && s'[|s| - 1] == SessionEntry(|s|, status)
      && forall k :: 0 <= k < |s| - 1 ==> s'[k] == s[k]
  {
    RunKeeps(c, log);
  }

  /** Gap analysis always judges the result files as they are at that moment. */
  lemma GapsAreOfTheFinalFiles(c: Config, log: seq<Event>, gaps: seq<nat>)
    requires Run(c, log) && Allowed(c, After(c, log), GapPass(gaps))
    ensures IsGapList(gaps, c.tasks, View(After(c, log).files, c.tasks).rows)
    ensures forall i :: 0 <= i < |c.tasks| ==> i in After(c, log).disk.completed
  {
    RunKeeps(c, log);
  }

  /** A session that ends as "completed" has every task completed and none failed. */
  lemma CompletedMeansAll(c: Config, log: seq<Event>)
    requires Run(c, log) && Allowed(c, After(c, log), End("completed"))
    ensures |After(c, log).disk.completed| == |c.tasks| && After(c, log).disk.failed == []
  {
    RunKeeps(c, log);
    CompleteMeansTotal(After(c, log).disk, |c.tasks|);
  }

  lemma {:induction false} Prefix(c: Config, log: seq<Event>, k: nat)
    requires Run(c, log) && k <= |log|
    ensures Run(c, log[..k])
    ensures k < |log| ==> Allowed(c, After(c, log[..k]), log[k])
    decreases |log|
  {
    if k == |log| {
      assert log[..k] == log;
    } else {
      var n := |log| - 1;
      Prefix(c, log[..n], k);
      assert log[..n][..k] == log[..k];
    }
  }

  /** No task starts before every smaller index is completed, and no completed task starts. */
  lemma LaunchesFollowTheSchedule(c: Config, log: seq<Event>, k: nat)
    requires Run(c, log) && k < |log| && log[k].Launch?
    ensures Run(c, log[..k])
    ensures var done := After(c, log[..k]).disk.completed;
      log[k].i < |c.tasks| && log[k].i !in done && forall j :: 0 <= j < log[k].i ==> j in done
  {
    Prefix(c, log, k);
  }

  /** The session that began at `s` has recorded no success up to `n`. */
  ghost predicate NoSuccess(c: Config, log: seq<Event>, s: nat, n: nat)
    requires Run(c, log) && n <= |log|
  {
    forall r :: s < r < n && log[r].Record? ==>
      Run(c, log[..r]) && After(c, log[..r]).phase.Exited? && !After(c, log[..r]).phase.ok
  }

  /** Warm-up is asked for exactly until the session's first success. */
  lemma {:induction false} WarmUntilFirstSuccess(c: Config, log: seq<Event>, s: nat)
    requires Run(c, log) && s < |log| && log[s].Start?
    requires forall r :: s < r < |log| ==> !log[r].Start?
    requires !After(c, log).phase.Down?
    ensures After(c, log).first <==> NoSuccess(c, log, s, |log|)
    decreases |log|
  {
    hide Pending, View, WithCompleted, WithFailed, Opened, Ended, IsGapList, WithoutAll;
    var n := |log| - 1;
    var front := log[..n];
    if s < n {
      WarmUntilFirstSuccess(c, front, s);
      forall r | 0 <= r <= n ensures front[..r] == log[..r] {}
      assert NoSuccess(c, log, s, n) <==> NoSuccess(c, front, s, n);
      assert NoSuccess(c, log, s, |log|) <==> NoSuccess(c, log, s, n) && (log[n].Record? ==> !After(c, front).phase.ok);
    }
  }

  // ---- honest result files ----

  /** Every exit 0 leaves a file with a row for its own depth and concurrency. */
  ghost predicate Honest(c: Config, log: seq<Event>) {
    forall k: nat, i: nat :: ExitedZero(c, log, k, i) && i < |c.tasks| ==>
      Reports(After(c, log[..k]).files, c.tasks, i)
  }

  ghost predicate AllReport(c: Config, w: World) {
    && (forall i :: i in w.disk.completed && 0 <= i < |c.tasks| ==> Reports(w.files, c.tasks, i))
    && (w.phase.Exited? && w.phase.ok && w.phase.i < |c.tasks| ==> Reports(w.files, c.tasks, w.phase.i))
  }

  lemma ReportsDepends(files: map<int, Doc>, files': map<int, Doc>, tasks: seq<BenchTask>, i: nat)
    requires i < |tasks| && Reports(files, tasks, i) && i in files' && files'[i] == files[i]
    ensures Reports(files', tasks, i)
  {
  }

  /** With every completed task reported, the gap pass has nothing to re-queue. */
  lemma NothingToRequeue(c: Config, w: World, gaps: seq<nat>)
    requires ListsFit(c, w) && ViewFits(c, w) && AllReport(c, w) && Allowed(c, w, GapPass(gaps))
    ensures gaps == []
  {
    if gaps != [] {
      var g := gaps[0];
      assert g in gaps;
      ReportedIsCovered(w.files, c.tasks, g);
    }
  }

  lemma HonestStep(c: Config, w: World, e: Event)
    requires ListsFit(c, w) && ViewFits(c, w) && AllReport(c, w) && Allowed(c, w, e)
    requires w.phase.InTask? && e.Exit? && e.ok ==> w.phase.i < |c.tasks| && Reports(w.files, c.tasks, w.phase.i)
    ensures AllReport(c, Apply(c, w, e))
    ensures forall i :: i in w.disk.completed ==> i in Apply(c, w, e).disk.completed
  {
    var w' := Apply(c, w, e);
    match e
    case GapPass(gaps) => NothingToRequeue(c, w, gaps);
    case Record =>
      CompletedKeepsSound(w.disk, w.phase.i, |c.tasks|);
    case _ =>
      forall i | i in w'.disk.completed && 0 <= i < |c.tasks| ensures Reports(w'.files, c.tasks, i) {
        ReportsDepends(w.files, w'.files, c.tasks, i);
      }
  }

  lemma {:induction false} HonestKeeps(c: Config, log: seq<Event>, k: nat)
    requires Run(c, log) && Honest(c, log) && k <= |log|
    ensures AllReport(c, After(c, log))
    ensures Run(c, log[..k])
    ensures forall i :: i in After(c, log[..k]).disk.completed ==> i in After(c, log).disk.completed
    decreases |log|
  {
    Prefix(c, log, k);
    if k == |log| { assert log[..k] == log; }
    if log != [] {
      var n := |log| - 1;
      var front := log[..n];
      forall m: nat, i: nat | ExitedZero(c, front, m, i) && i < |c.tasks|
        ensures Reports(After(c, front[..m]).files, c.tasks, i)
      {
        assert front[..m] == log[..m];
        assert ExitedZero(c, log, m, i);
      }
      if k <= n { assert front[..k] == log[..k]; }
      HonestKeeps(c, front, if k <= n then k else n);
      RunKeeps(c, front);
      var w := After(c, front);
      if w.phase.InTask? && log[n].Exit? && log[n].ok {
        assert ExitedZero(c, log, n, w.phase.i);
      }
      HonestStep(c, w, log[n]);
    }
  }

  /** If result files are honest, a task that was ever saved as completed is never launched again. */
  lemma HonestNeverReruns(c: Config, log: seq<Event>, k: nat, m: nat, i: nat)
    requires Run(c, log) && Honest(c, log) && k <= m < |log|
    requires Run(c, log[..k]) && i in After(c, log[..k]).disk.completed
    ensures !(log[m].Launch? && log[m].i == i)
    ensures log[m].GapPass? ==> log[m].gaps == []
  {
    Prefix(c, log, m);
    var front := log[..m];
    forall j: nat, x: nat | ExitedZero(c, front, j, x) && x < |c.tasks|
      ensures Reports(After(c, front[..j]).files, c.tasks, x)
    {
      assert front[..j] == log[..j];
      assert ExitedZero(c, log, j, x);
    }
    HonestKeeps(c, front, k);
    assert front[..k] == log[..k];
    RunKeeps(c, front);
    if log[m].GapPass? {
      NothingToRequeue(c, After(c, front), log[m].gaps);
    }
  }
}
