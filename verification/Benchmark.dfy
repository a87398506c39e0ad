/**
 * One benchmark run from its arguments to its result (`api/_benchmark.py`, `_execute_benchmark`): build the task list,
 * open the state, run the schedule. A directory keeps having a history in the sense of `Schedule`.
 */
module Benchmark {
  import opened Prelude
  import opened RunState
  import opened TaskList
  import Resume
  import Schedule
  import InnerLoop
  import ScheduleRun

  datatype Ran =
    | BadArguments(error: BuildError)
    | NoResumableState
    | Ran(result: ScheduleRun.RunResult)

  /** The directory holds what this history left, at rest. */
  ghost predicate Past(c: Schedule.Config, log: seq<Schedule.Event>, dir: StateDir)
    reads dir
  {
    && Schedule.Run(c, log) && Schedule.After(c, log).phase.Down?
    && dir.saved == Some(Schedule.After(c, log).disk) && dir.files == Schedule.After(c, log).files
  }

  /** The list that these arguments build. */
  ghost predicate Builds(base: Args, schedule: Option<seq<Args>>, tasks: seq<BenchTask>) {
    match schedule
    case Some(entries) => FromSchedule(Ok(tasks), base, entries)
    case None => FromProduct(Ok(tasks), base, AxisOf(base, "depth", 0), AxisOf(base, "concurrency", 1))
  }

  /** Arguments build one list. */
  method BuildOnce(base: Args, schedule: Option<seq<Args>>) returns (r: Result<seq<BenchTask>, BuildError>)
    ensures forall tasks :: Builds(base, schedule, tasks) <==> r == Ok(tasks)
    ensures r.Ok? ==> forall i :: 0 <= i < |r.value| ==> r.value[i].index == i
  {
    r := BuildTaskList(base, schedule);
    forall tasks ensures Builds(base, schedule, tasks) <==> r == Ok(tasks) {
      if Builds(base, schedule, tasks) {
        match schedule
        case Some(entries) => ScheduleListIsUnique(base, entries, r, tasks);
        case None => ProductListIsUnique(base, AxisOf(base, "depth", 0), AxisOf(base, "concurrency", 1), r, tasks);
      }
    }
  }

  /** The state at the end of a run that began with these sessions: one more, the earlier ones as they were. */
  ghost predicate OneSessionMore(before: seq<SessionEntry>, after: seq<SessionEntry>) {
    |after| == |before| + 1 && forall k :: 0 <= k < |before| ==> after[k] == before[k]
  }

  /** Runs the schedule on an opened state. */
  method RunOn(dir: StateDir, state: BenchmarkRunState, c: Schedule.Config, exitFirst: bool,
               outcomes: nat -> InnerLoop.Outcome, faults: ScheduleRun.Faults, ghost log0: seq<Schedule.Event>)
    returns (result: ScheduleRun.RunResult, ghost log: seq<Schedule.Event>)
    requires exitFirst || InnerLoop.Fair(outcomes)
    requires forall i :: 0 <= i < |c.tasks| ==> c.tasks[i].index == i
    requires Schedule.Run(c, log0) && Schedule.After(c, log0).phase.Down?
    requires Schedule.After(c, log0).files == dir.files
    requires state.Now() == Schedule.After(c, log0).disk.(clusterId := state.clusterId, hosts := state.hosts)
    requires Schedule.After(c, log0).disk.hosts == [] || state.hosts == Schedule.After(c, log0).disk.hosts
    modifies dir, state
    ensures Past(c, log, dir)
    ensures dir.saved.value.clusterId == old(state.clusterId) && dir.saved.value.hosts == old(state.hosts)
    ensures OneSessionMore(old(state.sessions), dir.saved.value.sessions)
    ensures result.Finished? && result.success ==>
      result.completedCount == |c.tasks| == |dir.saved.value.completed| && dir.saved.value.failed == []
  {
    var s := new ScheduleRun.Session(c, exitFirst, outcomes, faults, state, dir, log0);
    ghost var gaps;
    result, gaps := s.RunSchedule();
    log := s.log;
  }

  /**
   * `c0` and `log0` are the history of the state that is found, if one is; its schedule is part of the id it is found
   * under. The run goes on from it when the state is reused, and otherwise starts a new history over whatever files are
   * left in place.
   */
  method Execute(dir: StateDir, base: Args, schedule: Option<seq<Args>>, r: Resume.Request, exitFirst: bool,
                 outcomes: nat -> InnerLoop.Outcome, faults: ScheduleRun.Faults, c0: Schedule.Config,
                 ghost log0: seq<Schedule.Event>)
    returns (ran: Ran, c: Schedule.Config, ghost log: seq<Schedule.Event>)
    requires exitFirst || InnerLoop.Fair(outcomes)
    requires dir.saved.Some? ==> Past(c0, log0, dir) && Builds(base, schedule, c0.tasks)
    modifies dir
    ensures ran.BadArguments? <==> forall tasks :: !Builds(base, schedule, tasks)
    ensures ran.BadArguments? ==> dir.saved == old(dir.saved) && dir.files == old(dir.files)
    ensures ran.NoResumableState? ==> r.mode == Resume.Required
    // The directory has a history again, of the list these arguments build; a success is a finished schedule.
    ensures ran.Ran? ==> Past(c, log, dir) && Builds(base, schedule, c.tasks)
    ensures ran.Ran? ==> dir.saved.value.clusterId == r.clusterId && dir.saved.value.sessions != []
    ensures ran.Ran? && ran.result.Finished? && ran.result.success ==>
      |dir.saved.value.completed| == |c.tasks| && dir.saved.value.failed == []
    // A reused state keeps its sessions; any other run is its directory's first.
    ensures ran.Ran? ==>
      if Resume.Reuses(old(dir.saved), r.(schedule := Entries(c.tasks))) then
        c == c0 && OneSessionMore(old(dir.saved).value.sessions, dir.saved.value.sessions)
      else |dir.saved.value.sessions| == 1 && dir.saved.value.hosts == r.hosts
  {
    hide Schedule.Run, Schedule.After, Builds, Resume.Reuses, Resume.Refuses, Resume.OfTheseNodes, Resume.OfOtherNodes;
    c, log := c0, log0;
    var built := BuildOnce(base, schedule);
    if built.Err? {
      return BadArguments(built.error), c, log;
    }
    var tasks := built.value;
    var request := r.(schedule := Entries(tasks));
    var reused := Resume.Reuses(dir.saved, request);
    var state := Resume.OpenState(dir, request);
    RefusedMeansRequired(old(dir.saved), request);
    if state == null {
      return NoResumableState, c, log;
    }
    if reused {
      ReusedWasFound(old(dir.saved), request);
    } else {
      c, log := Schedule.Config(tasks, r.clusterId, r.hosts, dir.files), [];
      NoHistoryYet(c);
    }
    var result;
    result, log := RunOn(dir, state, c, exitFirst, outcomes, faults, log);
    ran := Ran(result);
  }

  lemma RefusedMeansRequired(found: Option<Saved>, r: Resume.Request)
    ensures Resume.Refuses(found, r) ==> r.mode == Resume.Required
  {
  }

  lemma ReusedWasFound(found: Option<Saved>, r: Resume.Request)
    requires Resume.Reuses(found, r)
    ensures found.Some? && !Resume.Clears(found, r)
  {
  }

  lemma NoHistoryYet(c: Schedule.Config)
    ensures Schedule.Run(c, []) && Schedule.After(c, []) == Schedule.Initial(c)
  {
  }
}
