/**
 * `run_schedule` itself, with its inner loop, gap pass and every exit path, over a state object, a state directory and
 * a stream of subprocess outcomes. The ghost log shows each call to be a run of the protocol in `Schedule`.
 */
module ScheduleRun {
  import opened Prelude
  import opened RunState
  import opened TaskList
  import opened Aggregator
  import opened Schedule
  import opened InnerLoop

  datatype Stop = Continue | Drained | Aborted | Interrupt | Raised

  datatype RunResult = Finished(success: bool, completedCount: nat, failedCount: nat) | KeyboardInterrupt

  /** Whether gap analysis, or the final consolidation, raises. */
  datatype Faults = Faults(gapPass: bool, finish: bool)

  class Session {
    const c: Config
    const exitFirst: bool
    const outcomes: nat -> Outcome
    const faults: Faults
    const state: BenchmarkRunState
    const dir: StateDir
    var consolidated: Consolidated
    var sessionFirst: bool
    var gapDone: bool
    var launches: nat
    ghost var log: seq<Event>
    ghost var w: World

    /** `w` is where the run recorded in `log` has arrived. */
    ghost predicate Recorded()
      reads this`log, this`w
    {
      Run(c, log) && After(c, log) == w
    }

    /** The objects agree with `w`: state and files always, the session's variables while it is up. */
    ghost predicate Agrees(phase: Phase)
      reads this, state, dir
    {
      && w.phase == phase && w.disk == state.Now() && w.files == dir.files
      && (phase.Down? || (w.gapDone == gapDone && w.first == sessionFirst && w.view == consolidated
                         && w.exitFirst == exitFirst))
    }

    ghost predicate Follows(phase: Phase)
      reads this, state, dir
    {
      Recorded() && Agrees(phase)
    }

    /** State and files agree with `w`, whatever an exception left of the session's variables. */
    ghost predicate Backs()
      reads this, state, dir
    {
      Recorded() && w.disk == state.Now() && w.files == dir.files && !w.phase.Down?
    }

    ghost predicate LastSession(status: string)
      reads state
    {
      state.sessions != [] && state.sessions[|state.sessions| - 1].status == status
    }

    /** The same identity and sessions as in `s`, but perhaps for how the last one ended. */
    ghost predicate SameSessions(s: RunState.Saved)
      reads state
    {
      && state.clusterId == s.clusterId && state.hosts == s.hosts
      && |state.sessions| == |s.sessions|
      && forall k :: 0 <= k < |s.sessions| - 1 ==> state.sessions[k] == s.sessions[k]
    }

    /** Between sessions: `state` is what the history left on disk, perhaps with a new cluster id or its first hosts. */
    ghost predicate Arrives()
      reads this, state, dir
    {
      && Recorded() && w.phase.Down? && w.files == dir.files
      && state.Now() == w.disk.(clusterId := state.clusterId, hosts := state.hosts)
      && (w.disk.hosts == [] || state.hosts == w.disk.hosts)
    }

    ghost predicate Saved()
      reads this, state, dir
    {
      dir.saved == Some(state.Now())
    }

    ghost predicate Indexed() {
      forall i :: 0 <= i < |c.tasks| ==> c.tasks[i].index == i
    }

    /** A process that picks up `state` where the directory's history left it. */
    constructor (c: Config, exitFirst: bool, outcomes: nat -> Outcome, faults: Faults, state: BenchmarkRunState,
                 dir: StateDir, ghost log: seq<Event>)
      requires Run(c, log) && After(c, log).phase.Down? && After(c, log).files == dir.files
      requires state.Now() == After(c, log).disk.(clusterId := state.clusterId, hosts := state.hosts)
      requires After(c, log).disk.hosts == [] || state.hosts == After(c, log).disk.hosts
      ensures this.c == c && this.exitFirst == exitFirst && this.outcomes == outcomes && this.faults == faults
      ensures this.state == state && this.dir == dir && this.log == log
      ensures Arrives() && launches == 0
    {
      this.c, this.exitFirst, this.outcomes, this.faults := c, exitFirst, outcomes, faults;
      this.state, this.dir := state, dir;
      this.log, w := log, After(c, log);
      consolidated, sessionFirst, gapDone, launches := Consolidated("", 0, []), true, false, 0;
    }

    ghost method Emit(e: Event)
      requires Recorded() && Allowed(c, w, e)
      modifies this`log, this`w
      ensures Recorded() && log == old(log) + [e] && w == Apply(c, old(w), e)
    {
      Extended(c, log, e);
      w := Apply(c, w, e);
      log := log + [e];
    }

    /** What `Schedule` proves of every run, here. */
    lemma Facts()
      requires Recorded()
      ensures ListsFit(c, w) && ViewFits(c, w)
      ensures !w.phase.Down? ==> w.disk.sessions != []
      ensures |w.disk.completed| <= |c.tasks|
    {
      RunKeeps(c, log);
      NoDupBelow(w.disk.completed, |c.tasks|);
    }

    /** Room is left exactly while something is pending. */
    lemma Sizes()
      requires Recorded()
      ensures |w.disk.completed| <= |c.tasks|
      ensures Next(c, w).Some? ==> |w.disk.completed| < |c.tasks|
    {
      Facts();
      CompleteMeansTotal(w.disk, |c.tasks|);
    }

    /** A directory listing, in whatever order the file system gives. */
    method Glob() returns (listing: seq<File>)
      ensures IsListing(listing, dir.files, c.tasks)
    {
      listing := InOrder(dir.files, c.tasks, |c.tasks|);
    }

    method Consolidate()
      modifies this`consolidated
      ensures consolidated == View(dir.files, c.tasks)
    {
      var listing := Glob();
      ListingGivesView(listing, dir.files, c.tasks);
      consolidated := ConsolidateResults(listing);
    }

    /** Ends the open session and saves. */
    method Close(status: string)
      requires Follows(w.phase) && Allowed(c, w, End(status)) && status != "crashed"
      modifies state, dir, this`log, this`w
      ensures Follows(Down) && Saved() && LastSession(status)
      ensures state.completed == old(state.completed) && state.failed == old(state.failed)
      ensures SameSessions(old(state.Now()))
    {
      Facts();
      state.MarkSessionEnded(status);
      state.Save(dir);
      Emit(End(status));
    }

    method CloseCrashed()
      requires Backs()
      modifies state, dir, this`log, this`w
      ensures Follows(Down) && Saved() && LastSession("crashed")
      ensures state.completed == old(state.completed) && state.failed == old(state.failed)
      ensures SameSessions(old(state.Now()))
    {
      Facts();
      state.MarkCrash();
      state.MarkSessionEnded("crashed");
      state.Save(dir);
      Emit(End("crashed"));
    }

    method Launch(idx: nat) returns (o: Outcome)
      requires Follows(Between) && Next(c, w) == Some(idx)
      modifies this`log, this`w, this`launches, dir
      ensures o == outcomes(old(launches)) && launches == old(launches) + 1
      ensures dir.files == if o.doc.Some? then old(dir.files)[idx as int := o.doc.value] else old(dir.files)
      ensures Follows(InTask(idx)) && Saved() && Next(c, w) == Some(idx) && unchanged(state)
    {
      state.Save(dir);
      Emit(Event.Launch(idx, sessionFirst));
      o := outcomes(launches);
      launches := launches + 1;
      if o.doc.Some? {
        dir.files := dir.files[idx as int := o.doc.value];
        Emit(Write(o.doc.value));
      }
    }

    /** The subprocess exited 0: completed, saved, and the view brought up to date. */
    method RecordSuccess(idx: nat)
      requires Follows(InTask(idx)) && Next(c, w) == Some(idx)
      modifies this`log, this`w, this`consolidated, this`sessionFirst, state, dir
      ensures Follows(Between) && Saved() && state.Now() == WithCompleted(old(state.Now()), idx)
    {
      Emit(Exit(true));
      state.MarkCompleted(idx);
      state.Save(dir);
      Consolidate();
      sessionFirst := false;
      Emit(Record);
    }

    /** The same, but an exception leaves the session's own view and flag behind. */
    method RecordThenRaise(idx: nat)
      requires Follows(InTask(idx)) && Next(c, w) == Some(idx)
      modifies this`log, this`w, state, dir
      ensures Backs() && Saved() && state.Now() == WithCompleted(old(state.Now()), idx)
    {
      Emit(Exit(true));
      state.MarkCompleted(idx);
      state.Save(dir);
      Emit(Record);
    }

    /** The subprocess failed or timed out. */
    method RecordFailure(idx: nat)
      requires Follows(InTask(idx))
      modifies this`log, this`w, state, dir
      ensures Follows(if exitFirst then Aborting else Between) && Saved()
      ensures state.Now() == WithFailed(old(state.Now()), idx)
    {
      Emit(Exit(false));
      state.MarkFailed(idx);
      state.Save(dir);
      Emit(Record);
    }

    /** One turn of the inner loop. */
    method Attempt(idx: nat) returns (x: Stop)
      requires Follows(Between) && Next(c, w) == Some(idx)
      modifies this`log, this`w, this`launches, this`consolidated, this`sessionFirst, state, dir
      ensures launches == old(launches) + 1 && Saved() && x != Drained && SameSessions(old(state.Now()))
      ensures var o := outcomes(old(launches));
        && (x == Aborted <==> Failing(o) && exitFirst)
        && (x == Interrupt <==> o.Interrupted?) && (x == Raised <==> o.Raises? || o.RaisesAfter?)
        && Turn(old(state.Now()), |c.tasks|, exitFirst, o) == if x == Continue then Some(state.Now()) else None
      ensures x == Continue ==> Follows(Between)
      ensures x == Aborted ==> Follows(Down) && LastSession("partial")
      ensures x == Interrupt ==> Follows(InTask(idx))
      ensures x == Raised ==> Backs()
    {
      var o := Launch(idx);
      if o.Succeeds? {
        RecordSuccess(idx);
        x := Continue;
      } else if Failing(o) {
        RecordFailure(idx);
        if exitFirst {
          Close("partial");
          x := Aborted;
        } else {
          x := Continue;
        }
      } else if o.RaisesAfter? {
        RecordThenRaise(idx);
        x := Raised;
      } else {
        x := if o.Interrupted? then Interrupt else Raised;
      }
    }

    /** What the last launch came to, when it ended the loop. */
    ghost predicate EndedBy(x: Stop, n: nat)
    {
      && (x == Aborted ==> exitFirst && n > 0 && Failing(outcomes(n - 1)))
      && (x == Interrupt ==> n > 0 && outcomes(n - 1).Interrupted?)
      && (x == Raised ==> faults.gapPass || (n > 0 && (outcomes(n - 1).Raises? || outcomes(n - 1).RaisesAfter?)))
    }

    /** One turn and what it does to the count of tasks left. */
    method TakeTurn(idx: nat) returns (x: Stop)
      requires Follows(Between) && Next(c, w) == Some(idx)
      modifies this`log, this`w, this`launches, this`consolidated, this`sessionFirst, state, dir
      ensures launches == old(launches) + 1 && Saved() && x != Drained && EndedBy(x, launches)
      ensures SameSessions(old(state.Now()))
      ensures Turn(old(state.Now()), |c.tasks|, exitFirst, outcomes(old(launches)))
           == if x == Continue then Some(state.Now()) else None
      ensures x == Continue ==> Follows(Between) && old(|state.completed|) <= |state.completed| <= |c.tasks|
      ensures x == Continue && Failing(outcomes(old(launches))) ==> !exitFirst
      ensures x == Continue && !Failing(outcomes(old(launches))) ==> |state.completed| == old(|state.completed|) + 1
      ensures x == Aborted ==> Follows(Down) && LastSession("partial")
      ensures x == Interrupt ==> w.phase.InTask? && Follows(w.phase)
      ensures x == Raised ==> Backs()
      ensures old(|state.completed|) < |c.tasks|
    {
      hide Session.Recorded;
      Sizes();
      ghost var before := state.Now();
      x := Attempt(idx);
      if x == Continue {
        TurnSizes(before, outcomes(launches - 1));
        Sizes();
      }
    }

    /** While the session is up, what the objects hold is what `w` holds. */
    lemma UpToDate()
      requires Follows(Between)
      ensures Next(c, w) == Pending(state.Now(), |c.tasks|) && |state.completed| <= |c.tasks|
    {
      Sizes();
    }

    /** `_do_loop`. Unless the first failure ends it, it needs failures to stop eventually. */
    method DoLoop() returns (x: Stop)
      requires Follows(Between) && Saved()
      requires exitFirst || Fair(outcomes)
      modifies this`log, this`w, this`launches, this`consolidated, this`sessionFirst, state, dir
      ensures x != Continue && Saved() && launches >= old(launches) && EndedBy(x, launches)
      ensures SameSessions(old(state.Now()))
      ensures x == Drained ==> Follows(Between) && Next(c, w) == None
      // It stops at the first turn that does not go on, and leaves the state of all those that did.
      ensures x == Drained ==>
        Turns(old(state.Now()), |c.tasks|, exitFirst, outcomes, old(launches), launches - old(launches))
        == Some(state.Now())
      ensures x != Drained ==> launches > old(launches)
      ensures x != Drained ==>
        Turns(old(state.Now()), |c.tasks|, exitFirst, outcomes, old(launches), launches - old(launches)) == None
      ensures x == Aborted ==> Follows(Down) && LastSession("partial")
      ensures x == Interrupt ==> w.phase.InTask? && Follows(w.phase)
      ensures x == Raised ==> Backs()
      ensures exitFirst ==> launches - old(launches) <= |c.tasks| - old(|state.completed|)
    {
      hide Session.Follows, Session.LastSession, Session.Saved, Turn, Turns, Next, Pending;
      ghost var n, s := launches, state.Now();
      ghost var goal := if exitFirst then launches else NextGood(launches);
      UpToDate();
      NoTurns(s, n);
      while true
        invariant Follows(Between) && Saved()
        invariant |state.completed| <= |c.tasks| && launches >= n && SameSessions(s)
        invariant Turns(s, |c.tasks|, exitFirst, outcomes, n, launches - n) == Some(state.Now())
        invariant exitFirst ==> launches - n == |state.completed| - |s.completed|
        invariant !exitFirst ==> goal >= launches && !Failing(outcomes(goal))
        decreases |c.tasks| - |state.completed|, if exitFirst then 0 else goal - launches
      {
        UpToDate();
        var idx := state.NextPending(|c.tasks|);
        if idx.None? {
          return Drained;
        }
        ghost var before := state.Now();
        x := TakeTurn(idx.value);
        TurnsSucc(s, before, n, launches - n);
        if x != Continue {
          return;
        }
        if !exitFirst && goal < launches {
          goal := NextGood(launches);
        }
      }
    }

    /** Some attempt from `n` on that does not fail. */
    ghost function NextGood(n: nat): (m: nat)
      requires Fair(outcomes)
      ensures m >= n && !Failing(outcomes(m))
    {
      assert GoodAfter(outcomes, n);
      var m: nat :| m >= n && !Failing(outcomes(m));
      m
    }

    lemma NoTurns(s: RunState.Saved, n: nat)
      ensures Turns(s, |c.tasks|, exitFirst, outcomes, n, 0) == Some(s)
    {
    }

    lemma TurnsSucc(s: RunState.Saved, t: RunState.Saved, n: nat, k: nat)
      requires k > 0 && Turns(s, |c.tasks|, exitFirst, outcomes, n, k - 1) == Some(t)
      ensures Turns(s, |c.tasks|, exitFirst, outcomes, n, k) == Turn(t, |c.tasks|, exitFirst, outcomes(n + k - 1))
    {
    }

    lemma TurnSizes(s: RunState.Saved, o: Outcome)
      requires Turn(s, |c.tasks|, exitFirst, o).Some?
      ensures |Turn(s, |c.tasks|, exitFirst, o).value.completed| == |s.completed| + if o.Succeeds? then 1 else 0
      ensures o.Succeeds? || (Failing(o) && !exitFirst)
    {
    }

    /** Drops the gaps from the completed list and saves. */
    method Requeue(gaps: seq<nat>)
      modifies state, dir
      ensures state.Now() == old(state.Now()).(completed := WithoutAll(old(state.completed), gaps))
      ensures Saved() && dir.files == old(dir.files)
    {
      for k := 0 to |gaps|
        invariant state.Now() == old(state.Now()).(completed := WithoutAll(old(state.completed), gaps[..k]))
        invariant dir.files == old(dir.files)
      {
        assert gaps[..k + 1][..k] == gaps[..k];
        state.RemoveCompleted(gaps[k]);
      }
      assert gaps[..|gaps|] == gaps;
      state.Save(dir);
    }

    /** Starts a session: the view is rebuilt and the session is on disk before anything runs. */
    method Open()
      requires Arrives()
      modifies this`log, this`w, this`consolidated, this`sessionFirst, this`gapDone, state, dir
      ensures Follows(Between) && Saved() && !gapDone && sessionFirst
      ensures state.completed == old(state.completed)
      ensures state.clusterId == old(state.clusterId) && state.hosts == old(state.hosts)
      ensures state.sessions == old(state.sessions) + [SessionEntry(old(state.sessionCount) + 1, "running")]
    {
      hide Session.Recorded, View;
      Consolidate();
      state.MarkSessionStarted();
      state.Save(dir);
      sessionFirst, gapDone := true, false;
      Emit(Start(exitFirst, state.clusterId, state.hosts));
    }

    lemma AllDone()
      requires Recorded() && Next(c, w) == None
      ensures |w.disk.completed| == |c.tasks| && w.disk.failed == []
    {
      Facts();
      CompleteMeansTotal(w.disk, |c.tasks|);
    }

    lemma GapsFit(gaps: seq<nat>, rows: seq<Entry>)
      requires IsGapList(gaps, c.tasks, rows)
      ensures |gaps| <= |c.tasks|
    {
      assert forall i :: 0 <= i < |gaps| ==> gaps[i] in gaps;
      NoDupBelow(gaps, |c.tasks|);
    }

    /** Finds the gaps and puts them back among the pending tasks. */
    method QueueGaps() returns (gaps: seq<nat>)
      requires Follows(Between) && Saved() && Next(c, w) == None && !gapDone && Indexed()
      modifies this`log, this`w, this`gapDone, state, dir
      ensures Follows(Between) && Saved() && gapDone
      ensures IsGapList(gaps, c.tasks, View(old(dir.files), c.tasks).rows) && |gaps| <= |c.tasks|
      ensures |state.completed| == |c.tasks| - |gaps| && state.sessions == old(state.sessions)
      ensures state.clusterId == old(state.clusterId) && state.hosts == old(state.hosts)
      ensures gaps == [] ==> Next(c, w) == None
    {
      Facts();
      AllDone();
      gaps := GapAnalysis(c.tasks, consolidated);
      GapPassIs(c, w, gaps);
      GapsFit(gaps, consolidated.rows);
      gapDone := true;
      if gaps != [] {
        Requeue(gaps);
      }
      Emit(Event.GapPass(gaps));
    }

    /** The gap pass, with the second turn of the loop it may cause. */
    method GapPass() returns (x: Stop, ghost gaps: seq<nat>)
      requires Follows(Between) && Saved() && Next(c, w) == None && !gapDone && Indexed()
      requires exitFirst || Fair(outcomes)
      modifies this`log, this`w, this`launches, this`consolidated, this`sessionFirst, this`gapDone, state, dir
      ensures x != Continue && Saved() && launches >= old(launches) && EndedBy(x, launches)
      ensures SameSessions(old(state.Now()))
      ensures !faults.gapPass ==> IsGapList(gaps, c.tasks, View(old(dir.files), c.tasks).rows)
      ensures |gaps| <= |c.tasks|
      ensures x == Drained ==> Follows(Between) && gapDone && Next(c, w) == None
      ensures x == Aborted ==> Follows(Down) && LastSession("partial")
      ensures x == Interrupt ==> w.phase.InTask? && Follows(w.phase)
      ensures x == Raised ==> Backs()
      ensures exitFirst ==> launches - old(launches) <= |gaps|
    {
      hide Session.Recorded, Turns, IsGapList, View, Next, Pending;
      gaps := [];
      if faults.gapPass {
        x := Raised;
        return;
      }
      var found := QueueGaps();
      gaps := found;
      x := Drained;
      if found != [] {
        x := DoLoop();
      }
    }

    /** What `run_schedule` does once it is not aborted, interrupted or crashed. */
    method Finish() returns (r: RunResult)
      requires Follows(Between) && Saved() && Next(c, w) == None && gapDone
      modifies this`log, this`w, this`consolidated, state, dir
      ensures Follows(Down) && Saved() && LastSession("completed")
      ensures r == Finished(true, |c.tasks|, 0) && |state.completed| == |c.tasks| && state.failed == []
      ensures SameSessions(old(state.Now()))
    {
      AllDone();
      Consolidate();
      var done := state.IsComplete(|c.tasks|);
      Facts();
      Close(if done then "completed" else "partial");
      return Finished(done, |state.completed|, |state.failed|);
    }

    ghost predicate Reported(r: RunResult)
      reads state
    {
      r.Finished? ==> r.completedCount == |state.completed| && r.failedCount == |state.failed|
    }

    /** The exit paths: every one closes the session it opened, and the result says how. */
    method Conclude(x: Stop) returns (r: RunResult)
      requires x != Continue && EndedBy(x, launches) && Saved()
      requires x == Drained ==> Follows(Between) && Next(c, w) == None && gapDone
      requires x == Aborted ==> Follows(Down) && LastSession("partial")
      requires x == Interrupt ==> w.phase.InTask? && Follows(w.phase)
      requires x == Raised ==> Backs()
      modifies this`log, this`w, this`consolidated, state, dir
      ensures Follows(Down) && Saved() && Reported(r) && SameSessions(old(state.Now()))
      ensures x == Interrupt ==> r == KeyboardInterrupt && LastSession("interrupted")
      ensures x == Raised ==> r.Finished? && !r.success && LastSession("crashed")
      ensures x == Aborted ==> r.Finished? && !r.success && LastSession("partial")
      ensures x == Drained && faults.finish ==> r.Finished? && !r.success && LastSession("crashed")
      ensures x == Drained && !faults.finish ==> r == Finished(true, |c.tasks|, 0) && LastSession("completed")
    {
      if x == Interrupt {
        Close("interrupted");
        r := KeyboardInterrupt;
      } else if x == Raised || (x == Drained && faults.finish) {
        CloseCrashed();
        r := Finished(false, |state.completed|, |state.failed|);
      } else if x == Aborted {
        r := Finished(false, |state.completed|, |state.failed|);
      } else {
        r := Finish();
      }
    }

    /** The last launched subprocess, or what was done with its result, raised. */
    ghost predicate LastRaised()
      reads this
    {
      launches > 0 && (outcomes(launches - 1).Raises? || outcomes(launches - 1).RaisesAfter?)
    }

    /** `run_schedule`. */
    method RunSchedule() returns (r: RunResult, ghost gaps: seq<nat>)
      requires Arrives() && Indexed()
      requires exitFirst || Fair(outcomes)
      modifies this, state, dir
      ensures Follows(Down) && Saved() && Reported(r)
      ensures state.clusterId == old(state.clusterId) && state.hosts == old(state.hosts)
      // One session more, closed; the earlier ones as they were.
      ensures |state.sessions| == old(|state.sessions|) + 1
      ensures forall k :: 0 <= k < old(|state.sessions|) ==> state.sessions[k] == old(state.sessions)[k]
      ensures r.KeyboardInterrupt? ==> LastSession("interrupted") && launches > 0 && outcomes(launches - 1).Interrupted?
      // Neither aborted, interrupted nor crashed: then everything is done.
      ensures r.Finished? && r.success ==>
        LastSession("completed") && r.completedCount == |c.tasks| && r.failedCount == 0
      ensures r.Finished? && !r.success ==> (
        || (LastSession("crashed") && (faults.gapPass || faults.finish || LastRaised()))
        || (LastSession("partial") && exitFirst && launches > 0 && Failing(outcomes(launches - 1))))
      // With exit_on_first_fail, launches never exceed what was pending plus the gaps, at most twice the schedule.
      ensures |gaps| <= |c.tasks| && launches >= old(launches)
      ensures exitFirst ==> launches - old(launches) <= (|c.tasks| - old(|state.completed|)) + |gaps| <= 2 * |c.tasks|
    {
      hide Session.Arrives, Session.Follows, Session.LastSession, Session.Saved, Session.Reported, Turns, IsGapList,
        View, Next, Pending;
      Open();
      gaps := [];
      var x := DoLoop();
      if x == Drained {
        x, gaps := GapPass();
      }
      r := Conclude(x);
    }
  }
}
