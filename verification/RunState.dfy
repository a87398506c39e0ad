/** Persisted progress of a scheduled benchmark (`benchmarking/run_state.py`, `BenchmarkRunState`). */
module RunState {
  import opened Prelude

  datatype SessionEntry = SessionEntry(number: nat, status: string)

  /** The contents of `state.yaml` that progress depends on. */
  datatype Saved = Saved(clusterId: string, hosts: seq<string>, completed: seq<int>, failed: seq<int>,
                         crashes: nat, sessionCount: nat, sessions: seq<SessionEntry>)

  /** Python's `list.remove` on a list that contains `x`. */
  function RemoveFirst(s: seq<int>, x: int): seq<int> {
    if s == [] then []
    else if s[0] == x then s[1..]
    else [s[0]] + RemoveFirst(s[1..], x)
  }

  lemma {:induction false} RemoveFirstIs(s: seq<int>, x: int)
    requires NoDup(s)
    ensures NoDup(RemoveFirst(s, x))
    ensures forall y :: y in RemoveFirst(s, x) <==> y in s && y != x
    ensures |RemoveFirst(s, x)| == |s| - if x in s then 1 else 0
  {
    if s != [] {
      assert s == [s[0]] + s[1..];
      assert NoDup(s[1..]) && s[0] !in s[1..];
      RemoveFirstIs(s[1..], x);
    }
  }

  function WithCompleted(s: Saved, i: int): Saved {
    s.(completed := if i in s.completed then s.completed else s.completed + [i],
       failed := if i in s.failed then RemoveFirst(s.failed, i) else s.failed)
  }

  function WithFailed(s: Saved, i: int): Saved {
    s.(failed := if i in s.failed then s.failed else s.failed + [i])
  }

  function Opened(s: Saved): Saved {
    s.(sessionCount := s.sessionCount + 1, sessions := s.sessions + [SessionEntry(s.sessionCount + 1, "running")])
  }

  function Closed(s: Saved, status: string): Saved {
    if s.sessions == [] then s
    else
      var k := |s.sessions| - 1;
      s.(sessions := s.sessions[k := s.sessions[k].(status := status)])
  }

  function Crashed(s: Saved): Saved {
    s.(crashes := s.crashes + 1)
  }

  /** `next_pending` as a value: the least index below `total` that is not completed. */
  function FirstPending(s: Saved, from: nat, total: nat): (r: Option<nat>)
    requires from <= total
    ensures r.None? <==> forall i :: from <= i < total ==> i in s.completed
    ensures r.Some? ==> from <= r.value < total && r.value !in s.completed
    ensures r.Some? ==> forall i :: from <= i < r.value ==> i in s.completed
    decreases total - from
  {
    if from == total then None
    else if from !in s.completed then Some(from)
    else FirstPending(s, from + 1, total)
  }

  function Pending(s: Saved, total: nat): Option<nat> {
    FirstPending(s, 0, total)
  }

  /** Progress lists are duplicate-free, disjoint and within the schedule. */
  ghost predicate Sound(s: Saved, total: nat) {
    && NoDup(s.completed) && NoDup(s.failed)
    && (forall i :: i in s.completed ==> 0 <= i < total && i !in s.failed)
    && (forall i :: i in s.failed ==> 0 <= i < total)
  }

  /** Sessions are numbered `1 .. session_count`. */
  ghost predicate Numbered(s: Saved) {
    && |s.sessions| == s.sessionCount
    && forall k :: 0 <= k < |s.sessions| ==> s.sessions[k].number == k + 1
  }

  lemma CompletedKeepsSound(s: Saved, i: int, total: nat)
    requires Sound(s, total) && 0 <= i < total
    ensures Sound(WithCompleted(s, i), total)
    ensures forall x :: x in WithCompleted(s, i).completed <==> x in s.completed || x == i
    ensures forall x :: x in WithCompleted(s, i).failed <==> x in s.failed && x != i
    ensures i !in s.completed ==> |WithCompleted(s, i).completed| == |s.completed| + 1
  {
    RemoveFirstIs(s.failed, i);
  }

  lemma FailedKeepsSound(s: Saved, i: int, total: nat)
    requires Sound(s, total) && 0 <= i < total && i !in s.completed
    ensures Sound(WithFailed(s, i), total)
    ensures forall x :: x in WithFailed(s, i).failed <==> x in s.failed || x == i
  {
  }

  /** All tasks done means exactly `total` completed indices. */
  lemma CompleteMeansTotal(s: Saved, total: nat)
    requires Sound(s, total)
    ensures Pending(s, total).None? <==> |s.completed| == total
    ensures |s.completed| <= total
    ensures Pending(s, total).None? ==> s.failed == []
  {
    NoDupBelow(s.completed, total);
    if |s.failed| > 0 {
      var x := s.failed[0];
      assert x in s.failed && 0 <= x < total && x !in s.completed;
      assert Pending(s, total).Some?;
    }
  }

  // ---- result files and the benchmark's directory ----

  datatype Entry = Junk | Row(contextSize: Option<real>, concurrency: Option<real>)

  /** One result file: unreadable JSON, a top level that is not a dict, or a dict. */
  datatype Doc = Unreadable | NotADict | Results(model: string, rows: Option<seq<Entry>>)

  /** A benchmark's state directory: `state.yaml` and the per-task result files. */
  class StateDir {
    var saved: Option<Saved>
    var files: map<int, Doc>

    constructor (saved: Option<Saved>, files: map<int, Doc>)
      ensures this.saved == saved && this.files == files
    {
      this.saved, this.files := saved, files;
    }

    /** `clear_state_dir`: everything but the lock goes. */
    method Clear()
      modifies this
      ensures saved == None && files == map[]
    {
      saved, files := None, map[];
    }
  }

  class BenchmarkRunState {
    var clusterId: string
    var hosts: seq<string>
    var completed: seq<int>
    var failed: seq<int>
    var crashes: nat
    var sessionCount: nat
    var sessions: seq<SessionEntry>

    function Now(): Saved
      reads this
    {
      Saved(clusterId, hosts, completed, failed, crashes, sessionCount, sessions)
    }

    constructor Load(s: Saved)
      ensures Now() == s
    {
      clusterId, hosts, completed, failed := s.clusterId, s.hosts, s.completed, s.failed;
      crashes, sessionCount, sessions := s.crashes, s.sessionCount, s.sessions;
    }

    constructor Fresh(clusterId: string, hosts: seq<string>)
      ensures Now() == Saved(clusterId, hosts, [], [], 0, 0, [])
    {
      this.clusterId, this.hosts, completed, failed := clusterId, hosts, [], [];
      crashes, sessionCount, sessions := 0, 0, [];
    }

    method Save(dir: StateDir)
      modifies dir
      ensures dir.saved == Some(Now()) && dir.files == old(dir.files)
    {
      dir.saved := Some(Now());
    }

    method MarkCompleted(i: int)
      modifies this
      ensures Now() == WithCompleted(old(Now()), i)
      ensures i in completed && forall x :: x in old(completed) ==> x in completed
    {
      if i !in completed {
        completed := completed + [i];
      }
      if i in failed {
        failed := RemoveFirst(failed, i);
      }
    }

    method MarkFailed(i: int)
      modifies this
      ensures Now() == WithFailed(old(Now()), i)
      ensures i in failed && completed == old(completed)
    {
      if i !in failed {
        failed := failed + [i];
      }
    }

    method MarkSessionStarted()
      modifies this
      ensures Now() == Opened(old(Now()))
      ensures old(Numbered(Now())) ==> Numbered(Now())
    {
      sessionCount := sessionCount + 1;
      sessions := sessions + [SessionEntry(sessionCount, "running")];
    }

    method MarkSessionEnded(status: string)
      modifies this
      ensures Now() == Closed(old(Now()), status)
      ensures |sessions| == old(|sessions|)
      ensures forall k :: 0 <= k < |sessions| - 1 ==> sessions[k] == old(sessions)[k]
    {
      if sessions != [] {
        var k := |sessions| - 1;
        sessions := sessions[k := sessions[k].(status := status)];
      }
    }

    method MarkCrash()
      modifies this
      ensures Now() == Crashed(old(Now()))
    {
      crashes := crashes + 1;
    }

    method NextPending(total: nat) returns (r: Option<nat>)
      ensures r == Pending(Now(), total)
      ensures r.Some? ==> r.value < total && r.value !in completed && forall i :: 0 <= i < r.value ==> i in completed
      ensures r.None? ==> forall i :: 0 <= i < total ==> i in completed
    {
      for i := 0 to total
        invariant FirstPending(Now(), i, total) == Pending(Now(), total)
        invariant forall k :: 0 <= k < i ==> k in completed
      {
        if i !in completed {
          return Some(i);
        }
      }
      return None;
    }

    method IsComplete(total: nat) returns (r: bool)
      ensures r <==> forall i :: 0 <= i < total ==> i in completed
      ensures r <==> Pending(Now(), total).None?
    {
      r := forall i :: 0 <= i < total ==> i in completed;
    }

    /** Dropping gap tasks from the completed list, in place and one by one. */
    method RemoveCompleted(i: int)
      modifies this
      ensures Now() == old(Now()).(completed :=
        if i in old(completed) then RemoveFirst(old(completed), i) else old(completed))
    {
      if i in completed {
        completed := RemoveFirst(completed, i);
      }
    }
  }
}
