/** Turning a host list and a recipe into the hosts a launch uses (`api/_hosts.py`, `resolve_effective_hosts`). */
module Hosts {
  import opened Prelude
  import opened Snapshot
  import opened Pack

  datatype SchedulingFailure = NoCapacity | OtherSparkrunError

  datatype ResolveError =
    | InsufficientCapacity(required: int)
    | TooManyNodes(required: int, maxNodes: int)
    | SchedulingError

  datatype HostNote =
    | UsingOf(used: nat, total: nat)
    | Capped(maxNodes: int, used: nat, total: nat)
    | SoloOf(total: nat)

  datatype Effective = Effective(hosts: seq<string>, isSolo: bool, notes: seq<HostNote>, placement: Option<Assignment>)

  /** What the recipe, the overrides and the runtime say about the launch. */
  datatype Request = Request(solo: bool, parallel: bool, ranks: int, maxNodes: Option<int>, clusterKnown: bool)

  /** `_schedule_hosts` on a host list, a rank count, and whether the recipe's layout is honoured. */
  type Scheduler = (seq<string>, int, bool) -> Result<Assignment, SchedulingFailure>

  /** What any scheduler promises: distinct candidate hosts, no more than ranks, and some when there are ranks. */
  ghost predicate Schedules(s: Scheduler) {
    forall hosts, ranks, layout {:trigger s(hosts, ranks, layout)} :: s(hosts, ranks, layout).Ok? ==>
      var used := s(hosts, ranks, layout).value.hostsUsed;
      && NoDup(used)
      && ElemsOf(used) <= ElemsOf(hosts)
      && (ranks >= 1 ==> 1 <= |used| <= ranks)
  }

  /** Python's `xs[:n]`. */
  function Take<T>(xs: seq<T>, n: int): (r: seq<T>)
    ensures r <= xs && |r| == if n >= 0 then (if n < |xs| then n else |xs|) else if |xs| + n > 0 then |xs| + n else 0
  {
    if n >= |xs| then xs else if n >= 0 then xs[..n] else if |xs| + n >= 0 then xs[..|xs| + n] else []
  }

  /** The multi-node block runs: several candidates, explicit parallelism, no solo request. */
  predicate MultiNode(hosts: seq<string>, q: Request) {
    !q.solo && |hosts| > 1 && q.parallel
  }

  /** The host list is cut to the cap, and the recipe's own parallelism does not fit under it. */
  predicate CannotFit(hosts: seq<string>, q: Request) {
    q.maxNodes.Some? && |hosts| > q.maxNodes.value && q.parallel && q.ranks > q.maxNodes.value
  }

  predicate Exceeds(n: int, maxNodes: Option<int>) {
    maxNodes.Some? && n > maxNodes.value
  }

  /** The inputs on which the host list is meaningful. */
  ghost predicate Sensible(hosts: seq<string>, q: Request) {
    hosts != [] && NoDup(hosts) && (q.maxNodes.Some? ==> q.maxNodes.value >= 1) && q.ranks >= 1
  }

  /** What every caller relies on, whichever path produced the answer. */
  ghost predicate WellResolved(e: Effective, hosts: seq<string>, q: Request) {
    && e.hosts != []
    && NoDup(e.hosts)
    && ElemsOf(e.hosts) <= ElemsOf(hosts)
    && (q.maxNodes.Some? ==> |e.hosts| <= q.maxNodes.value)
    && (e.isSolo <==> |e.hosts| == 1)
    && (q.solo ==> |e.hosts| == 1)
    && (e.placement.Some? ==> e.placement.value.hostsUsed == e.hosts)
  }

  /** The `max_nodes` cap on the paths that skip the multi-node block: least loaded where it can be told, else first. */
  method CutToCap(hosts: seq<string>, q: Request, s: Scheduler)
    returns (list: seq<string>, placement: Option<Assignment>)
    requires q.maxNodes.Some? && |hosts| > q.maxNodes.value
    ensures var n := q.maxNodes.value;
      if q.clusterKnown && !q.solo && s(hosts, n, false).Ok? then
        list == s(hosts, n, false).value.hostsUsed && placement == Some(s(hosts, n, false).value)
      else
        list == Take(hosts, n) && placement == None
  {
    if q.clusterKnown && !q.solo {
      var result := s(hosts, q.maxNodes.value, false);
      if result.Ok? {
        return result.value.hostsUsed, Some(result.value);
      }
    }
    return Take(hosts, q.maxNodes.value), None;
  }

  method ResolveEffectiveHosts(hosts: seq<string>, q: Request,
                               s: Scheduler) returns (r: Result<Effective, ResolveError>)
    requires Schedules(s)
    ensures r.Ok? && Sensible(hosts, q) ==> WellResolved(r.value, hosts, q)
    // The scheduler's answer is the host list, or an error; it is never truncated.
    ensures !q.solo && |hosts| > 1 && q.parallel ==>
      match s(hosts, q.ranks, true)
      case Err(NoCapacity) => r == Err(InsufficientCapacity(q.ranks))
      case Err(OtherSparkrunError) => r == Err(SchedulingError)
      case Ok(a) =>
        if q.maxNodes.Some? && |a.hostsUsed| > q.maxNodes.value then
          r == Err(TooManyNodes(|a.hostsUsed|, q.maxNodes.value))
        else
          r == Ok(Effective(a.hostsUsed, |a.hostsUsed| <= 1,
                            if |a.hostsUsed| < |hosts| then [UsingOf(|a.hostsUsed|, |hosts|)] else [], Some(a)))
    // A recipe whose parallelism cannot fit its own cap is refused even when solo.
    ensures !MultiNode(hosts, q) && CannotFit(hosts, q) ==> r == Err(TooManyNodes(q.ranks, q.maxNodes.value))
    // Within the cap and not solo, the list is returned as given, unscheduled.
    ensures !MultiNode(hosts, q) && (q.maxNodes.Some? ==> |hosts| <= q.maxNodes.value) && (!q.solo || |hosts| <= 1) ==>
      r == Ok(Effective(hosts, q.solo || |hosts| <= 1, [], None))
    // Over the cap and not solo, it is the scheduler's choice of that many hosts, or the first so many.
    ensures
      && !MultiNode(hosts, q) && q.maxNodes.Some? && |hosts| > q.maxNodes.value && !CannotFit(hosts, q)
      && !q.solo ==>
      var n := q.maxNodes.value;
      if q.clusterKnown && s(hosts, n, false).Ok? then
        var a := s(hosts, n, false).value;
        r == Ok(Effective(a.hostsUsed, |a.hostsUsed| <= 1, [Capped(n, |a.hostsUsed|, |hosts|)], Some(a)))
      else
        && r.Ok? && r.value.hosts <= hosts && (n >= 0 ==> |r.value.hosts| == n)
        && r.value == Effective(r.value.hosts, |r.value.hosts| <= 1, [Capped(n, |r.value.hosts|, |hosts|)], None)
    // A solo request over several hosts is one single-rank pick among the first that the cap leaves.
    ensures q.solo && !CannotFit(hosts, q) ==>
      var over := q.maxNodes.Some? && |hosts| > q.maxNodes.value;
      var left := if over then Take(hosts, q.maxNodes.value) else hosts;
      var notes := if over then [Capped(q.maxNodes.value, |left|, |hosts|)] else [];
      if |left| > 1 then
        match s(left, 1, false)
        case Err(NoCapacity) => r == Err(InsufficientCapacity(1))
        case Err(OtherSparkrunError) => r == Err(SchedulingError)
        case Ok(a) => r == Ok(Effective(a.hostsUsed, true, notes + [SoloOf(|left|)], None))
      else
        r == Ok(Effective(left, true, notes, None))
  {
    var list, placement: Option<Assignment>, notes: seq<HostNote> := hosts, None, [];
    if !q.solo && |list| > 1 && q.parallel {
      var result := s(list, q.ranks, true);
      if result.Err? {
        return Err(if result.error.NoCapacity? then InsufficientCapacity(q.ranks) else SchedulingError);
      }
      placement := Some(result.value);
      var scheduled := result.value.hostsUsed;
      if Exceeds(|scheduled|, q.maxNodes) {
        return Err(TooManyNodes(|scheduled|, q.maxNodes.value));
      }
      if |scheduled| < |list| {
        notes := [UsingOf(|scheduled|, |list|)];
      }
      list := scheduled;
    } else if Exceeds(|list|, q.maxNodes) {
      if q.parallel && Exceeds(q.ranks, q.maxNodes) {
        return Err(TooManyNodes(q.ranks, q.maxNodes.value));
      }
      list, placement := CutToCap(hosts, q, s);
      notes := [Capped(q.maxNodes.value, |list|, |hosts|)];
    }
    var isSolo := q.solo || |list| <= 1;
    if isSolo && |list| > 1 {
      var chosen := PickSingleHost(list, s);
      if chosen.Err? {
        return Err(chosen.error);
      }
      notes := notes + [SoloOf(|list|)];
      list, placement := [chosen.value], None;
    }
    return Ok(Effective(list, isSolo, notes, placement));
  }

  /** `_pick_single_host`: a one-rank request, layout dropped. */
  method PickSingleHost(hosts: seq<string>, s: Scheduler) returns (r: Result<string, ResolveError>)
    requires Schedules(s) && hosts != []
    ensures match s(hosts, 1, false)
      case Err(NoCapacity) => r == Err(InsufficientCapacity(1))
      case Err(OtherSparkrunError) => r == Err(SchedulingError)
      case Ok(a) => r.Ok? && a.hostsUsed == [r.value] && r.value in hosts
  {
    var result := s(hosts, 1, false);
    if result.Err? {
      return Err(if result.error.NoCapacity? then InsufficientCapacity(1) else SchedulingError);
    }
    var used := result.value.hostsUsed;
    // The source's fallback to the first candidate is for a scheduler that uses no host at all.
    assert |used| == 1 && used[0] in ElemsOf(used);
    return Ok(used[0]);
  }

  /** The occupancy packer is such a scheduler: its hosts are distinct, among the candidates, and no more than ranks. */
  lemma PackingSchedules(a: Assignment, ranks: nat, hosts: seq<string>, hw: string -> Hardware, status: Option<Status>)
    requires Placed(a, ranks, hosts, hw, status)
    ensures NoDup(a.hostsUsed) && ElemsOf(a.hostsUsed) <= ElemsOf(hosts)
    ensures ranks >= 1 ==> 1 <= |a.hostsUsed| <= ranks
  {
    HostsUsedBounds(a, ranks, hosts, hw, status);
  }
}
