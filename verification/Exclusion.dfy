/** Subtracting an intent's own workloads from a snapshot (`api/_hosts.py`, `_status_excluding_intent`). */
module Exclusion {
  import opened Prelude
  import opened Snapshot

  predicate MatchesAny(w: Workload, intents: set<string>) {
    exists i :: i in intents && MatchesIntent(w, i)
  }

  function Foreign(intents: set<string>): Workload -> bool {
    w => !MatchesAny(w, intents)
  }

  function Own(intents: set<string>): Workload -> bool {
    w => MatchesAny(w, intents)
  }

  function Kept(ws: seq<Workload>, intents: set<string>): seq<Workload> {
    Filter(Foreign(intents), ws)
  }

  function Removed(ws: seq<Workload>, intents: set<string>): seq<Workload> {
    Filter(Own(intents), ws)
  }

  /** A GPU that loses its last workload is reset; one that keeps any keeps its observed usage. */
  function ExcludeGpu(g: Gpu, intents: set<string>): Gpu {
    var kept := Kept(g.workloads, intents);
    if |kept| == |g.workloads| then g
    else if kept != [] then g.(workloads := kept)
    else g.(workloads := [], usedMemory := 0.0, usedUtil := 0.0)
  }

  function ExcludeGpus(gs: seq<Gpu>, intents: set<string>): seq<Gpu> {
    seq(|gs|, i requires 0 <= i < |gs| => ExcludeGpu(gs[i], intents))
  }

  function ExcludeHost(o: HostEntry, intents: set<string>): HostEntry {
    var removed := Removed(o.workloads, intents);
    if removed == [] then o else
      var freed := Load(removed);
      var used := if o.used > freed then o.used - freed else 0;
      HostEntry(o.host, Kept(o.workloads, intents), used, o.free + (o.used - used), ExcludeGpus(o.gpus, intents))
  }

  function Excluded(s: Status, intents: set<string>): Status {
    Status(seq(|s.hosts|, i requires 0 <= i < |s.hosts| => ExcludeHost(s.hosts[i], intents)))
  }

  /** The loop of `_status_excluding_intent`, host by host and GPU by GPU. */
  method StatusExcludingIntent(status: Status, intent: string) returns (r: Status)
    ensures r == Excluded(status, {intent})
  {
    var intents := {intent};
    var newHosts: seq<HostEntry> := [];
    var changed := false;
    for h := 0 to |status.hosts|
      invariant |newHosts| == h
      invariant forall i :: 0 <= i < h ==> newHosts[i] == ExcludeHost(status.hosts[i], intents)
      invariant !changed ==> newHosts == status.hosts[..h]
    {
      var occ := status.hosts[h];
      var removed := Removed(occ.workloads, intents);
      if removed == [] {
        newHosts := newHosts + [occ];
      } else {
        changed := true;
        var kept := Kept(occ.workloads, intents);
        var freed := Load(removed);
        var newUsed := if occ.used > freed then occ.used - freed else 0;
        var newFree := occ.free + (occ.used - newUsed);
        var newGpus: seq<Gpu> := [];
        for g := 0 to |occ.gpus|
          invariant |newGpus| == g
          invariant forall i :: 0 <= i < g ==> newGpus[i] == ExcludeGpu(occ.gpus[i], intents)
        {
          var gKept := Kept(occ.gpus[g].workloads, intents);
          if |gKept| == |occ.gpus[g].workloads| {
            newGpus := newGpus + [occ.gpus[g]];
          } else if gKept != [] {
            newGpus := newGpus + [occ.gpus[g].(workloads := gKept)];
          } else {
            newGpus := newGpus + [occ.gpus[g].(workloads := [], usedMemory := 0.0, usedUtil := 0.0)];
          }
        }
        newHosts := newHosts + [HostEntry(occ.host, kept, newUsed, newFree, newGpus)];
      }
    }
    if !changed {
      assert status.hosts[..|status.hosts|] == status.hosts;
      r := status;
    } else {
      r := Status(newHosts);
    }
  }

  // ---- what exclusion means ----

  lemma MatchesOne(w: Workload, intent: string)
    ensures MatchesAny(w, {intent}) <==> MatchesIntent(w, intent)
  {
    assert intent in {intent};
  }

  lemma {:induction false} LoadSplits(ws: seq<Workload>, intents: set<string>)
    ensures Load(Kept(ws, intents)) + Load(Removed(ws, intents)) == Load(ws)
  {
    if ws != [] {
      LoadSplits(ws[1..], intents);
      LoadAppend([ws[0]], Kept(ws[1..], intents));
      LoadAppend([ws[0]], Removed(ws[1..], intents));
      assert Load([ws[0]]) == Claim(ws[0]);
    }
  }

  lemma KeptIs(ws: seq<Workload>, intents: set<string>)
    ensures forall w :: w in Kept(ws, intents) <==> w in ws && !MatchesAny(w, intents)
    ensures forall w :: w in Removed(ws, intents) <==> w in ws && MatchesAny(w, intents)
    ensures multiset(Kept(ws, intents)) + multiset(Removed(ws, intents)) == multiset(ws)
    ensures Load(Kept(ws, intents)) + Load(Removed(ws, intents)) == Load(ws)
    ensures Removed(ws, intents) == [] <==> Kept(ws, intents) == ws
    ensures |Kept(ws, intents)| == |ws| <==> Kept(ws, intents) == ws
  {
    FilterIs(Foreign(intents), ws);
    FilterIs(Own(intents), ws);
    FilterSplits(Foreign(intents), Own(intents), ws);
    LoadSplits(ws, intents);
  }

  /**
   * Slots are conserved and free never drops; the used count falls by exactly what was removed when
   * the host's count was the sum of its claims.
   */
  lemma ExclusionConservesSlots(o: HostEntry, intents: set<string>)
    ensures var r := ExcludeHost(o, intents);
      && r.host == o.host
      && r.used + r.free == o.used + o.free
      && r.free >= o.free
      && multiset(r.workloads) + multiset(Removed(o.workloads, intents)) == multiset(o.workloads)
      && (forall w :: w in r.workloads <==> w in o.workloads && !MatchesAny(w, intents))
      && (o.used == Load(o.workloads) ==> r.used == Load(r.workloads))
      // GPU by GPU where anything is removed, and untouched otherwise.
      && |r.gpus| == |o.gpus|
      && (if exists w :: w in o.workloads && MatchesAny(w, intents)
          then forall k :: 0 <= k < |o.gpus| ==> r.gpus[k] == ExcludeGpu(o.gpus[k], intents) else r == o)
  {
    KeptIs(o.workloads, intents);
    FilterExtremes(Own(intents), o.workloads);
  }

  /** What a status provider reports as free: capacity less use, never negative. */
  function FreeOf(capacity: nat, used: nat): nat {
    if capacity > used then capacity - used else 0
  }

  /**
   * The rebalanced free count is the host's true free count exactly when the host was not
   * over-committed to begin with, or when nothing was subtracted.
   */
  lemma ExclusionFreeIsExact(o: HostEntry, intents: set<string>, capacity: nat)
    requires o.used == Load(o.workloads) && o.free == FreeOf(capacity, o.used)
    ensures var r := ExcludeHost(o, intents);
      r.free == FreeOf(capacity, r.used) <==> o.used <= capacity || Removed(o.workloads, intents) == []
  {
    KeptIs(o.workloads, intents);
  }

  // ---- algebra ----

  lemma KeptCompose(ws: seq<Workload>, a: set<string>, b: set<string>)
    ensures Kept(Kept(ws, a), b) == Kept(ws, a + b)
    ensures Load(Removed(ws, a)) + Load(Removed(Kept(ws, a), b)) == Load(Removed(ws, a + b))
    ensures Removed(ws, a + b) == [] <==> Removed(ws, a) == [] && Removed(Kept(ws, a), b) == []
  {
    FilterFilter(Foreign(a), Foreign(b), Foreign(a + b), ws);
    KeptIs(ws, a);
    KeptIs(Kept(ws, a), b);
    KeptIs(ws, a + b);
    FilterIs(Foreign(a), ws);
    FilterIs(Foreign(b), Kept(ws, a));
  }

  lemma ExcludeGpuCompose(g: Gpu, a: set<string>, b: set<string>)
    ensures ExcludeGpu(ExcludeGpu(g, a), b) == ExcludeGpu(g, a + b)
  {
    KeptCompose(g.workloads, a, b);
    FilterIs(Foreign(a), g.workloads);
    FilterIs(Foreign(b), Kept(g.workloads, a));
    FilterIs(Foreign(a + b), g.workloads);
  }

  /** Every workload shown on a GPU is also shown on its host. */
  predicate GpusListed(o: HostEntry) {
    forall g, w :: g in o.gpus && w in g.workloads ==> w in o.workloads
  }

  predicate AllGpusListed(s: Status) {
    forall o :: o in s.hosts ==> GpusListed(o)
  }

  lemma GpuUntouched(o: HostEntry, intents: set<string>)
    requires GpusListed(o) && Removed(o.workloads, intents) == []
    ensures ExcludeGpus(o.gpus, intents) == o.gpus
  {
    KeptIs(o.workloads, intents);
    forall i | 0 <= i < |o.gpus| ensures ExcludeGpu(o.gpus[i], intents) == o.gpus[i] {
      var g := o.gpus[i];
      assert g in o.gpus;
      forall w | w in g.workloads ensures Foreign(intents)(w) {
        assert w !in Removed(o.workloads, intents);
      }
      FilterExtremes(Foreign(intents), g.workloads);
    }
  }

  lemma ExcludeGpusCompose(gs: seq<Gpu>, a: set<string>, b: set<string>)
    ensures ExcludeGpus(ExcludeGpus(gs, a), b) == ExcludeGpus(gs, a + b)
  {
    forall i | 0 <= i < |gs| ensures ExcludeGpu(ExcludeGpu(gs[i], a), b) == ExcludeGpu(gs[i], a + b) {
      ExcludeGpuCompose(gs[i], a, b);
    }
  }

  lemma ExcludeHostCompose(o: HostEntry, a: set<string>, b: set<string>)
    requires GpusListed(o)
    ensures ExcludeHost(ExcludeHost(o, a), b) == ExcludeHost(o, a + b)
  {
    KeptCompose(o.workloads, a, b);
    KeptIs(o.workloads, a);
    KeptIs(Kept(o.workloads, a), b);
    ExcludeGpusCompose(o.gpus, a, b);
    if Removed(o.workloads, a) == [] {
      GpuUntouched(o, a);
    } else if Removed(Kept(o.workloads, a), b) == [] {
      var m := ExcludeHost(o, a);
      ExcludedGpusListed(o, a);
      GpuUntouched(m, b);
    }
  }

  lemma ExcludedGpusListed(o: HostEntry, intents: set<string>)
    requires GpusListed(o)
    ensures GpusListed(ExcludeHost(o, intents))
  {
    var m := ExcludeHost(o, intents);
    KeptIs(o.workloads, intents);
    if Removed(o.workloads, intents) != [] {
      forall g, w | g in m.gpus && w in g.workloads ensures w in m.workloads {
        var i :| 0 <= i < |m.gpus| && m.gpus[i] == g;
        KeptIs(o.gpus[i].workloads, intents);
        assert o.gpus[i] in o.gpus;
        assert w in Kept(o.gpus[i].workloads, intents);
      }
    }
  }

  /** Excluding one set of intents and then another is excluding both at once. */
  lemma ExclusionComposes(s: Status, a: set<string>, b: set<string>)
    requires AllGpusListed(s)
    ensures Excluded(Excluded(s, a), b) == Excluded(s, a + b)
  {
    var l, r := Excluded(Excluded(s, a), b), Excluded(s, a + b);
    forall i | 0 <= i < |s.hosts| ensures l.hosts[i] == r.hosts[i] {
      assert s.hosts[i] in s.hosts;
      ExcludeHostCompose(s.hosts[i], a, b);
    }
    assert l.hosts == r.hosts;
  }

  /** Hence exclusion is idempotent and order-independent, GPU resets included. */
  lemma ExclusionIdempotentAndCommutative(s: Status, a: set<string>, b: set<string>)
    requires AllGpusListed(s)
    ensures Excluded(Excluded(s, a), a) == Excluded(s, a)
    ensures Excluded(Excluded(s, a), b) == Excluded(Excluded(s, b), a)
  {
    ExclusionComposes(s, a, a);
    ExclusionComposes(s, a, b);
    ExclusionComposes(s, b, a);
    assert a + a == a && a + b == b + a;
  }

  /**
   * The listing condition is needed: a workload shown on a GPU but not on its host survives exclusion
   * on its own, yet is dropped when another intent triggers the host's rewrite.
   */
  lemma UnlistedGpuBreaksComposition()
    ensures exists s: Status, a: set<string>, b: set<string> ::
      Excluded(Excluded(s, a), b) != Excluded(s, a + b)
  {
    var wa, wb := Workload("x", Some("a"), 1), Workload("y", Some("b"), 1);
    var o := HostEntry("h", [wb], 1, 0, [Gpu(0, 1.0, 1.0, [wa])]);
    var s := Status([o]);
    var a, b := {"a"}, {"b"};
    MatchesOne(wa, "a"); MatchesOne(wb, "a"); MatchesOne(wa, "b"); MatchesOne(wb, "b");
    assert Own(a + b)(wa) && Own(a + b)(wb) by { assert "a" in a + b && "b" in a + b; }
    assert Own(a)(wa) && !Own(a)(wb) && !Own(b)(wa) && Own(b)(wb);
    Single(wa, a); Single(wa, b); Single(wa, a + b);
    Single(wb, a); Single(wb, b); Single(wb, a + b);
    assert ExcludeHost(o, a) == o;
    assert Excluded(Excluded(s, a), b).hosts[0].gpus[0].workloads == [wa];
    assert Excluded(s, a + b).hosts[0].gpus[0].workloads == [];
  }

  lemma Single(w: Workload, intents: set<string>)
    ensures Kept([w], intents) == if MatchesAny(w, intents) then [] else [w]
    ensures Removed([w], intents) == if MatchesAny(w, intents) then [w] else []
  {
    FilterExtremes(Foreign(intents), [w]);
    FilterExtremes(Own(intents), [w]);
    assert w in [w];
  }
}
