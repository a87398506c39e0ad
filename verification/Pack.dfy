/** Whole-GPU placement against live occupancy (`schedulers/_occupancy_base.py`, `_pack_with_occupancy`). */
module Pack {
  import opened Prelude
  import opened Snapshot
  import opened Exclusion

  datatype Hardware = Hardware(gpus: nat, vendors: set<string>)

  datatype RankSlot = RankSlot(host: string, gpu: int)

  datatype Assignment = Assignment(byRank: seq<RankSlot>, hostsUsed: seq<string>)

  datatype PackError = LayoutConflict | Infeasible

  /** `ClusterStatus.for_host`: the first entry naming the host. */
  function ForHost(hosts: seq<HostEntry>, h: string): (r: Option<HostEntry>)
    ensures r.Some? ==> r.value in hosts && r.value.host == h
    ensures r.None? ==> forall o :: o in hosts ==> o.host != h
  {
    if hosts == [] then None
    else if hosts[0].host == h then Some(hosts[0])
    else ForHost(hosts[1..], h)
  }

  predicate GpuBusy(g: Gpu) {
    g.workloads != [] || g.usedUtil > 0.0 || g.usedMemory > 0.0
  }

  /** The GPU indices `_build_budgets` leaves eligible for a whole-GPU rank. */
  function Eligible(gpus: nat, occ: Option<HostEntry>): set<int> {
    match occ
    case None => Range(0, gpus)
    case Some(o) =>
      if o.gpus != [] then Range(0, gpus) - (set g | g in o.gpus && GpuBusy(g) :: g.index)
      else Range(o.used, gpus)
  }

  /**
   * Exclusion makes a busy GPU eligible exactly when it had workloads and all of them were the intent's own; a GPU that
   * keeps a workload keeps its observed usage, and one that lost none is left alone.
   */
  lemma ExclusionFreesGpuIff(g: Gpu, intents: set<string>)
    ensures var r := ExcludeGpu(g, intents);
      && r.index == g.index && r.workloads == Kept(g.workloads, intents)
      && (GpuBusy(r) <==> GpuBusy(g) && !(g.workloads != [] && forall w :: w in g.workloads ==> MatchesAny(w, intents)))
      && (r.workloads != [] || g.workloads == [] ==> r.usedMemory == g.usedMemory && r.usedUtil == g.usedUtil)
  {
    KeptIs(g.workloads, intents);
    FilterExtremes(Foreign(intents), g.workloads);
  }

  /** `_is_ambiguous_host_level` for whole-GPU requests. */
  predicate Ambiguous(gpus: nat, occ: Option<HostEntry>) {
    occ.Some? && occ.value.gpus == [] && gpus > 1 && 0 < occ.value.used < gpus
  }

  /** How many ranks an assignment puts on a host. */
  function RanksOn(slots: seq<RankSlot>, h: string): nat {
    if slots == [] then 0
    else (if slots[|slots| - 1].host == h then 1 else 0) + RanksOn(slots[..|slots| - 1], h)
  }

  function GpusOn(slots: seq<RankSlot>, h: string): set<int> {
    set s | s in slots && s.host == h :: s.gpu
  }

  /** What every placement result guarantees its callers. */
  ghost predicate Placed(a: Assignment, ranks: nat, hosts: seq<string>, hw: string -> Hardware,
                         status: Option<Status>) {
    && |a.byRank| == ranks
    && NoDup(a.byRank)
    && NoDup(a.hostsUsed)
    && ElemsOf(a.hostsUsed) == NamedHosts(a.byRank)
    && ElemsOf(a.hostsUsed) <= ElemsOf(hosts)
    && (forall s :: s in a.byRank ==> s.gpu in Eligible(hw(s.host).gpus, OccOf(status, s.host)))
    && (forall s :: s in a.byRank ==> !Ambiguous(hw(s.host).gpus, OccOf(status, s.host)))
  }

  function NamedHosts(slots: seq<RankSlot>): set<string> {
    set s | s in slots :: s.host
  }

  function OccOf(status: Option<Status>, h: string): Option<HostEntry> {
    if status.None? then None else ForHost(status.value.hosts, h)
  }

  /** Every rank the snapshot leaves room for on these hosts. */
  function Room(hosts: seq<string>, hw: string -> Hardware, status: Option<Status>): nat {
    if hosts == [] then 0
    else
      var h := hosts[|hosts| - 1];
      Room(hosts[..|hosts| - 1], hw, status) + |Eligible(hw(h).gpus, OccOf(status, h))|
  }

  /** How many ranks a host can be given: none when it is passed over. */
  function Offer(h: string, hw: string -> Hardware, status: Option<Status>): nat {
    if Ambiguous(hw(h).gpus, OccOf(status, h)) then 0 else |Eligible(hw(h).gpus, OccOf(status, h))|
  }

  /** The position of a host in the preference order. */
  function Place(hosts: seq<string>, h: string): (k: nat)
    ensures k <= |hosts| && (k < |hosts| ==> hosts[k] == h)
    ensures k == |hosts| <==> h !in hosts
  {
    if hosts == [] || hosts[0] == h then 0 else 1 + Place(hosts[1..], h)
  }

  lemma PlaceIs(hosts: seq<string>, i: nat)
    requires i < |hosts| && NoDup(hosts)
    ensures Place(hosts, hosts[i]) == i
  {
  }

  /** Ranks are dealt out host by host in the preference order, and the hosts used are listed in that order. */
  ghost predicate InHostOrder(a: Assignment, hosts: seq<string>) {
    && (forall x, y :: 0 <= x <= y < |a.byRank| ==> Place(hosts, a.byRank[x].host) <= Place(hosts, a.byRank[y].host))
    && (forall x, y :: 0 <= x < y < |a.hostsUsed| ==> Place(hosts, a.hostsUsed[x]) < Place(hosts, a.hostsUsed[y]))
  }

  /** The first `n` hosts are given all they offer. */
  ghost predicate FullBefore(slots: seq<RankSlot>, hosts: seq<string>, n: nat, hw: string -> Hardware,
                             status: Option<Status>)
    requires n <= |hosts|
  {
    forall k :: 0 <= k < n ==> RanksOn(slots, hosts[k]) == Offer(hosts[k], hw, status)
  }

  /** A host is given ranks only when every host before it is full. */
  ghost predicate FirstFit(slots: seq<RankSlot>, hosts: seq<string>, hw: string -> Hardware, status: Option<Status>) {
    forall j :: 0 <= j < |hosts| && RanksOn(slots, hosts[j]) > 0 ==> FullBefore(slots, hosts, j, hw, status)
  }

  /** Why a layout is asked for: mixed hardware on a host or between hosts, or a host whose use is ambiguous. */
  ghost predicate NeedsLayout(hosts: seq<string>, hw: string -> Hardware, status: Option<Status>) {
    || (exists h :: h in hosts && hw(h).gpus > 0 && |hw(h).vendors| != 1)
    || (exists g, h :: g in hosts && h in hosts && hw(g).gpus > 0 && hw(h).gpus > 0 && hw(g).vendors != hw(h).vendors)
    || (exists h :: h in hosts && OccOf(status, h).Some? && OccOf(status, h).value.gpus == []
          && 0 < OccOf(status, h).value.used < hw(h).gpus)
  }

  /** The GPUs that no rank may get: out of range, shown in use, or counted as used from the lowest index on. */
  lemma EligibleIs(gpus: nat, occ: Option<HostEntry>, g: int)
    ensures g in Eligible(gpus, occ) <==>
      && 0 <= g < gpus
      && (occ.Some? && occ.value.gpus == [] ==> occ.value.used <= g)
      && (occ.Some? ==> forall x :: x in occ.value.gpus && x.index == g ==>
            x.workloads == [] && x.usedUtil <= 0.0 && x.usedMemory <= 0.0)
  {
  }

  /** A hook that only declines when nothing is eligible: no memory claim stands in the way. */
  ghost predicate NeverDeclines(pick: (string, set<int>) -> Option<int>) {
    forall h, s :: s != {} ==> pick(h, s).Some?
  }

  ghost predicate PicksEligible(pick: (string, set<int>) -> Option<int>) {
    forall h, s :: pick(h, s).Some? ==> pick(h, s).value in s
  }

  /** What filling one host yields: fresh slots on eligible GPUs of that host. */
  ghost predicate Filled(slots: seq<RankSlot>, host: string, eligible: set<int>) {
    && NoDup(slots)
    && |slots| <= |eligible|
    && forall s :: s in slots ==> s.host == host && s.gpu in eligible
  }

  /** The inner loop: fill one host until the ranks run out or the hook declines. */
  method FillHost(host: string, eligible: set<int>, remaining: nat, pick: (string, set<int>) -> Option<int>)
    returns (slots: seq<RankSlot>)
    requires PicksEligible(pick)
    ensures Filled(slots, host, eligible)
    ensures |slots| <= remaining
    ensures NeverDeclines(pick) ==> |slots| == remaining || |slots| == |eligible|
  {
    slots := [];
    var free := eligible;
    while |slots| < remaining
      invariant |slots| <= remaining && free <= eligible
      invariant |slots| + |free| == |eligible|
      invariant Filled(slots, host, eligible)
      invariant forall s :: s in slots ==> s.gpu !in free
      decreases remaining - |slots|
    {
      var g := pick(host, free);
      if g.None? {
        assert NeverDeclines(pick) ==> free == {};
        return;
      }
      slots := slots + [RankSlot(host, g.value)];
      free := free - {g.value};
    }
  }

  /** One visit of the outer loop: `Err` is the vendor conflict, `None` an ambiguous host passed over. */
  method VisitHost(host: string, room: nat, vendors: set<string>, hw: string -> Hardware, status: Option<Status>,
                   pick: (string, set<int>) -> Option<int>)
    returns (r: Result<Option<seq<RankSlot>>, PackError>)
    requires PicksEligible(pick)
    ensures r.Err? ==> r.error == LayoutConflict && hw(host).gpus > 0
    ensures r.Err? ==> |hw(host).vendors| != 1 || |vendors + hw(host).vendors| > 1
    ensures r.Ok? && r.value.Some? && r.value.value != [] ==> hw(host).gpus > 0 && |hw(host).vendors| == 1
    ensures r.Ok? && r.value.Some? ==> |r.value.value| <= room
    ensures r.Ok? && r.value.Some? ==> Filled(r.value.value, host, Eligible(hw(host).gpus, OccOf(status, host)))
    ensures r.Ok? && r.value.Some? && NeverDeclines(pick) ==>
      |r.value.value| == room || |r.value.value| == |Eligible(hw(host).gpus, OccOf(status, host))|
    ensures r.Ok? && r.value.Some? && r.value.value != [] ==> |vendors + hw(host).vendors| <= 1
    ensures r == Ok(None) ==> Ambiguous(hw(host).gpus, OccOf(status, host))
    ensures r.Ok? && r.value.Some? && r.value.value != [] ==> !Ambiguous(hw(host).gpus, OccOf(status, host))
  {
    var gpus := hw(host).gpus;
    if gpus == 0 {
      return Ok(Some([]));
    }
    if |hw(host).vendors| != 1 {
      return Err(LayoutConflict);
    }
    if Ambiguous(gpus, OccOf(status, host)) {
      return Ok(None);
    }
    // A host with nothing eligible yields no slots, as the source's early `continue` has it.
    var slots := FillHost(host, Eligible(gpus, OccOf(status, host)), room, pick);
    if slots != [] && |vendors + hw(host).vendors| > 1 {
      return Err(LayoutConflict);
    }
    return Ok(Some(slots));
  }

  /** The one vendor of the hosts used so far. */
  ghost predicate OneVendor(vendors: set<string>, hosts: seq<string>, hw: string -> Hardware) {
    vendors == {} || (|vendors| == 1 && exists h :: h in hosts && hw(h).gpus > 0 && hw(h).vendors == vendors)
  }

  lemma VendorConflict(vendors: set<string>, hosts: seq<string>, i: nat, hw: string -> Hardware,
                       status: Option<Status>)
    requires i < |hosts| && OneVendor(vendors, hosts[..i], hw) && hw(hosts[i]).gpus > 0
    requires |hw(hosts[i]).vendors| != 1 || |vendors + hw(hosts[i]).vendors| > 1
    ensures NeedsLayout(hosts, hw, status)
  {
    var v := hw(hosts[i]).vendors;
    if |v| == 1 && vendors != {} {
      var g :| g in hosts[..i] && hw(g).gpus > 0 && hw(g).vendors == vendors;
      assert vendors == v ==> vendors + v == v;
      assert g in hosts && hosts[i] in hosts;
    } else {
      assert {} + v == v;
      assert hosts[i] in hosts;
    }
  }

  lemma VendorKept(vendors: set<string>, hosts: seq<string>, i: nat, hw: string -> Hardware)
    requires i < |hosts| && OneVendor(vendors, hosts[..i], hw) && hw(hosts[i]).gpus > 0
    requires |hw(hosts[i]).vendors| == 1 && |vendors + hw(hosts[i]).vendors| <= 1
    ensures OneVendor(vendors + hw(hosts[i]).vendors, hosts[..i + 1], hw)
  {
    var v := hw(hosts[i]).vendors;
    SubsetSize(v, vendors + v);
    assert vendors + v == v;
    assert hosts[i] in hosts[..i + 1];
  }

  lemma VendorWidens(vendors: set<string>, hosts: seq<string>, i: nat, hw: string -> Hardware)
    requires i < |hosts| && OneVendor(vendors, hosts[..i], hw)
    ensures OneVendor(vendors, hosts[..i + 1], hw)
  {
    assert hosts[..i + 1] == hosts[..i] + [hosts[i]];
  }

  /** How far the loop has come: everything so far is in order, and unless it is done every host so far is full. */
  ghost predicate Packing(a: Assignment, hosts: seq<string>, i: nat, hw: string -> Hardware, status: Option<Status>)
    requires i <= |hosts|
  {
    && InHostOrder(a, hosts)
    && (forall h :: h in a.hostsUsed ==> Place(hosts, h) < i)
    && (forall s :: s in a.byRank ==> Place(hosts, s.host) < i)
  }

  lemma {:induction false} RanksOnAppend(a: seq<RankSlot>, b: seq<RankSlot>, h: string)
    ensures RanksOn(a + b, h) == RanksOn(a, h) + RanksOn(b, h)
  {
    if b == [] {
      assert a + b == a;
    } else {
      assert (a + b)[..|a + b| - 1] == a + b[..|b| - 1];
      RanksOnAppend(a, b[..|b| - 1], h);
    }
  }

  lemma {:induction false} RanksOfOneHost(slots: seq<RankSlot>, host: string, h: string)
    requires forall s :: s in slots ==> s.host == host
    ensures RanksOn(slots, h) == if h == host then |slots| else 0
  {
    if slots != [] {
      RanksOfOneHost(slots[..|slots| - 1], host, h);
    }
  }

  lemma PackingOn(before: seq<RankSlot>, used: seq<string>, slots: seq<RankSlot>, hosts: seq<string>, i: nat,
                  hw: string -> Hardware, status: Option<Status>)
    requires i < |hosts| && NoDup(hosts) && Packing(Assignment(before, used), hosts, i, hw, status)
    requires forall s :: s in slots ==> s.host == hosts[i]
    ensures Packing(Assignment(before + slots, used + [hosts[i]]), hosts, i + 1, hw, status)
  {
    PlaceIs(hosts, i);
    forall x | 0 <= x < |before| ensures Place(hosts, before[x].host) < i {
      assert before[x] in before;
    }
    forall x | 0 <= x < |used| ensures Place(hosts, used[x]) < i {
      assert used[x] in used;
    }
    forall x | 0 <= x < |slots| ensures slots[x].host == hosts[i] {
      assert slots[x] in slots;
    }
  }

  /** One more host visited: it is full, or the ranks have run out. */
  lemma StillFirstFit(before: seq<RankSlot>, slots: seq<RankSlot>, hosts: seq<string>, i: nat, full: bool,
                      hw: string -> Hardware, status: Option<Status>)
    requires i < |hosts| && NoDup(hosts) && FullBefore(before, hosts, i, hw, status)
    requires forall j :: i <= j < |hosts| ==> RanksOn(before, hosts[j]) == 0
    requires forall s :: s in slots ==> s.host == hosts[i]
    requires full ==> |slots| == Offer(hosts[i], hw, status)
    ensures FirstFit(before + slots, hosts, hw, status)
    ensures full ==> FullBefore(before + slots, hosts, i + 1, hw, status)
    ensures forall j :: i < j < |hosts| ==> RanksOn(before + slots, hosts[j]) == 0
  {
    hide Offer, RanksOn;
    forall j | 0 <= j < |hosts|
      ensures RanksOn(before + slots, hosts[j]) == RanksOn(before, hosts[j]) + if j == i then |slots| else 0
    {
      RanksOnAppend(before, slots, hosts[j]);
      RanksOfOneHost(slots, hosts[i], hosts[j]);
    }
  }

  predicate OnHost(s: RankSlot, h: string) {
    s.host == h
  }

  /** No placement has more ranks than there is room for. */
  lemma {:induction false} PlacedWithinRoom(slots: seq<RankSlot>, hosts: seq<string>, hw: string -> Hardware,
                                            status: Option<Status>)
    requires NoDup(slots)
    requires forall s :: s in slots ==> s.host in hosts && s.gpu in Eligible(hw(s.host).gpus, OccOf(status, s.host))
    ensures |slots| <= Room(hosts, hw, status)
    decreases |hosts|
  {
    hide Eligible, OccOf;
    if hosts == [] {
      assert forall s :: s !in slots;
    } else {
      var h, front := hosts[|hosts| - 1], hosts[..|hosts| - 1];
      var here, there := (s: RankSlot) => OnHost(s, h), (s: RankSlot) => !OnHost(s, h);
      var at, rest := Filter(here, slots), Filter(there, slots);
      FilterIs(here, slots);
      FilterIs(there, slots);
      FilterSplits(here, there, slots);
      FilterKeepsPairs(Unlike, here, slots);
      FilterKeepsPairs(Unlike, there, slots);
      assert hosts == front + [h];
      PlacedWithinRoom(rest, front, hw, status);
      RanksAreGpus(at, h);
      RanksOfOneHost(at, h, h);
      assert GpusOn(at, h) <= Eligible(hw(h).gpus, OccOf(status, h));
      SubsetSize(GpusOn(at, h), Eligible(hw(h).gpus, OccOf(status, h)));
    }
  }

  predicate Unlike(a: RankSlot, b: RankSlot) {
    a != b
  }

  lemma NoRoomNoPlacement(ranks: nat, hosts: seq<string>, hw: string -> Hardware, status: Option<Status>)
    requires Room(hosts, hw, status) < ranks
    ensures forall a :: !Placed(a, ranks, hosts, hw, status)
  {
    forall a | Placed(a, ranks, hosts, hw, status) ensures false {
      forall s | s in a.byRank ensures s.host in hosts {
        assert s.host in NamedHosts(a.byRank);
        assert s.host in ElemsOf(hosts);
      }
      PlacedWithinRoom(a.byRank, hosts, hw, status);
    }
  }

  /**
   * The packing loop. `pick` stands for the subclass hook `_select_gpu_index`, which scans the eligible
   * indices of one host and may decline them all on memory grounds; `hosts` is already in the subclass's order.
   */
  method PackWithOccupancy(ranks: int, hosts: seq<string>, hw: string -> Hardware, status: Option<Status>,
                           pick: (string, set<int>) -> Option<int>)
    returns (r: Result<Assignment, PackError>)
    requires NoDup(hosts) && PicksEligible(pick)
    ensures r.Ok? ==> Placed(r.value, if ranks <= 0 then 0 else ranks, hosts, hw, status)
    ensures ranks <= 0 ==> r == Ok(Assignment([], []))
    ensures r.Ok? ==> InHostOrder(r.value, hosts)
    ensures r.Ok? && NeverDeclines(pick) ==> FirstFit(r.value.byRank, hosts, hw, status)
    ensures r == Err(Infeasible) && NeverDeclines(pick) ==> Room(hosts, hw, status) < ranks
    // A refusal for capacity means that no placement exists, and one for layout that there is cause.
    ensures r == Err(Infeasible) && NeverDeclines(pick) ==> forall a :: !Placed(a, ranks, hosts, hw, status)
    ensures r == Err(LayoutConflict) ==> NeedsLayout(hosts, hw, status)
  {
    hide Placed, Room, Filled, Ambiguous, Eligible, OccOf, InHostOrder, FirstFit, FullBefore, Packing, Offer, OneVendor,
      NeedsLayout, RanksOn;
    EmptyPlaced(hosts, hw, status);
    EmptyPlaced([], hw, status);
    EmptyPacking(hosts, hw, status);
    if ranks <= 0 {
      return Ok(Assignment([], []));
    }
    var byRank: seq<RankSlot>, hostsUsed: seq<string> := [], [];
    var vendors: set<string>, ambiguous := {}, false;
    var i := 0;
    assert hosts[..0] == [];
    while i < |hosts| && |byRank| < ranks
      invariant 0 <= i <= |hosts| && |byRank| <= ranks
      invariant Placed(Assignment(byRank, hostsUsed), |byRank|, hosts[..i], hw, status)
      invariant Packing(Assignment(byRank, hostsUsed), hosts, i, hw, status)
      invariant OneVendor(vendors, hosts[..i], hw)
      invariant ambiguous ==> NeedsLayout(hosts, hw, status)
      invariant NeverDeclines(pick) ==> FirstFit(byRank, hosts, hw, status)
      invariant NeverDeclines(pick) && |byRank| < ranks ==> FullBefore(byRank, hosts, i, hw, status)
      invariant forall j :: i <= j < |hosts| ==> RanksOn(byRank, hosts[j]) == 0
      invariant NeverDeclines(pick) && !ambiguous ==> |byRank| == ranks || |byRank| == Room(hosts[..i], hw, status)
    {
      RoomNext(hosts, i, hw, status);
      Widen(Assignment(byRank, hostsUsed), hosts, i, hw, status);
      VendorWidens(vendors, hosts, i, hw);
      var visit := VisitHost(hosts[i], ranks - |byRank|, vendors, hw, status, pick);
      if visit.Err? {
        VendorConflict(vendors, hosts, i, hw, status);
        return Err(visit.error);
      }
      ghost var slots := if visit.value.Some? then visit.value.value else [];
      SlotsOfHost(slots, visit.value, hosts[i], hw, status);
      HostVisited(byRank, slots, hosts, i, ranks, hw, status, NeverDeclines(pick), visit.value.None?);
      PackingPast(Assignment(byRank, hostsUsed), hosts, i, hw, status);
      assert byRank + [] == byRank;
      if visit.value.None? {
        ambiguous := true;
        AmbiguousNeedsLayout(hosts, i, hw, status);
      } else if visit.value.value != [] {
        StillPlaced(byRank, hostsUsed, visit.value.value, hosts[i], hosts[..i + 1], hw, status);
        PackingOn(byRank, hostsUsed, visit.value.value, hosts, i, hw, status);
        VendorKept(vendors, hosts, i, hw);
        vendors := vendors + hw(hosts[i]).vendors;
        byRank, hostsUsed := byRank + visit.value.value, hostsUsed + [hosts[i]];
      }
      i := i + 1;
    }
    WidenAll(Assignment(byRank, hostsUsed), hosts, i, hw, status);
    PackingEnds(Assignment(byRank, hostsUsed), hosts, i, hw, status);
    if |byRank| < ranks {
      if !ambiguous && NeverDeclines(pick) {
        NoRoomNoPlacement(ranks, hosts, hw, status);
      }
      return Err(if ambiguous then LayoutConflict else Infeasible);
    }
    return Ok(Assignment(byRank, hostsUsed));
  }

  lemma EmptyPacking(hosts: seq<string>, hw: string -> Hardware, status: Option<Status>)
    ensures Packing(Assignment([], []), hosts, 0, hw, status) && InHostOrder(Assignment([], []), hosts)
    ensures FirstFit([], hosts, hw, status) && FullBefore([], hosts, 0, hw, status) && OneVendor({}, hosts, hw)
    ensures OneVendor({}, [], hw) && forall h :: RanksOn([], h) == 0
  {
  }

  lemma PackingPast(a: Assignment, hosts: seq<string>, i: nat, hw: string -> Hardware, status: Option<Status>)
    requires i < |hosts| && Packing(a, hosts, i, hw, status)
    ensures Packing(a, hosts, i + 1, hw, status)
  {
  }

  lemma PackingEnds(a: Assignment, hosts: seq<string>, i: nat, hw: string -> Hardware, status: Option<Status>)
    requires i <= |hosts| && Packing(a, hosts, i, hw, status)
    ensures InHostOrder(a, hosts)
  {
  }

  lemma AmbiguousNeedsLayout(hosts: seq<string>, i: nat, hw: string -> Hardware, status: Option<Status>)
    requires i < |hosts| && Ambiguous(hw(hosts[i]).gpus, OccOf(status, hosts[i]))
    ensures NeedsLayout(hosts, hw, status)
  {
    assert hosts[i] in hosts;
  }

  lemma SlotsOfHost(slots: seq<RankSlot>, v: Option<seq<RankSlot>>, host: string, hw: string -> Hardware,
                    status: Option<Status>)
    requires slots == if v.Some? then v.value else []
    requires v.Some? ==> Filled(v.value, host, Eligible(hw(host).gpus, OccOf(status, host)))
    ensures forall s :: s in slots ==> s.host == host
  {
  }

  /** What a visit does for the order of filling. */
  lemma HostVisited(before: seq<RankSlot>, slots: seq<RankSlot>, hosts: seq<string>, i: nat, ranks: nat,
                    hw: string -> Hardware, status: Option<Status>, never: bool, passed: bool)
    requires i < |hosts| && NoDup(hosts) && |before| + |slots| <= ranks && |before| < ranks
    requires never ==> FullBefore(before, hosts, i, hw, status)
    requires forall j :: i <= j < |hosts| ==> RanksOn(before, hosts[j]) == 0
    requires forall s :: s in slots ==> s.host == hosts[i]
    requires passed ==> slots == [] && Ambiguous(hw(hosts[i]).gpus, OccOf(status, hosts[i]))
    requires slots != [] ==> !Ambiguous(hw(hosts[i]).gpus, OccOf(status, hosts[i]))
    requires never && !passed ==>
      |slots| == ranks - |before| || |slots| == |Eligible(hw(hosts[i]).gpus, OccOf(status, hosts[i]))|
    ensures never ==> FirstFit(before + slots, hosts, hw, status)
    ensures never && |before + slots| < ranks ==> FullBefore(before + slots, hosts, i + 1, hw, status)
    ensures forall j :: i < j < |hosts| ==> RanksOn(before + slots, hosts[j]) == 0
  {
    hide Eligible, Ambiguous, OccOf, FullBefore, FirstFit;
    if never {
      StillFirstFit(before, slots, hosts, i, |before + slots| < ranks, hw, status);
    } else {
      forall j | i < j < |hosts| ensures RanksOn(before + slots, hosts[j]) == 0 {
        RanksOnAppend(before, slots, hosts[j]);
        RanksOfOneHost(slots, hosts[i], hosts[j]);
      }
    }
  }

  lemma EmptyPlaced(hosts: seq<string>, hw: string -> Hardware, status: Option<Status>)
    ensures Placed(Assignment([], []), 0, hosts, hw, status)
    ensures Room([], hw, status) == 0
  {
  }

  lemma Widen(a: Assignment, hosts: seq<string>, i: nat, hw: string -> Hardware, status: Option<Status>)
    requires i < |hosts| && NoDup(hosts) && Placed(a, |a.byRank|, hosts[..i], hw, status)
    ensures Placed(a, |a.byRank|, hosts[..i + 1], hw, status)
    ensures hosts[i] in hosts[..i + 1] && hosts[i] !in a.hostsUsed
  {
    assert hosts[..i + 1] == hosts[..i] + [hosts[i]];
    assert hosts[i] !in ElemsOf(hosts[..i]);
  }

  lemma WidenAll(a: Assignment, hosts: seq<string>, i: nat, hw: string -> Hardware, status: Option<Status>)
    requires i <= |hosts| && Placed(a, |a.byRank|, hosts[..i], hw, status)
    ensures Placed(a, |a.byRank|, hosts, hw, status)
    ensures hosts[..|hosts|] == hosts
  {
    assert forall h :: h in hosts[..i] ==> h in hosts;
  }

  lemma RoomNext(hosts: seq<string>, i: nat, hw: string -> Hardware, status: Option<Status>)
    requires i < |hosts|
    ensures Room(hosts[..i + 1], hw, status)
         == Room(hosts[..i], hw, status) + |Eligible(hw(hosts[i]).gpus, OccOf(status, hosts[i]))|
  {
    assert hosts[..i + 1][..i] == hosts[..i];
  }

  /** Appending one host's ranks to a placement of other hosts is again a placement. */
  lemma StillPlaced(before: seq<RankSlot>, used: seq<string>, slots: seq<RankSlot>, host: string,
                    hosts: seq<string>, hw: string -> Hardware, status: Option<Status>)
    requires Placed(Assignment(before, used), |before|, hosts, hw, status)
    requires host in hosts && host !in used
    requires slots != [] && Filled(slots, host, Eligible(hw(host).gpus, OccOf(status, host)))
    requires !Ambiguous(hw(host).gpus, OccOf(status, host))
    ensures Placed(Assignment(before + slots, used + [host]), |before| + |slots|, hosts, hw, status)
  {
    var all, byRank := used + [host], before + slots;
    assert NoDup(byRank) by {
      forall i, j | 0 <= i < j < |byRank| ensures byRank[i] != byRank[j] {
        if i < |before| <= j {
          assert byRank[i] == before[i] && before[i].host in NamedHosts(before);
          assert before[i].host in ElemsOf(used);
          assert byRank[j] == slots[j - |before|] && slots[j - |before|].host == host;
        }
      }
    }
    assert NamedHosts(byRank) == NamedHosts(before) + NamedHosts(slots);
    assert slots[0] in slots;
    assert NamedHosts(slots) == {host};
  }

  // ---- the capacity contract ----

  lemma {:induction false} RanksAreGpus(slots: seq<RankSlot>, h: string)
    requires NoDup(slots)
    ensures |GpusOn(slots, h)| == RanksOn(slots, h)
  {
    if slots == [] {
      assert GpusOn(slots, h) == {};
    } else {
      var front, last := slots[..|slots| - 1], slots[|slots| - 1];
      RanksAreGpus(front, h);
      assert slots == front + [last];
      if last.host == h {
        assert GpusOn(slots, h) == GpusOn(front, h) + {last.gpu};
        assert last !in front;
      } else {
        assert GpusOn(slots, h) == GpusOn(front, h);
      }
    }
  }

  /**
   * On every host the snapshot covers at slot level, a placement asks for no more ranks than the
   * host's hardware has left after the slots the snapshot counts as used.
   */
  lemma PlacementFits(a: Assignment, ranks: nat, hosts: seq<string>, hw: string -> Hardware, status: Status, h: string)
    requires Placed(a, ranks, hosts, hw, Some(status))
    requires ForHost(status.hosts, h).Some? && ForHost(status.hosts, h).value.gpus == []
    ensures RanksOn(a.byRank, h) <= FreeOf(hw(h).gpus, ForHost(status.hosts, h).value.used)
  {
    var used, gpus := ForHost(status.hosts, h).value.used, hw(h).gpus;
    RanksAreGpus(a.byRank, h);
    var e := Eligible(gpus, OccOf(Some(status), h));
    assert e == Range(used, gpus);
    assert GpusOn(a.byRank, h) <= e;
    SubsetSize(GpusOn(a.byRank, h), e);
  }

  /** Whatever the snapshot shows, leaves out or fails to be: no host gets more ranks than it has GPUs. */
  lemma PlacementWithinHardware(a: Assignment, ranks: nat, hosts: seq<string>, hw: string -> Hardware,
                                status: Option<Status>, h: string)
    requires Placed(a, ranks, hosts, hw, status)
    ensures RanksOn(a.byRank, h) <= hw(h).gpus
  {
    RanksAreGpus(a.byRank, h);
    forall g | g in GpusOn(a.byRank, h) ensures g in Range(0, hw(h).gpus) {
      var s :| s in a.byRank && s.host == h && s.gpu == g;
      assert s.gpu in Eligible(hw(h).gpus, OccOf(status, h));
    }
    SubsetSize(GpusOn(a.byRank, h), Range(0, hw(h).gpus));
  }

  /**
   * A slot-level host that is given ranks counts no used slot at all: a partially busy one is passed over, because its
   * count does not say which GPUs are busy.
   */
  lemma SlotLevelTargetIsIdle(a: Assignment, ranks: nat, hosts: seq<string>, hw: string -> Hardware, status: Status,
                              h: string)
    requires Placed(a, ranks, hosts, hw, Some(status))
    requires ForHost(status.hosts, h).Some? && ForHost(status.hosts, h).value.gpus == []
    requires RanksOn(a.byRank, h) > 0
    ensures ForHost(status.hosts, h).value.used == 0 && RanksOn(a.byRank, h) <= hw(h).gpus
  {
    PlacementFits(a, ranks, hosts, hw, status, h);
    NoRanksElsewhere(a.byRank, h);
    var s :| s in a.byRank && s.host == h;
    assert !Ambiguous(hw(h).gpus, OccOf(Some(status), h));
  }

  /** On a host with per-GPU detail, no rank is put on a GPU that shows a workload, utilisation or memory in use. */
  lemma PlacementAvoidsBusyGpus(a: Assignment, ranks: nat, hosts: seq<string>, hw: string -> Hardware, status: Status,
                                slot: RankSlot, g: Gpu)
    requires Placed(a, ranks, hosts, hw, Some(status)) && slot in a.byRank
    requires ForHost(status.hosts, slot.host).Some? && g in ForHost(status.hosts, slot.host).value.gpus
    ensures 0 <= slot.gpu < hw(slot.host).gpus
    ensures g.index == slot.gpu ==> g.workloads == [] && g.usedUtil <= 0.0 && g.usedMemory <= 0.0
  {
    assert slot.gpu in Eligible(hw(slot.host).gpus, OccOf(Some(status), slot.host));
  }

  lemma {:induction false} NoRanksElsewhere(slots: seq<RankSlot>, h: string)
    ensures RanksOn(slots, h) > 0 <==> exists s :: s in slots && s.host == h
  {
    if slots != [] {
      var front, last := slots[..|slots| - 1], slots[|slots| - 1];
      NoRanksElsewhere(front, h);
      assert slots == front + [last];
    }
  }

  /** A placement uses at least one host and never more hosts than ranks. */
  lemma HostsUsedBounds(a: Assignment, ranks: nat, hosts: seq<string>, hw: string -> Hardware, status: Option<Status>)
    requires Placed(a, ranks, hosts, hw, status)
    ensures |a.hostsUsed| <= ranks
    ensures ranks > 0 ==> a.hostsUsed != []
  {
    NoDupCardinality(a.hostsUsed);
    NamedBound(a.byRank);
    assert ranks > 0 ==> a.byRank[0].host in NamedHosts(a.byRank);
  }

  lemma {:induction false} NamedBound(slots: seq<RankSlot>)
    ensures |NamedHosts(slots)| <= |slots|
  {
    if slots == [] {
      assert NamedHosts(slots) == {};
    } else {
      var front, last := slots[..|slots| - 1], slots[|slots| - 1];
      NamedBound(front);
      assert slots == front + [last];
      assert NamedHosts(slots) == NamedHosts(front) + {last.host};
    }
  }
}
