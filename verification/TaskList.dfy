/** The llama-benchy task list, its coverage keys and artifact names (`benchmarking/llama_benchy.py`). */
module TaskList {
  import opened Prelude
  import opened Text

  /** Argument values as they come from YAML. */
  datatype Val = IntV(n: int) | BoolV(b: bool) | FloatV(r: real) | StrV(s: string) | NullV | ListV(items: seq<Val>)

  type Args = map<string, Val>

  datatype BenchTask = BenchTask(index: nat, title: string, runArgs: Args, entry: Args)

  datatype BuildError = BadDepth(index: nat) | BadConcurrency(index: nat) | Unprintable

  /** `isinstance(v, int)`: Python's booleans are integers. */
  predicate IsInt(v: Val) {
    v.IntV? || v.BoolV?
  }

  predicate IsNumber(v: Val) {
    IsInt(v) || v.FloatV?
  }

  function NumberOf(v: Val): real
    requires IsNumber(v)
  {
    match v
    case IntV(n) => n as real
    case BoolV(b) => if b then 1.0 else 0.0
    case FloatV(r) => r
  }

  /** `int(v)`, which is also what `"%d"` prints: truncation toward zero. */
  function Truncated(v: Val): (t: int)
    requires IsNumber(v)
    ensures NumberOf(v) >= 0.0 ==> t as real <= NumberOf(v) < t as real + 1.0
    ensures NumberOf(v) < 0.0 ==> t as real - 1.0 < NumberOf(v) <= t as real
  {
    var r := NumberOf(v);
    if r >= 0.0 then r.Floor else -((-r).Floor)
  }

  function Label(d: Val, c: Val): string
    requires IsNumber(d) && IsNumber(c)
  {
    "d=" + SignedDecimal(Truncated(d)) + " c=" + SignedDecimal(Truncated(c))
  }

  function Get(a: Args, k: string): Option<Val> {
    if k in a then Some(a[k]) else None
  }

  function Pinned(d: Val, c: Val): Args {
    map["depth" := ListV([d]), "concurrency" := ListV([c])]
  }

  /** A base argument that may be one value or a list of them. */
  function AxisOf(base: Args, k: string, default: int): (axis: seq<Val>)
    ensures k !in base ==> axis == [IntV(default)]
    ensures k in base ==> if base[k].ListV? then axis == base[k].items else axis == [base[k]]
  {
    match Get(base, k)
    case None => [IntV(default)]
    case Some(ListV(items)) => items
    case Some(v) => [v]
  }

  predicate ValidEntry(e: Args) {
    "depth" in e && IsInt(e["depth"]) && "concurrency" in e && IsInt(e["concurrency"])
  }

  predicate HasInt(e: Args, k: string) {
    k in e && (e[k].IntV? || e[k].BoolV?)
  }

  function ScheduledTask(base: Args, e: Args, i: nat): BenchTask
    requires ValidEntry(e)
  {
    var d, c := e["depth"], e["concurrency"];
    BenchTask(i, Label(d, c), base + (e - {"depth", "concurrency"}) + Pinned(d, c), e)
  }

  function ProductTask(base: Args, d: Val, c: Val, i: nat): BenchTask
    requires IsNumber(d) && IsNumber(c)
  {
    BenchTask(i, Label(d, c), base + Pinned(d, c), map["depth" := d, "concurrency" := c])
  }

  function EntryError(e: Args, i: nat): BuildError {
    if "depth" !in e || !IsInt(e["depth"]) then BadDepth(i) else BadConcurrency(i)
  }

  ghost predicate FromSchedule(r: Result<seq<BenchTask>, BuildError>, base: Args, schedule: seq<Args>) {
    match r
    case Ok(tasks) =>
      && |tasks| == |schedule|
      && forall i :: 0 <= i < |schedule| ==> ValidEntry(schedule[i]) && tasks[i] == ScheduledTask(base, schedule[i], i)
    case Err(e) =>
      exists i :: 0 <= i < |schedule| && !ValidEntry(schedule[i]) && e == EntryError(schedule[i], i)
        && forall j :: 0 <= j < i ==> ValidEntry(schedule[j])
  }

  ghost predicate FromProduct(r: Result<seq<BenchTask>, BuildError>, base: Args, ds: seq<Val>, cs: seq<Val>) {
    match r
    case Ok(tasks) =>
      && |tasks| == |ds| * |cs|
      && (forall d, c :: d in ds && c in cs ==> IsNumber(d) && IsNumber(c))
      && forall k :: 0 <= k < |tasks| ==> IsPair(tasks[k], base, ds, cs, k)
    case Err(e) =>
      e == Unprintable && exists d, c :: d in ds && c in cs && !(IsNumber(d) && IsNumber(c))
  }

  /** The depth-major order: the row and the column of position `k` in a product with `n` columns. */
  function Row(k: nat, n: nat): nat
    requires n > 0
  {
    k / n
  }

  function Column(k: nat, n: nat): (c: nat)
    requires n > 0
    ensures c < n
  {
    k % n
  }

  /** Position `k` of the depth-major product is depth `k div |cs|` with concurrency `k mod |cs|`. */
  ghost predicate IsPair(t: BenchTask, base: Args, ds: seq<Val>, cs: seq<Val>, k: nat) {
    && cs != [] && Row(k, |cs|) < |ds|
    && IsNumber(ds[Row(k, |cs|)]) && IsNumber(cs[Column(k, |cs|)])
    && t == ProductTask(base, ds[Row(k, |cs|)], cs[Column(k, |cs|)], k)
  }

  lemma MulStep(i: nat, n: nat)
    ensures (i + 1) * n == i * n + n
  {
  }

  lemma {:induction false} MulMonotone(a: nat, b: nat, n: nat)
    requires a <= b
    ensures a * n <= b * n
    decreases b - a
  {
    if a < b {
      MulStep(a, n);
      MulMonotone(a + 1, b, n);
    }
  }

  /** Quotient and remainder are unique. */
  lemma SameQuotient(i: nat, j: nat, q: nat, r: nat, n: nat)
    requires j < n && r < n && i * n + j == q * n + r
    ensures i == q && j == r
  {
    if i < q {
      MulStep(i, n);
      MulMonotone(i + 1, q, n);
    } else if q < i {
      MulStep(q, n);
      MulMonotone(q + 1, i, n);
    }
  }

  lemma DivMod(i: nat, j: nat, n: nat)
    requires j < n
    ensures i * n + j >= 0 && Row(i * n + j, n) == i && Column(i * n + j, n) == j
  {
    var x := i * n + j;
    SameQuotient(i, j, x / n, x % n, n);
  }

  lemma ProductIndex(i: nat, m: nat, j: nat, n: nat)
    requires i < m && j < n
    ensures 0 <= i * n + j < m * n
  {
    MulStep(i, n);
    MulMonotone(i + 1, m, n);
  }

  method BuildFromSchedule(base: Args, entries: seq<Args>) returns (r: Result<seq<BenchTask>, BuildError>)
    ensures FromSchedule(r, base, entries)
  {
    var tasks: seq<BenchTask> := [];
    for i := 0 to |entries|
      invariant |tasks| == i
      invariant forall k :: 0 <= k < i ==> ValidEntry(entries[k]) && tasks[k] == ScheduledTask(base, entries[k], k)
    {
      var e := entries[i];
      if "depth" !in e || !IsInt(e["depth"]) {
        return Err(BadDepth(i));
      }
      if "concurrency" !in e || !IsInt(e["concurrency"]) {
        return Err(BadConcurrency(i));
      }
      var d, c := e["depth"], e["concurrency"];
      var runArgs := base + (e - {"depth", "concurrency"});
      runArgs := runArgs["depth" := ListV([d])]["concurrency" := ListV([c])];
      assert runArgs == base + (e - {"depth", "concurrency"}) + Pinned(d, c);
      tasks := tasks + [BenchTask(i, Label(d, c), runArgs, e)];
    }
    return Ok(tasks);
  }

  ghost predicate IsRow(row: seq<BenchTask>, base: Args, d: Val, cs: seq<Val>, start: nat) {
    && |row| <= |cs|
    && forall j :: 0 <= j < |row| ==> IsNumber(d) && IsNumber(cs[j]) && row[j] == ProductTask(base, d, cs[j], start + j)
  }

  /** The tasks of one depth: the inner loop of the product. */
  method BuildRow(base: Args, d: Val, cs: seq<Val>, start: nat) returns (r: Result<seq<BenchTask>, BuildError>)
    ensures r.Ok? ==> |r.value| == |cs| && IsRow(r.value, base, d, cs, start)
    ensures r.Err? ==> r.error == Unprintable && exists j :: 0 <= j < |cs| && !(IsNumber(d) && IsNumber(cs[j]))
  {
    var tasks: seq<BenchTask> := [];
    for i := 0 to |cs|
      invariant |tasks| == i && IsRow(tasks, base, d, cs, start)
    {
      var c := cs[i];
      if !IsNumber(d) || !IsNumber(c) {
        return Err(Unprintable);
      }
      var runArgs := base["depth" := ListV([d])]["concurrency" := ListV([c])];
      assert runArgs == base + Pinned(d, c);
      tasks := tasks + [BenchTask(start + i, Label(d, c), runArgs, map["depth" := d, "concurrency" := c])];
    }
    return Ok(tasks);
  }

  lemma RowContinues(tasks: seq<BenchTask>, row: seq<BenchTask>, base: Args, ds: seq<Val>, cs: seq<Val>, i: nat)
    requires i < |ds| && |tasks| == i * |cs| && |row| == |cs|
    requires forall k :: 0 <= k < |tasks| ==> IsPair(tasks[k], base, ds, cs, k)
    requires IsRow(row, base, ds[i], cs, |tasks|)
    ensures |tasks + row| == (i + 1) * |cs|
    ensures forall k :: 0 <= k < |tasks + row| ==> IsPair((tasks + row)[k], base, ds, cs, k)
    ensures forall c :: c in cs ==> IsNumber(ds[i]) && IsNumber(c)
  {
    hide ProductTask, Row, Column, IsNumber;
    MulStep(i, |cs|);
    forall k | |tasks| <= k < |tasks + row| ensures IsPair((tasks + row)[k], base, ds, cs, k) {
      DivMod(i, k - |tasks|, |cs|);
      assert (tasks + row)[k] == row[k - |tasks|];
    }
    forall c | c in cs ensures IsNumber(ds[i]) && IsNumber(c) {
      var j :| 0 <= j < |cs| && cs[j] == c;
      assert row[j] == ProductTask(base, ds[i], cs[j], |tasks| + j);
    }
  }

  method BuildProduct(base: Args, ds: seq<Val>, cs: seq<Val>) returns (r: Result<seq<BenchTask>, BuildError>)
    ensures FromProduct(r, base, ds, cs)
  {
    hide Row, Column;
    var tasks: seq<BenchTask> := [];
    for i := 0 to |ds|
      invariant |tasks| == i * |cs|
      invariant forall k :: 0 <= k < |tasks| ==> IsPair(tasks[k], base, ds, cs, k)
      invariant forall d, c :: d in ds[..i] && c in cs ==> IsNumber(d) && IsNumber(c)
    {
      var row := BuildRow(base, ds[i], cs, |tasks|);
      if row.Err? {
        var j :| 0 <= j < |cs| && !(IsNumber(ds[i]) && IsNumber(cs[j]));
        assert ds[i] in ds && cs[j] in cs;
        return Err(row.error);
      }
      RowContinues(tasks, row.value, base, ds, cs, i);
      tasks := tasks + row.value;
      assert ds[..i + 1] == ds[..i] + [ds[i]];
    }
    assert ds[..|ds|] == ds;
    return Ok(tasks);
  }

  /**
   * `build_task_list`. However the list comes about, each task carries its own position, is pinned to the one depth and
   * the one concurrency of its entry, and prints the depth first.
   */
  method BuildTaskList(base: Args, schedule: Option<seq<Args>>) returns (r: Result<seq<BenchTask>, BuildError>)
    ensures schedule.Some? ==> FromSchedule(r, base, schedule.value)
    ensures schedule.None? ==> FromProduct(r, base, AxisOf(base, "depth", 0), AxisOf(base, "concurrency", 1))
    ensures r.Ok? ==> forall k :: 0 <= k < |r.value| ==> r.value[k].index == k
    ensures r.Ok? ==> forall k :: 0 <= k < |r.value| ==>
      var t := r.value[k];
      && "depth" in t.entry && IsNumber(t.entry["depth"])
      && "concurrency" in t.entry && IsNumber(t.entry["concurrency"])
      && Get(t.runArgs, "depth") == Some(ListV([t.entry["depth"]]))
      && Get(t.runArgs, "concurrency") == Some(ListV([t.entry["concurrency"]]))
      && t.title == "d=" + SignedDecimal(Truncated(t.entry["depth"]))
                  + " c=" + SignedDecimal(Truncated(t.entry["concurrency"]))
    // The first entry without an integer depth, or else without an integer concurrency, is the one complained of.
    ensures r.Err? && schedule.Some? ==> !r.error.Unprintable? && r.error.index < |schedule.value|
    ensures r.Err? && schedule.Some? ==>
      && (forall j :: 0 <= j < r.error.index ==>
            HasInt(schedule.value[j], "depth") && HasInt(schedule.value[j], "concurrency"))
      && (r.error.BadDepth? <==> !HasInt(schedule.value[r.error.index], "depth"))
      && (r.error.BadConcurrency? ==> !HasInt(schedule.value[r.error.index], "concurrency"))
  {
    match schedule
    case Some(entries) =>
      r := BuildFromSchedule(base, entries);
      if r.Ok? {
        forall k | 0 <= k < |r.value| ensures CarriesItsCell(r.value[k], k) {
          ScheduledCarries(base, entries[k], k);
        }
      }
    case None =>
      var ds, cs := AxisOf(base, "depth", 0), AxisOf(base, "concurrency", 1);
      r := BuildProduct(base, ds, cs);
      if r.Ok? {
        forall k | 0 <= k < |r.value| ensures CarriesItsCell(r.value[k], k) {
          assert IsPair(r.value[k], base, ds, cs, k);
          ProductCarries(base, ds[Row(k, |cs|)], cs[Column(k, |cs|)], k);
        }
      }
  }

  /** A task at position `k`, pinned to the depth and the concurrency of its entry. */
  predicate CarriesItsCell(t: BenchTask, k: nat) {
    && t.index == k
    && "depth" in t.entry && IsNumber(t.entry["depth"]) && "concurrency" in t.entry && IsNumber(t.entry["concurrency"])
    && Get(t.runArgs, "depth") == Some(ListV([t.entry["depth"]]))
    && Get(t.runArgs, "concurrency") == Some(ListV([t.entry["concurrency"]]))
    && t.title == "d=" + SignedDecimal(Truncated(t.entry["depth"]))
                + " c=" + SignedDecimal(Truncated(t.entry["concurrency"]))
  }

  lemma ScheduledCarries(base: Args, e: Args, k: nat)
    requires ValidEntry(e)
    ensures CarriesItsCell(ScheduledTask(base, e, k), k)
  {
  }

  lemma ProductCarries(base: Args, d: Val, c: Val, k: nat)
    requires IsNumber(d) && IsNumber(c)
    ensures CarriesItsCell(ProductTask(base, d, c, k), k)
  {
  }

  /** In a generated list, depth `i` with concurrency `j` stands at position `i * |cs| + j`. */
  lemma ProductIsDepthMajor(base: Args, ds: seq<Val>, cs: seq<Val>, tasks: seq<BenchTask>, i: nat, j: nat)
    requires FromProduct(Ok(tasks), base, ds, cs) && i < |ds| && j < |cs|
    ensures 0 <= i * |cs| + j < |tasks|
    ensures var t := tasks[i * |cs| + j];
      && t.index == i * |cs| + j
      && t.entry == map["depth" := ds[i], "concurrency" := cs[j]]
      && (forall k :: k != "depth" && k != "concurrency" ==> Get(t.runArgs, k) == Get(base, k))
  {
    hide Row, Column;
    ProductIndex(i, |ds|, j, |cs|);
    DivMod(i, j, |cs|);
    assert IsPair(tasks[i * |cs| + j], base, ds, cs, i * |cs| + j);
  }

  /** There is one list, or one error, for given arguments and an explicit schedule. */
  lemma ScheduleListIsUnique(base: Args, schedule: seq<Args>, r: Result<seq<BenchTask>, BuildError>,
                             tasks: seq<BenchTask>)
    requires FromSchedule(r, base, schedule) && FromSchedule(Ok(tasks), base, schedule)
    ensures r == Ok(tasks)
  {
    assert r.Ok?;
    assert r.value == tasks;
  }

  lemma ProductListIsUnique(base: Args, ds: seq<Val>, cs: seq<Val>, r: Result<seq<BenchTask>, BuildError>,
                            tasks: seq<BenchTask>)
    requires FromProduct(r, base, ds, cs) && FromProduct(Ok(tasks), base, ds, cs)
    ensures r == Ok(tasks)
  {
    hide Row, Column, ProductTask;
    assert r.Ok?;
    forall k | 0 <= k < |tasks| ensures r.value[k] == tasks[k] {
      assert IsPair(r.value[k], base, ds, cs, k) && IsPair(tasks[k], base, ds, cs, k);
    }
    assert r.value == tasks;
  }

  /** An entry's own keys override the base, depth and concurrency are pinned to one value, the rest is the base. */
  lemma EntryOverridesBase(base: Args, e: Args, i: nat, k: string)
    requires ValidEntry(e)
    ensures var t := ScheduledTask(base, e, i);
      && t.entry == e
      && TaskKey(t) == Key(Some(NumberOf(e["depth"])), Some(NumberOf(e["concurrency"])))
      && (k != "depth" && k != "concurrency" ==> Get(t.runArgs, k) == if k in e then Some(e[k]) else Get(base, k))
  {
  }

  // ---- saving and rebuilding ----

  function Entries(tasks: seq<BenchTask>): seq<Args> {
    seq(|tasks|, i requires 0 <= i < |tasks| => tasks[i].entry)
  }

  /** A list built from an explicit schedule is rebuilt identically from its saved entries. */
  lemma ScheduleRebuilds(base: Args, schedule: seq<Args>, r: Result<seq<BenchTask>, BuildError>,
                         again: Result<seq<BenchTask>, BuildError>)
    requires FromSchedule(r, base, schedule) && r.Ok?
    requires FromSchedule(again, base, Entries(r.value))
    ensures again == r
  {
    assert Entries(r.value) == schedule;
    assert again.Ok?;
    assert again.value == r.value;
  }

  lemma ProductEntryRebuilds(base: Args, d: Val, c: Val, k: nat)
    requires IsNumber(d) && IsNumber(c)
    ensures var e := ProductTask(base, d, c, k).entry;
      && (ValidEntry(e) <==> IsInt(d) && IsInt(c))
      && (ValidEntry(e) ==> ScheduledTask(base, e, k) == ProductTask(base, d, c, k))
  {
    var e := ProductTask(base, d, c, k).entry;
    assert e - {"depth", "concurrency"} == map[];
    assert base + map[] == base;
  }

  /** A task's saved entry rebuilds to that task, or is refused when a value is fractional. */
  lemma PairRebuilds(base: Args, ds: seq<Val>, cs: seq<Val>, t: BenchTask, k: nat)
    requires cs != [] && IsPair(t, base, ds, cs, k)
    ensures ValidEntry(t.entry) <==> IsInt(ds[Row(k, |cs|)]) && IsInt(cs[Column(k, |cs|)])
    ensures ValidEntry(t.entry) ==> ScheduledTask(base, t.entry, k) == t
  {
    hide Row, Column;
    ProductEntryRebuilds(base, ds[Row(k, |cs|)], cs[Column(k, |cs|)], k);
  }

  lemma IntPairRebuilds(base: Args, ds: seq<Val>, cs: seq<Val>, t: BenchTask, k: nat)
    requires cs != [] && IsPair(t, base, ds, cs, k)
    requires forall d, c :: d in ds && c in cs ==> IsInt(d) && IsInt(c)
    ensures ValidEntry(t.entry) && ScheduledTask(base, t.entry, k) == t
  {
    hide Row, Column;
    PairRebuilds(base, ds, cs, t, k);
    assert ds[Row(k, |cs|)] in ds && cs[Column(k, |cs|)] in cs;
  }

  lemma AllEntriesRebuild(base: Args, ds: seq<Val>, cs: seq<Val>, tasks: seq<BenchTask>,
                          again: Result<seq<BenchTask>, BuildError>)
    requires FromProduct(Ok(tasks), base, ds, cs)
    requires FromSchedule(again, base, Entries(tasks))
    requires forall d, c :: d in ds && c in cs ==> IsInt(d) && IsInt(c)
    ensures again == Ok(tasks)
  {
    hide ScheduledTask, ValidEntry, Row, Column;
    forall k | 0 <= k < |tasks|
      ensures ValidEntry(Entries(tasks)[k]) && ScheduledTask(base, Entries(tasks)[k], k) == tasks[k]
    {
      assert IsPair(tasks[k], base, ds, cs, k);
      IntPairRebuilds(base, ds, cs, tasks[k], k);
    }
    assert again.Ok?;
    assert again.value == tasks;
  }

  lemma PairIndex(ds: seq<Val>, cs: seq<Val>, d: Val, c: Val) returns (k: nat)
    requires d in ds && c in cs
    ensures k < |ds| * |cs| && cs != [] && Row(k, |cs|) < |ds| && ds[Row(k, |cs|)] == d && cs[Column(k, |cs|)] == c
  {
    hide Row, Column;
    var i :| 0 <= i < |ds| && ds[i] == d;
    var j :| 0 <= j < |cs| && cs[j] == c;
    DivMod(i, j, |cs|);
    ProductIndex(i, |ds|, j, |cs|);
    k := i * |cs| + j;
  }

  /** Every pair of the two axes is some task of the product. */
  lemma PairIsTask(base: Args, ds: seq<Val>, cs: seq<Val>, tasks: seq<BenchTask>, d: Val, c: Val) returns (k: nat)
    requires FromProduct(Ok(tasks), base, ds, cs) && d in ds && c in cs
    ensures k < |tasks| && cs != [] && IsPair(tasks[k], base, ds, cs, k)
    ensures ds[Row(k, |cs|)] == d && cs[Column(k, |cs|)] == c
  {
    hide Row, Column;
    k := PairIndex(ds, cs, d, c);
  }

  lemma RebuiltEntryIsInt(base: Args, ds: seq<Val>, cs: seq<Val>, tasks: seq<BenchTask>, d: Val, c: Val)
    requires FromProduct(Ok(tasks), base, ds, cs) && d in ds && c in cs
    requires FromSchedule(Ok(tasks), base, Entries(tasks))
    ensures IsInt(d) && IsInt(c)
  {
    hide Row, Column;
    var k := PairIsTask(base, ds, cs, tasks, d, c);
    PairRebuilds(base, ds, cs, tasks[k], k);
    assert ValidEntry(Entries(tasks)[k]);
  }

  /**
   * A generated product is rebuilt identically exactly when every depth and concurrency is an integer;
   * a fractional value generates a task that the rebuild then refuses.
   */
  lemma ProductRebuilds(base: Args, ds: seq<Val>, cs: seq<Val>, tasks: seq<BenchTask>,
                        again: Result<seq<BenchTask>, BuildError>)
    requires FromProduct(Ok(tasks), base, ds, cs)
    requires FromSchedule(again, base, Entries(tasks))
    ensures again == Ok(tasks) <==> forall d, c :: d in ds && c in cs ==> IsInt(d) && IsInt(c)
  {
    hide Row, Column;
    if forall d, c :: d in ds && c in cs ==> IsInt(d) && IsInt(c) {
      AllEntriesRebuild(base, ds, cs, tasks, again);
    }
    if again == Ok(tasks) {
      forall d, c | d in ds && c in cs ensures IsInt(d) && IsInt(c) {
        RebuiltEntryIsInt(base, ds, cs, tasks, d, c);
      }
    }
  }

  // ---- coverage keys ----

  datatype Key = Key(depth: Option<real>, concurrency: Option<real>)

  /** First element of a pinned argument, when there is one. */
  function FirstNumber(a: Args, k: string): Option<real> {
    match Get(a, k)
    case Some(ListV(items)) => if items != [] && IsNumber(items[0]) then Some(NumberOf(items[0])) else None
    case _ => None
  }

  /** `task_coverage_key`. */
  function TaskKey(t: BenchTask): Key {
    Key(FirstNumber(t.runArgs, "depth"), FirstNumber(t.runArgs, "concurrency"))
  }

  lemma ProductKey(base: Args, d: Val, c: Val, k: nat)
    requires IsNumber(d) && IsNumber(c)
    ensures TaskKey(ProductTask(base, d, c, k)) == Key(Some(NumberOf(d)), Some(NumberOf(c)))
  {
  }

  /** The keys of a generated list are exactly the product of its two axes. */
  lemma KeysCoverProduct(base: Args, ds: seq<Val>, cs: seq<Val>, tasks: seq<BenchTask>, key: Key)
    requires FromProduct(Ok(tasks), base, ds, cs)
    ensures (exists k :: 0 <= k < |tasks| && TaskKey(tasks[k]) == key) <==>
      exists d, c :: d in ds && c in cs && key == Key(Some(NumberOf(d)), Some(NumberOf(c)))
  {
    hide Row, Column;
    if k :| 0 <= k < |tasks| && TaskKey(tasks[k]) == key {
      assert IsPair(tasks[k], base, ds, cs, k);
      ProductKey(base, ds[Row(k, |cs|)], cs[Column(k, |cs|)], k);
      assert ds[Row(k, |cs|)] in ds && cs[Column(k, |cs|)] in cs;
    }
    if d, c :| d in ds && c in cs && key == Key(Some(NumberOf(d)), Some(NumberOf(c))) {
      var k := PairIsTask(base, ds, cs, tasks, d, c);
      ProductKey(base, d, c, k);
    }
  }

  // ---- artifact names ----

  /** `result_filename_suffix`. */
  function Suffix(t: BenchTask): string {
    match (Get(t.runArgs, "depth"), Get(t.runArgs, "concurrency"))
    case (Some(ListV(d)), Some(ListV(c))) =>
      if d == [] || c == [] || !IsNumber(d[0]) || !IsNumber(c[0]) then ""
      else "_d" + SignedDecimal(Truncated(d[0])) + "_c" + SignedDecimal(Truncated(c[0]))
    case _ => ""
  }

  /** The whole depth and concurrency that a suffix prints. */
  function Cell(t: BenchTask): (int, int)
    requires Suffix(t) != ""
  {
    (Truncated(t.runArgs["depth"].items[0]), Truncated(t.runArgs["concurrency"].items[0]))
  }

  function CellText(d: int, c: int): string {
    "_d" + SignedDecimal(d) + "_c" + SignedDecimal(c)
  }

  lemma SameCellText(d: int, c: int, d': int, c': int)
    ensures CellText(d, c) == CellText(d', c') <==> d == d' && c == c'
  {
    hide SignedDecimal;
    SignedDecimalInjective(d, d');
    SignedDecimalInjective(d', d);
    SignedDecimalInjective(c, c');
    var x, x' := SignedDecimal(d), SignedDecimal(d');
    var y, y' := "c" + SignedDecimal(c), "c" + SignedDecimal(c');
    assert CellText(d, c)[2..] == x + ['_'] + y && CellText(d', c')[2..] == x' + ['_'] + y';
    if CellText(d, c) == CellText(d', c') {
      PrefixUpTo('_', x, y, x', y');
      assert y[1..] == SignedDecimal(c) && y'[1..] == SignedDecimal(c');
    }
  }

  /** A pinned task's file is named after its whole depth, then its whole concurrency. */
  lemma SuffixIs(t: BenchTask, k: nat)
    requires CarriesItsCell(t, k)
    ensures Suffix(t) == "_d" + SignedDecimal(Truncated(t.entry["depth"]))
                       + "_c" + SignedDecimal(Truncated(t.entry["concurrency"]))
  {
  }

  lemma SuffixNamesTheCell(t: BenchTask, t': BenchTask)
    requires Suffix(t) != "" && Suffix(t') != ""
    ensures Suffix(t) == Suffix(t') <==> Cell(t) == Cell(t')
  {
    hide SignedDecimal, Truncated;
    assert Suffix(t) == CellText(Cell(t).0, Cell(t).1) && Suffix(t') == CellText(Cell(t').0, Cell(t').1);
    SameCellText(Cell(t).0, Cell(t).1, Cell(t').0, Cell(t').1);
  }

  lemma SuffixStartsClear(t: BenchTask)
    ensures Suffix(t) == "" || (Suffix(t)[0] == '_' && !IsDigit(Suffix(t)[0]))
  {
  }
}
