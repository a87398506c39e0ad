/** Reading result files back and finding uncovered tasks (`benchmarking/aggregator.py`). */
module Aggregator {
  import opened Prelude
  import opened RunState
  import opened TaskList
  import Sorting
  import Text

  /** A directory entry under `runs/`. */
  datatype File = File(name: string, doc: Doc)

  datatype Consolidated = Consolidated(model: string, maxConcurrency: int, rows: seq<Entry>)

  // ---- artifact names ----

  /** `"%03d%s.json"`. */
  function ArtifactName(t: BenchTask, i: nat): string {
    Text.Padded3(i) + (Suffix(t) + ".json")
  }

  /** The sort key: the digits in front of the name, or zero when there are none. */
  function LeadingNumber(name: string): nat {
    var k := Text.DigitRun(name);
    Text.DigitRunBound(name);
    if k == 0 then 0 else Text.Value(name[..k])
  }

  /** The index is read back from the printed name, for one digit as for many. */
  lemma NameGivesIndex(t: BenchTask, i: nat)
    ensures LeadingNumber(ArtifactName(t, i)) == i
  {
    SuffixStartsClear(t);
    Text.Padded3Value(i);
    var d, rest := Text.Padded3(i), Suffix(t) + ".json";
    assert !Text.IsDigit(rest[0]);
    Text.DigitRunIs(d, rest);
    assert (d + rest)[..|d|] == d;
  }

  lemma NamesDistinct(t: BenchTask, i: nat, t': BenchTask, i': nat)
    ensures ArtifactName(t, i) == ArtifactName(t', i') ==> i == i'
  {
    NameGivesIndex(t, i);
    NameGivesIndex(t', i');
  }

  predicate ByNumber(a: File, b: File) {
    LeadingNumber(a.name) <= LeadingNumber(b.name)
  }

  // ---- a directory, listed in some order ----

  /** The result files of the first `n` tasks, in schedule order. */
  function InOrder(files: map<int, Doc>, tasks: seq<BenchTask>, n: nat): seq<File>
    requires n <= |tasks|
  {
    if n == 0 then []
    else
      var k := n - 1;
      InOrder(files, tasks, k) + if k in files then [File(ArtifactName(tasks[k], k), files[k])] else []
  }

  ghost predicate IsListing(listing: seq<File>, files: map<int, Doc>, tasks: seq<BenchTask>) {
    multiset(listing) == multiset(InOrder(files, tasks, |tasks|))
  }

  ghost predicate Increasing(s: seq<File>) {
    forall i, j :: 0 <= i < j < |s| ==> LeadingNumber(s[i].name) < LeadingNumber(s[j].name)
  }

  ghost predicate Below(s: seq<File>, n: nat) {
    forall i :: 0 <= i < |s| ==> LeadingNumber(s[i].name) < n
  }

  lemma {:induction false} InOrderSorted(files: map<int, Doc>, tasks: seq<BenchTask>, n: nat)
    requires n <= |tasks|
    ensures Increasing(InOrder(files, tasks, n)) && Below(InOrder(files, tasks, n), n)
  {
    hide LeadingNumber, ArtifactName;
    if n > 0 {
      InOrderSorted(files, tasks, n - 1);
      NameGivesIndex(tasks[n - 1], n - 1);
    }
  }

  /** Whatever order a listing comes in, sorting it by leading number gives schedule order. */
  lemma SortingRestoresSchedule(listing: seq<File>, files: map<int, Doc>, tasks: seq<BenchTask>)
    requires IsListing(listing, files, tasks)
    ensures Sorting.Sort(ByNumber, listing) == InOrder(files, tasks, |tasks|)
  {
    hide LeadingNumber, ArtifactName;
    var s := InOrder(files, tasks, |tasks|);
    InOrderSorted(files, tasks, |tasks|);
    assert Sorting.TotalPreorder(ByNumber);
    Sorting.SortKeeps(ByNumber, listing);
    Sorting.SortSorted(ByNumber, listing);
    forall a, b | a in s && b in s && ByNumber(a, b) && ByNumber(b, a) ensures a == b {
      var i :| 0 <= i < |s| && s[i] == a;
      var j :| 0 <= j < |s| && s[j] == b;
      assert i == j;
    }
    Sorting.SortedUnique(ByNumber, s, Sorting.Sort(ByNumber, listing));
  }

  // ---- merging ----

  predicate IsDict(f: File) {
    f.doc.Results?
  }

  predicate Genuine(e: Entry) {
    e.Row?
  }

  function DocsOf(files: seq<File>): seq<Doc> {
    seq(|files|, i requires 0 <= i < |files| => files[i].doc)
  }

  function RowsOf(d: Doc): seq<Entry> {
    if d.Results? && d.rows.Some? then Filter(Genuine, d.rows.value) else []
  }

  function AllRows(docs: seq<Doc>): seq<Entry> {
    if docs == [] then [] else AllRows(docs[..|docs| - 1]) + RowsOf(docs[|docs| - 1])
  }

  function FirstModel(docs: seq<Doc>): Option<string> {
    if docs == [] then None
    else
      var before, last := FirstModel(docs[..|docs| - 1]), docs[|docs| - 1];
      if before.None? && last.Results? then Some(last.model) else before
  }

  /** The greatest whole concurrency any row reports, at least zero. */
  function Peak(rows: seq<Entry>): (p: int)
    ensures p >= 0
    ensures forall e :: e in rows && e.Row? && e.concurrency.Some? ==> e.concurrency.value.Floor <= p
    ensures p == 0 || exists e :: e in rows && e.Row? && e.concurrency.Some? && e.concurrency.value.Floor == p
  {
    if rows == [] then 0
    else
      var before, e := Peak(rows[..|rows| - 1]), rows[|rows| - 1];
      assert rows == rows[..|rows| - 1] + [e];
      if e.Row? && e.concurrency.Some? && e.concurrency.value.Floor > before then e.concurrency.value.Floor else before
  }

  function Merge(docs: seq<Doc>): Consolidated {
    Consolidated(match FirstModel(docs) case Some(m) => m case None => "", Peak(AllRows(docs)), AllRows(docs))
  }

  /** What the results directory amounts to, independent of how it is listed. */
  function View(files: map<int, Doc>, tasks: seq<BenchTask>): Consolidated {
    Merge(DocsOf(Filter(IsDict, InOrder(files, tasks, |tasks|))))
  }

  lemma PeakStep(rows: seq<Entry>, e: Entry)
    ensures Peak(rows + [e]) ==
      if e.Row? && e.concurrency.Some? && e.concurrency.value > Peak(rows) as real then e.concurrency.value.Floor
      else Peak(rows)
  {
    assert (rows + [e])[..|rows|] == rows;
  }

  lemma RowStep(entries: seq<Entry>, j: nat)
    requires j < |entries|
    ensures Filter(Genuine, entries[..j + 1])
         == Filter(Genuine, entries[..j]) + if entries[j].Row? then [entries[j]] else []
  {
    assert entries[..j + 1] == entries[..j] + [entries[j]];
    FilterAppend(Genuine, entries[..j], [entries[j]]);
  }

  /** The row loop of one result document. */
  method AppendRows(entries: seq<Entry>, rows0: seq<Entry>, peak0: int) returns (rows: seq<Entry>, peak: int)
    requires peak0 == Peak(rows0)
    ensures rows == rows0 + Filter(Genuine, entries) && peak == Peak(rows)
  {
    hide Peak;
    rows, peak := rows0, peak0;
    for j := 0 to |entries|
      invariant rows == rows0 + Filter(Genuine, entries[..j])
      invariant peak == Peak(rows)
    {
      var e := entries[j];
      RowStep(entries, j);
      if e.Junk? {
        continue;
      }
      PeakStep(rows, e);
      rows := rows + [e];
      if e.concurrency.Some? && e.concurrency.value > peak as real {
        peak := e.concurrency.value.Floor;
      }
    }
    assert entries[..|entries|] == entries;
  }

  /** How many entries of these have the shape of a row. */
  function RowsIn(entries: seq<Entry>): nat {
    if entries == [] then 0 else RowsIn(entries[..|entries| - 1]) + if entries[|entries| - 1].Row? then 1 else 0
  }

  function EntriesOf(d: Doc): seq<Entry> {
    if d.Results? && d.rows.Some? then d.rows.value else []
  }

  /** How many rows the documents before this one hold. */
  function RowsBefore(docs: seq<Doc>): nat {
    if docs == [] then 0 else RowsBefore(docs[..|docs| - 1]) + RowsIn(EntriesOf(docs[|docs| - 1]))
  }

  lemma {:induction false} FilterRowAt(entries: seq<Entry>, j: nat)
    requires j < |entries|
    ensures |Filter(Genuine, entries)| == RowsIn(entries)
    ensures entries[j].Row? ==>
      RowsIn(entries[..j]) < RowsIn(entries) && Filter(Genuine, entries)[RowsIn(entries[..j])] == entries[j]
    decreases |entries|
  {
    var k := |entries| - 1;
    RowStep(entries, k);
    assert entries[..k + 1] == entries;
    assert entries[..k][..j] == entries[..j];
    if k > 0 {
      FilterRowAt(entries[..k], if j < k then j else 0);
    } else {
      assert entries[..0] == [];
    }
  }

  lemma {:induction false} FilterSize(entries: seq<Entry>)
    ensures |Filter(Genuine, entries)| == RowsIn(entries)
  {
    if entries != [] {
      FilterRowAt(entries, 0);
    }
  }

  /**
   * Every row of every readable document is in the merged list once, in the order of the documents and within each in
   * its own order, and nothing else is: row `j` of document `i` stands behind the rows before it.
   */
  lemma RowsKeepTheirOrder(docs: seq<Doc>, i: nat, j: nat)
    requires i < |docs| && j < |EntriesOf(docs[i])| && EntriesOf(docs[i])[j].Row?
    ensures |AllRows(docs)| == RowsBefore(docs)
    ensures var p := RowsBefore(docs[..i]) + RowsIn(EntriesOf(docs[i])[..j]);
      p < |AllRows(docs)| && AllRows(docs)[p] == EntriesOf(docs[i])[j]
  {
    hide AllRows, RowsOf, EntriesOf, RowsIn, RowsBefore;
    var upTo, before := docs[..i + 1], docs[..i];
    assert upTo[..i] == before && upTo[i] == docs[i];
    AllRowsSize(docs);
    AllRowsSize(before);
    AllRowsUnfold(upTo);
    RowInDoc(docs[i], j);
    EarlierRowsFirst(docs, i + 1);
    var q := RowsIn(EntriesOf(docs[i])[..j]);
    assert AllRows(upTo) == AllRows(before) + RowsOf(docs[i]);
    assert AllRows(upTo)[|AllRows(before)| + q] == RowsOf(docs[i])[q];
  }

  lemma {:induction false} EarlierRowsFirst(docs: seq<Doc>, n: nat)
    requires n <= |docs|
    ensures AllRows(docs[..n]) <= AllRows(docs)
    decreases |docs|
  {
    if n == |docs| {
      assert docs[..n] == docs;
    } else {
      var front := docs[..|docs| - 1];
      assert front[..n] == docs[..n];
      EarlierRowsFirst(front, n);
    }
  }

  lemma AllRowsUnfold(docs: seq<Doc>)
    requires docs != []
    ensures AllRows(docs) == AllRows(docs[..|docs| - 1]) + RowsOf(docs[|docs| - 1])
  {
  }

  lemma RowInDoc(d: Doc, j: nat)
    requires j < |EntriesOf(d)| && EntriesOf(d)[j].Row?
    ensures RowsIn(EntriesOf(d)[..j]) < |RowsOf(d)| && RowsOf(d)[RowsIn(EntriesOf(d)[..j])] == EntriesOf(d)[j]
  {
    FilterRowAt(EntriesOf(d), j);
  }

  lemma {:induction false} AllRowsSize(docs: seq<Doc>)
    ensures |AllRows(docs)| == RowsBefore(docs)
  {
    if docs != [] {
      AllRowsSize(docs[..|docs| - 1]);
      FilterSize(EntriesOf(docs[|docs| - 1]));
    }
  }

  lemma EmptyPeak()
    ensures Peak([]) == 0
  {
  }

  /** No document is readable before this one. */
  predicate NoneBefore(docs: seq<Doc>, i: nat)
    requires i <= |docs|
  {
    forall j :: 0 <= j < i ==> !docs[j].Results?
  }

  lemma {:induction false} FirstModelIs(docs: seq<Doc>, i: nat)
    requires i <= |docs| && NoneBefore(docs, i)
    ensures i == |docs| ==> FirstModel(docs) == None && AllRows(docs) == []
    ensures i < |docs| && docs[i].Results? ==> FirstModel(docs) == Some(docs[i].model)
    decreases |docs|
  {
    if docs != [] {
      var front := docs[..|docs| - 1];
      FirstModelIs(front, if i < |docs| then i else |docs| - 1);
    }
  }

  lemma MergedModel(docs: seq<Doc>)
    ensures NoneBefore(docs, |docs|) ==> Merge(docs) == Consolidated("", 0, [])
    ensures forall i :: 0 <= i < |docs| && docs[i].Results? && NoneBefore(docs, i) ==>
      Merge(docs).model == docs[i].model
  {
    forall i | 0 <= i < |docs| && docs[i].Results? && NoneBefore(docs, i)
      ensures Merge(docs).model == docs[i].model
    {
      FirstModelIs(docs, i);
    }
    if NoneBefore(docs, |docs|) {
      FirstModelIs(docs, |docs|);
      assert Peak([]) == 0;
    }
  }

  /** `consolidate_per_task_results`: the first readable document's model, every row, the greatest concurrency. */
  method ConsolidatePerTask(docs: seq<Doc>) returns (c: Consolidated)
    ensures c == Merge(docs)
    ensures NoneBefore(docs, |docs|) ==> c == Consolidated("", 0, [])
    ensures forall i :: 0 <= i < |docs| && docs[i].Results? && NoneBefore(docs, i) ==> c.model == docs[i].model
  {
    hide Peak, NoneBefore;
    EmptyPeak();
    MergedModel(docs);
    var model, seen, peak, rows := "", false, 0, [];
    for i := 0 to |docs|
      invariant seen == FirstModel(docs[..i]).Some?
      invariant model == if seen then FirstModel(docs[..i]).value else ""
      invariant rows == AllRows(docs[..i]) && peak == Peak(rows)
    {
      var d := docs[i];
      assert docs[..i + 1][..i] == docs[..i];
      if !d.Results? {
        continue;
      }
      if !seen {
        model, seen := d.model, true;
      }
      if d.rows.None? {
        continue;
      }
      rows, peak := AppendRows(d.rows.value, rows, peak);
    }
    assert docs[..|docs|] == docs;
    return Consolidated(model, peak, rows);
  }

  /** The reading loop: an unreadable file, or one that is not a dict, is skipped. */
  method ReadDocs(files: seq<File>) returns (docs: seq<Doc>)
    ensures docs == DocsOf(Filter(IsDict, files))
  {
    docs := [];
    for i := 0 to |files|
      invariant docs == DocsOf(Filter(IsDict, files[..i]))
    {
      assert files[..i + 1] == files[..i] + [files[i]];
      FilterAppend(IsDict, files[..i], [files[i]]);
      if !files[i].doc.Results? {
        continue;
      }
      docs := docs + [files[i].doc];
    }
    assert files[..|files|] == files;
  }

  /** What a listing, of whatever files and in whatever order, is merged to. */
  function Merged(listing: seq<File>): Consolidated {
    Merge(DocsOf(Filter(IsDict, Sorting.Sort(ByNumber, listing))))
  }

  /** No two files of a listing carry the same leading number. */
  ghost predicate NumbersDiffer(listing: seq<File>) {
    forall f, g :: f in listing && g in listing && LeadingNumber(f.name) == LeadingNumber(g.name) ==> f == g
  }

  /** Where numbers tell files apart, the order of the listing does not reach the result. */
  lemma ListingOrderIsIrrelevant(a: seq<File>, b: seq<File>)
    requires multiset(a) == multiset(b) && NumbersDiffer(a)
    ensures Merged(a) == Merged(b)
  {
    hide LeadingNumber;
    assert Sorting.TotalPreorder(ByNumber);
    Sorting.SortCanonical(ByNumber, a, b);
  }

  /** A listing of the artifacts of a schedule is merged to the directory's view. */
  lemma ListingGivesView(listing: seq<File>, files: map<int, Doc>, tasks: seq<BenchTask>)
    requires IsListing(listing, files, tasks)
    ensures Merged(listing) == View(files, tasks)
  {
    SortingRestoresSchedule(listing, files, tasks);
  }

  /** `consolidate_results`: sort the listing, skip what is not a readable dict, merge the rest. */
  method ConsolidateResults(listing: seq<File>) returns (c: Consolidated)
    ensures c == Merged(listing)
  {
    var docs := ReadDocs(Sorting.Sort(ByNumber, listing));
    c := ConsolidatePerTask(docs);
  }

  // ---- coverage ----

  predicate Complete(k: Key) {
    k.depth.Some? && k.concurrency.Some?
  }

  /** The coverage key a result row supplies, if it supplies one. */
  function RowKey(e: Entry): Option<Key> {
    if e.Row? && e.contextSize.Some? && e.concurrency.Some? then Some(Key(e.contextSize, e.concurrency)) else None
  }

  ghost predicate Covers(rows: seq<Entry>, k: Key) {
    exists e :: e in rows && RowKey(e) == Some(k)
  }

  /** `consolidated_coverage_keys`. */
  method CoverageKeys(c: Consolidated) returns (keys: set<Key>)
    ensures forall k :: k in keys <==> Covers(c.rows, k)
    ensures forall k :: k in keys ==> Complete(k)
    // In the row's own fields: the context size is the depth.
    ensures forall d, c' :: Key(Some(d), Some(c')) in keys <==>
      exists e :: e in c.rows && e.Row? && e.contextSize == Some(d) && e.concurrency == Some(c')
  {
    keys := {};
    for i := 0 to |c.rows|
      invariant forall k :: k in keys <==> Covers(c.rows[..i], k)
      invariant forall k :: k in keys ==> Complete(k)
    {
      var e := c.rows[i];
      ghost var before := keys;
      if e.Row? && e.contextSize.Some? && e.concurrency.Some? {
        keys := keys + {Key(e.contextSize, e.concurrency)};
      }
      assert c.rows[..i + 1] == c.rows[..i] + [e];
      forall k ensures k in keys <==> Covers(c.rows[..i + 1], k) {
        if k in before {
          var e' :| e' in c.rows[..i] && RowKey(e') == Some(k);
          assert e' in c.rows[..i + 1];
        }
        if RowKey(e) == Some(k) { assert e in c.rows[..i + 1]; }
      }
    }
    assert c.rows[..|c.rows|] == c.rows;
  }

  /** A task is a gap when its key is incomplete or no result row has it. */
  ghost predicate Uncovered(t: BenchTask, rows: seq<Entry>) {
    !Complete(TaskKey(t)) || !Covers(rows, TaskKey(t))
  }

  /** `r` lists, in schedule order and once each, exactly the uncovered positions of `tasks`. */
  ghost predicate IsGapList(r: seq<nat>, tasks: seq<BenchTask>, rows: seq<Entry>) {
    && (forall i, j :: 0 <= i < j < |r| ==> r[i] < r[j])
    && (forall i :: i in r <==> 0 <= i < |tasks| && Uncovered(tasks[i], rows))
  }

  /** `gap_analysis`, reporting each gap by its schedule index. */
  method GapAnalysis(tasks: seq<BenchTask>, c: Consolidated) returns (gaps: seq<nat>)
    requires forall i :: 0 <= i < |tasks| ==> tasks[i].index == i
    ensures IsGapList(gaps, tasks, c.rows)
  {
    hide TaskKey, Covers, RowKey;
    var observed := CoverageKeys(c);
    gaps := [];
    for i := 0 to |tasks|
      invariant IsGapList(gaps, tasks[..i], c.rows)
    {
      var key := TaskKey(tasks[i]);
      assert key in observed <==> Covers(c.rows, key);
      assert forall j :: 0 <= j < |gaps| ==> gaps[j] in gaps;
      if key.depth.None? || key.concurrency.None? || key !in observed {
        gaps := gaps + [tasks[i].index];
      }
      assert tasks[..i + 1] == tasks[..i] + [tasks[i]];
    }
    assert tasks[..|tasks|] == tasks;
  }

  /** Some row was measured at this depth and this concurrency. */
  ghost predicate Measured(rows: seq<Entry>, d: real, c: real) {
    exists e :: e in rows && e.Row? && e.contextSize == Some(d) && e.concurrency == Some(c)
  }

  lemma CoversIsMeasured(rows: seq<Entry>, d: real, c: real)
    ensures Covers(rows, Key(Some(d), Some(c))) <==> Measured(rows, d, c)
  {
    if e :| e in rows && e.Row? && e.contextSize == Some(d) && e.concurrency == Some(c) {
      assert RowKey(e) == Some(Key(Some(d), Some(c)));
    }
  }

  /**
   * In a generated list the task of depth `i` and concurrency `j` is a gap exactly when no row has that depth as its
   * context size together with that concurrency.
   */
  lemma ProductGapIff(base: Args, ds: seq<Val>, cs: seq<Val>, tasks: seq<BenchTask>, rows: seq<Entry>, gaps: seq<nat>,
                      i: nat, j: nat)
    requires FromProduct(Ok(tasks), base, ds, cs) && IsGapList(gaps, tasks, rows) && i < |ds| && j < |cs|
    ensures IsNumber(ds[i]) && IsNumber(cs[j])
    ensures i * |cs| + j in gaps <==>
      !(exists e :: e in rows && e.Row?
          && e.contextSize == Some(NumberOf(ds[i])) && e.concurrency == Some(NumberOf(cs[j])))
  {
    hide TaskList.Row, Column, TaskKey, Covers;
    var k := i * |cs| + j;
    ProductIndex(i, |ds|, j, |cs|);
    DivMod(i, j, |cs|);
    assert IsPair(tasks[k], base, ds, cs, k);
    ProductKey(base, ds[i], cs[j], k);
    CoversIsMeasured(rows, NumberOf(ds[i]), NumberOf(cs[j]));
  }

  /** The same for an explicit schedule. */
  lemma ScheduleGapIff(base: Args, schedule: seq<Args>, tasks: seq<BenchTask>, rows: seq<Entry>, gaps: seq<nat>, k: nat)
    requires FromSchedule(Ok(tasks), base, schedule) && IsGapList(gaps, tasks, rows) && k < |tasks|
    ensures ValidEntry(schedule[k])
    ensures k in gaps <==>
      !(exists e :: e in rows && e.Row?
          && e.contextSize == Some(NumberOf(schedule[k]["depth"]))
          && e.concurrency == Some(NumberOf(schedule[k]["concurrency"])))
  {
    EntryOverridesBase(base, schedule[k], k, "depth");
    CoversIsMeasured(rows, NumberOf(schedule[k]["depth"]), NumberOf(schedule[k]["concurrency"]));
  }

  // ---- what a task's own file contributes ----

  lemma {:induction false} FileIsListed(files: map<int, Doc>, tasks: seq<BenchTask>, i: nat, n: nat)
    requires i < n <= |tasks| && i in files
    ensures File(ArtifactName(tasks[i], i), files[i]) in InOrder(files, tasks, n)
  {
    if i < n - 1 {
      FileIsListed(files, tasks, i, n - 1);
    }
  }

  lemma {:induction false} RowsReachTotal(docs: seq<Doc>, d: Doc, e: Entry)
    requires d in docs && e in RowsOf(d)
    ensures e in AllRows(docs)
  {
    if d != docs[|docs| - 1] {
      var i :| 0 <= i < |docs| && docs[i] == d;
      assert docs[..|docs| - 1][i] == d;
      RowsReachTotal(docs[..|docs| - 1], d, e);
    }
  }

  /** The file of task `i` holds a row for its own depth and concurrency. */
  ghost predicate Reports(files: map<int, Doc>, tasks: seq<BenchTask>, i: nat)
    requires i < |tasks|
  {
    i in files && exists e :: e in RowsOf(files[i]) && RowKey(e) == Some(TaskKey(tasks[i]))
  }

  /** A task whose own file reports its key is never a gap. */
  lemma ReportedIsCovered(files: map<int, Doc>, tasks: seq<BenchTask>, i: nat)
    requires i < |tasks| && Reports(files, tasks, i)
    ensures !Uncovered(tasks[i], View(files, tasks).rows)
  {
    var e :| e in RowsOf(files[i]) && RowKey(e) == Some(TaskKey(tasks[i]));
    var listed := InOrder(files, tasks, |tasks|);
    var kept := Filter(IsDict, listed);
    var f := File(ArtifactName(tasks[i], i), files[i]);
    FileIsListed(files, tasks, i, |tasks|);
    FilterIs(IsDict, listed);
    assert f in kept;
    var k :| 0 <= k < |kept| && kept[k] == f;
    assert DocsOf(kept)[k] == files[i];
    RowsReachTotal(DocsOf(kept), files[i], e);
    assert e in View(files, tasks).rows;
  }

  /** In a generated list, a task whose own file holds a row of its depth and concurrency is never a gap. */
  lemma OwnRowIsNoGap(base: Args, ds: seq<Val>, cs: seq<Val>, tasks: seq<BenchTask>, files: map<int, Doc>,
                      gaps: seq<nat>, i: nat, j: nat, e: Entry)
    requires FromProduct(Ok(tasks), base, ds, cs) && i < |ds| && j < |cs|
    requires IsGapList(gaps, tasks, View(files, tasks).rows)
    requires i * |cs| + j in files && files[i * |cs| + j].Results? && files[i * |cs| + j].rows.Some?
    requires e in files[i * |cs| + j].rows.value && e.Row?
    requires IsNumber(ds[i]) && e.contextSize == Some(NumberOf(ds[i]))
    requires IsNumber(cs[j]) && e.concurrency == Some(NumberOf(cs[j]))
    ensures i * |cs| + j !in gaps
  {
    hide TaskList.Row, Column, View, Uncovered, ProductTask, TaskKey;
    var k := i * |cs| + j;
    ProductIndex(i, |ds|, j, |cs|);
    DivMod(i, j, |cs|);
    assert IsPair(tasks[k], base, ds, cs, k);
    ProductKey(base, ds[i], cs[j], k);
    FilterIs(Genuine, files[k].rows.value);
    assert e in RowsOf(files[k]) && RowKey(e) == Some(TaskKey(tasks[k]));
    ReportedIsCovered(files, tasks, k);
  }
}
