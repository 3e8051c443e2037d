/** The parallel cleaner: deletes the scanned items, or in a dry run only
    describes them. Deletion outcomes come from an oracle standing for the
    filesystem calls; the source's atomic counters and concurrent error map
    become a fold, and the lemmas show that the order of the items (the source
    sorts them and then processes them in parallel) changes nothing but the
    order of the error list. */
module Cleaning {
  import opened Wrappers
  import opened Types
  import opened Seqs
  import Configuration

  /** What one filesystem call returned. */
  datatype IoOutcome = Done | Failed(message: string)

  /** `fs::remove_dir_all` and `fs::remove_file`. */
  datatype FsOps = FsOps(removeDirAll: Path -> IoOutcome, removeFile: Path -> IoOutcome)

  /** The key of the error map: the path an error is about. */
  function ErrorKey(e: CleanError): Option<Path> { e.PathOf() }

  /** The shared counters and the error map keyed by path. */
  datatype Statistics = Statistics(itemsDeleted: nat, bytesFreed: nat, errors: seq<CleanError>)

  datatype ParallelCleaner = ParallelCleaner(threadCount: nat, chunkSize: nat, dryRun: bool, stats: Statistics)

  /** `ParallelCleaner::new`: one thread per logical CPU (4 when unknown),
      chunks of one item, not a dry run, zeroed statistics. */
  function New(available: Option<nat>): (r: ParallelCleaner)
    ensures available.Some? ==> r.threadCount == available.value
    ensures available.None? ==> r.threadCount == 4
    ensures r.chunkSize == 1 && !r.dryRun
    ensures r.stats == Statistics(0, 0, [])
  {
    ParallelCleaner(Configuration.NumCpus(available), 1, false, Statistics(0, 0, []))
  }

  function WithThreads(c: ParallelCleaner, count: nat): (r: ParallelCleaner)
    ensures r.threadCount == count
    ensures r.(threadCount := c.threadCount) == c
  {
    c.(threadCount := count)
  }

  function WithDryRun(c: ParallelCleaner, dryRun: bool): (r: ParallelCleaner)
    ensures r.dryRun == dryRun
    ensures r.(dryRun := c.dryRun) == c
  {
    c.(dryRun := dryRun)
  }

  /** `delete_item`: a directory is removed with everything beneath it; a
      file and a link are unlinked, so a link's target is never touched. */
  function DeleteItem(ops: FsOps, it: CleanItem): (r: IoOutcome)
    ensures it.itemType == Directory ==> r == ops.removeDirAll(it.path)
    ensures it.itemType != Directory ==> r == ops.removeFile(it.path)
  {
    match it.itemType
    case Directory => ops.removeDirAll(it.path)
    case File => ops.removeFile(it.path)
    case Symlink => ops.removeFile(it.path)
  }

  // ---------------------------------------------------------------- ordering

  predicate NonIncreasing(s: seq<CleanItem>) {
    forall i, j :: 0 <= i < j < |s| ==> s[i].size >= s[j].size
  }

  /** Places `x` before the first element no larger than it. */
  function InsertBySize(x: CleanItem, s: seq<CleanItem>): (r: seq<CleanItem>)
    requires NonIncreasing(s)
    ensures NonIncreasing(r)
    ensures multiset(r) == multiset(s) + multiset{x}
  {
    if |s| == 0 || s[0].size <= x.size then [x] + s
    else
      var rest := InsertBySize(x, s[1..]);
      assert s == [s[0]] + s[1..];
      forall k | 0 <= k < |rest| ensures rest[k].size <= s[0].size {
        assert rest[k] in multiset(rest);
        if rest[k] != x {
          assert rest[k] in multiset(s[1..]);
          var m :| 0 <= m < |s[1..]| && s[1..][m] == rest[k];
          assert s[1..][m] == s[m + 1];
        }
      }
      [s[0]] + rest
  }

  /** `items.sort_by(|a, b| b.size.cmp(&a.size))`: largest first. */
  function SortBySizeDesc(s: seq<CleanItem>): (r: seq<CleanItem>)
    ensures NonIncreasing(r)
    ensures multiset(r) == multiset(s)
  {
    if |s| == 0 then []
    else
      assert s == [s[0]] + s[1..];
      InsertBySize(s[0], SortBySizeDesc(s[1..]))
  }

  // ----------------------------------------------------------------- dry run

  function DirectoryOf(it: CleanItem): Option<CleanItem> {
    if it.itemType == Directory then Some(it) else None
  }

  function NonDirectoryOf(it: CleanItem): Option<CleanItem> {
    if it.itemType != Directory then Some(it) else None
  }

  /** The directories, in input order. */
  function Directories(items: seq<CleanItem>): seq<CleanItem> { FilterMap(items, DirectoryOf) }

  /** Files and links together, in input order. */
  function NonDirectories(items: seq<CleanItem>): seq<CleanItem> { FilterMap(items, NonDirectoryOf) }

  /** Every item lands in exactly one of the two groups. */
  lemma {:induction false} PartitionSizes(items: seq<CleanItem>)
    ensures |Directories(items)| + |NonDirectories(items)| == |items|
    ensures forall it :: it in Directories(items) <==> it in items && it.itemType == Directory
    ensures forall it :: it in NonDirectories(items) <==> it in items && it.itemType != Directory
    decreases |items|
  {
    if |items| > 0 {
      PartitionSizes(items[1..]);
      assert items == [items[0]] + items[1..];
    }
  }

  const LISTING_LIMIT: nat := 20

  /** One printed group: the first twenty entries and how many more there are. */
  datatype Section = Section(shown: seq<CleanItem>, more: nat)

  function ListSection(xs: seq<CleanItem>): (r: Section)
    ensures r.shown <= xs
    ensures |r.shown| == if |xs| < LISTING_LIMIT then |xs| else LISTING_LIMIT
    ensures |r.shown| + r.more == |xs|
    ensures r.more > 0 <==> |xs| > LISTING_LIMIT
  {
    if |xs| > LISTING_LIMIT then Section(xs[..LISTING_LIMIT], |xs| - LISTING_LIMIT)
    else Section(xs, 0)
  }

  /** What the dry run prints: each non-empty group, the item count and the
      space that would be freed. */
  datatype DryRunListing = DryRunListing(directories: Option<Section>, files: Option<Section>, total: nat, spaceToFree: nat)

  function Listing(items: seq<CleanItem>): (r: DryRunListing)
    ensures r.directories.Some? <==> exists it :: it in items && it.itemType == Directory
    ensures r.files.Some? <==> exists it :: it in items && it.itemType != Directory
    ensures r.directories.Some? ==> r.directories.value == ListSection(Directories(items))
    ensures r.files.Some? ==> r.files.value == ListSection(NonDirectories(items))
    ensures r.total == |items| && r.spaceToFree == SumMap(items, ItemSize)
  {
    PartitionSizes(items);
    var dirs := Directories(items);
    var files := NonDirectories(items);
    assert dirs != [] ==> dirs[0] in dirs;
    assert files != [] ==> files[0] in files;
    DryRunListing(
      if |dirs| == 0 then None else Some(ListSection(dirs)),
      if |files| == 0 then None else Some(ListSection(files)),
      |items|, SumMap(items, ItemSize))
  }

  /** `dry_run_clean`: every item counts as deleted and its size as freed;
      directories and everything else are counted apart; nothing fails. */
  function DryRunClean(items: seq<CleanItem>): (r: CleanReport)
    ensures r.itemsDeleted == |items| && r.bytesFreed == SumMap(items, ItemSize)
    ensures r.dirsDeleted == |Directories(items)| && r.filesDeleted == |NonDirectories(items)|
    ensures r.dirsDeleted + r.filesDeleted == r.itemsDeleted
    ensures r.errors == [] && r.scanErrors == [] && r.dryRun
    ensures r.duration == 0 && r.scanDuration == 0 && r.entriesScanned == 0
  {
    PartitionSizes(items);
    CleanReport(|items|, SumMap(items, ItemSize), [], [], 0, 0, true,
                |Directories(items)|, |NonDirectories(items)|, 0)
  }
  /** The listing accounts for every item of the dry-run report: in each group
      the shown entries and the "more" count together give the report's
      directory or file count, and at most twenty entries of a group are shown. */
  lemma ListingMatchesReport(items: seq<CleanItem>)
    ensures var l := Listing(items); var r := DryRunClean(items);
      && (if l.directories.Some? then |l.directories.value.shown| + l.directories.value.more else 0) == r.dirsDeleted
      && (if l.files.Some? then |l.files.value.shown| + l.files.value.more else 0) == r.filesDeleted
      && (l.directories.Some? ==> |l.directories.value.shown| <= LISTING_LIMIT)
      && (l.files.Some? ==> |l.files.value.shown| <= LISTING_LIMIT)
      && l.total == r.itemsDeleted && l.spaceToFree == r.bytesFreed
  {
    var l := Listing(items);
    assert l.directories.None? ==> Directories(items) == [];
    assert l.files.None? ==> NonDirectories(items) == [];
  }


  /** A dry run reports the same numbers however the items are ordered. */
  lemma DryRunIgnoresOrder(a: seq<CleanItem>, b: seq<CleanItem>)
    requires multiset(a) == multiset(b)
    ensures DryRunClean(a) == DryRunClean(b)
  {
    SumMapPermutation(a, b, ItemSize);
    FilterMapPermutation(a, b, DirectoryOf);
    FilterMapPermutation(a, b, NonDirectoryOf);
    assert |a| == |multiset(a)|;
    assert |Directories(a)| == |multiset(Directories(a))|;
    assert |NonDirectories(a)| == |multiset(NonDirectories(a))|;
  }

  // ---------------------------------------------------------------- live run

  /** The item, when deleting it succeeds. */
  function Succeeded(ops: FsOps): CleanItem -> Option<CleanItem> {
    (it: CleanItem) => if DeleteItem(ops, it).Done? then Some(it) else None
  }

  /** The error recorded for the item, when deleting it fails. */
  function FailureOf(ops: FsOps): CleanItem -> Option<CleanError> {
    (it: CleanItem) =>
      match DeleteItem(ops, it)
      case Done => None
      case Failed(msg) => Some(CleanError.IoError(it.path, msg))
  }

  function Deleted(ops: FsOps, items: seq<CleanItem>): seq<CleanItem> { FilterMap(items, Succeeded(ops)) }

  function Failures(ops: FsOps, items: seq<CleanItem>): seq<CleanError> { FilterMap(items, FailureOf(ops)) }

  /** Every item either is deleted or yields exactly one error. */
  lemma {:induction false} DeletedOrFailed(ops: FsOps, items: seq<CleanItem>)
    ensures |Deleted(ops, items)| + |Failures(ops, items)| == |items|
    decreases |items|
  {
    if |items| > 0 {
      DeletedOrFailed(ops, items[1..]);
    }
  }

  /** The counters, the error list and the error map while items are processed. */
  datatype Tally = Tally(deleted: nat, freed: nat, errors: seq<CleanError>, byPath: seq<CleanError>)

  /** One item: a success bumps both counters, a failure is pushed onto the
      list and inserted into the map under the item's path. */
  function DeleteStep(ops: FsOps, t: Tally, it: CleanItem): Tally
    requires DistinctKeys(t.byPath, ErrorKey)
  {
    match DeleteItem(ops, it)
    case Done => t.(deleted := t.deleted + 1, freed := t.freed + it.size)
    case Failed(msg) =>
      var e := CleanError.IoError(it.path, msg);
      t.(errors := t.errors + [e], byPath := Upsert(t.byPath, e, ErrorKey))
  }

  /** What one item does to the tally. */
  lemma DeleteStepFacts(ops: FsOps, t: Tally, it: CleanItem)
    requires DistinctKeys(t.byPath, ErrorKey)
    ensures DistinctKeys(DeleteStep(ops, t, it).byPath, ErrorKey)
    ensures DeleteStep(ops, t, it).deleted == t.deleted + |Deleted(ops, [it])|
    ensures DeleteStep(ops, t, it).freed == t.freed + SumMap(Deleted(ops, [it]), ItemSize)
    ensures DeleteStep(ops, t, it).errors == t.errors + Failures(ops, [it])
    ensures forall e :: e in DeleteStep(ops, t, it).byPath ==> e in t.byPath || e in Failures(ops, [it])
    ensures forall e :: e in t.byPath + Failures(ops, [it]) ==>
      exists f :: f in DeleteStep(ops, t, it).byPath && ErrorKey(f) == ErrorKey(e)
  {
    assert [it][1..] == [];
    if DeleteItem(ops, it).Done? {
      assert Deleted(ops, [it]) == [it];
      assert Failures(ops, [it]) == [];
      assert t.byPath + [] == t.byPath;
      assert t.errors + [] == t.errors;
    } else {
      assert Deleted(ops, [it]) == [];
    }
  }

  /** `r` is `t` after `items`: the counters grow by the deleted items, the
      list grows by the failures in order, and the map holds exactly one error
      for every failed path, taken from the failures. */
  predicate Tallied(ops: FsOps, t: Tally, items: seq<CleanItem>, r: Tally) {
    && r.deleted == t.deleted + |Deleted(ops, items)|
    && r.freed == t.freed + SumMap(Deleted(ops, items), ItemSize)
    && r.errors == t.errors + Failures(ops, items)
    && DistinctKeys(r.byPath, ErrorKey)
    && (forall e :: e in r.byPath ==> e in t.byPath || e in Failures(ops, items))
    && (forall e :: e in t.byPath + Failures(ops, items) ==> exists f :: f in r.byPath && ErrorKey(f) == ErrorKey(e))
  }

  /** One item, then the rest. */
  lemma TalliedCons(ops: FsOps, t: Tally, items: seq<CleanItem>, r: Tally)
    requires |items| > 0 && DistinctKeys(t.byPath, ErrorKey)
    requires Tallied(ops, DeleteStep(ops, t, items[0]), items[1..], r)
    ensures Tallied(ops, t, items, r)
  {
    var next := DeleteStep(ops, t, items[0]);
    DeleteStepFacts(ops, t, items[0]);
    assert items == [items[0]] + items[1..];
    FilterMapConcat([items[0]], items[1..], Succeeded(ops));
    FilterMapConcat([items[0]], items[1..], FailureOf(ops));
    SumMapConcat(Deleted(ops, [items[0]]), Deleted(ops, items[1..]), ItemSize);
    ConcatAssoc(t.errors, Failures(ops, [items[0]]), Failures(ops, items[1..]));
    forall e | e in t.byPath + Failures(ops, items)
      ensures exists f :: f in r.byPath && ErrorKey(f) == ErrorKey(e)
    {
      if e in t.byPath + Failures(ops, [items[0]]) {
        var f :| f in next.byPath && ErrorKey(f) == ErrorKey(e);
        assert f in next.byPath + Failures(ops, items[1..]);
      } else {
        assert e in next.byPath + Failures(ops, items[1..]);
      }
    }
  }

  /** The fold of `DeleteStep` over the items. */
  function DeleteFrom(ops: FsOps, t: Tally, items: seq<CleanItem>): (r: Tally)
    requires DistinctKeys(t.byPath, ErrorKey)
    ensures Tallied(ops, t, items, r)
    decreases |items|
  {
    if |items| == 0 then
      assert t.errors + [] == t.errors;
      assert t.byPath + [] == t.byPath;
      t
    else
      var r := DeleteFrom(ops, DeleteStep(ops, t, items[0]), items[1..]);
      TalliedCons(ops, t, items, r);
      r
  }

  /** Items given to `clean` become this. */
  datatype CleanOutcome = CleanOutcome(report: CleanReport, cleaner: ParallelCleaner)

  /** `clean`: a dry run is delegated; otherwise the items are sorted largest
      first, the counters and the error map are reset, every item is deleted,
      and the report carries the counters and the error list. `elapsed` is the
      clock reading taken around the deletions. */
  function Clean(c: ParallelCleaner, ops: FsOps, items: seq<CleanItem>, elapsed: nat): (r: CleanOutcome)
    ensures c.dryRun ==> r == CleanOutcome(DryRunClean(items), c)
    ensures !c.dryRun ==> r.report.itemsDeleted == |Deleted(ops, items)|
    ensures !c.dryRun ==> r.report.bytesFreed == SumMap(Deleted(ops, items), ItemSize)
    ensures !c.dryRun ==> multiset(r.report.errors) == multiset(Failures(ops, items))
    ensures !c.dryRun ==> r.report.itemsDeleted + |r.report.errors| == |items|
    ensures !c.dryRun ==> !r.report.dryRun && r.report.scanErrors == [] && r.report.duration == elapsed
    ensures !c.dryRun ==> r.report.dirsDeleted == 0 && r.report.filesDeleted == 0 && r.report.entriesScanned == 0
    ensures !c.dryRun ==> r.cleaner.(stats := c.stats) == c
    ensures !c.dryRun ==> r.cleaner.stats.itemsDeleted == r.report.itemsDeleted
    ensures !c.dryRun ==> r.cleaner.stats.bytesFreed == r.report.bytesFreed
    ensures !c.dryRun ==> DistinctKeys(r.cleaner.stats.errors, ErrorKey)
    ensures !c.dryRun ==> forall e :: e in r.cleaner.stats.errors ==> e in r.report.errors
    ensures !c.dryRun ==> forall e :: e in r.report.errors ==>
      exists f :: f in r.cleaner.stats.errors && ErrorKey(f) == ErrorKey(e)
  {
    if c.dryRun then CleanOutcome(DryRunClean(items), c)
    else
      var sorted := SortBySizeDesc(items);
      var t := DeleteFrom(ops, Tally(0, 0, [], []), sorted);
      FilterMapPermutation(sorted, items, Succeeded(ops));
      FilterMapPermutation(sorted, items, FailureOf(ops));
      SumMapPermutation(Deleted(ops, sorted), Deleted(ops, items), ItemSize);
      DeletedOrFailed(ops, items);
      assert |Deleted(ops, sorted)| == |multiset(Deleted(ops, sorted))|;
      assert |Failures(ops, sorted)| == |multiset(Failures(ops, sorted))|;
      assert [] + Failures(ops, sorted) == Failures(ops, sorted);
      var report := CleanReport(t.deleted, t.freed, t.errors, [], elapsed, 0, false, 0, 0, 0);
      CleanOutcome(report, c.(stats := Statistics(t.deleted, t.freed, t.byPath)))
  }

  /** The counters are reset first: what a run reports, and the statistics it
      leaves, do not depend on what earlier runs left behind. */
  lemma CleanIgnoresPriorStats(c: ParallelCleaner, ops: FsOps, items: seq<CleanItem>, elapsed: nat, prior: Statistics)
    ensures Clean(c.(stats := prior), ops, items, elapsed).report == Clean(c, ops, items, elapsed).report
    ensures !c.dryRun ==> Clean(c.(stats := prior), ops, items, elapsed).cleaner == Clean(c, ops, items, elapsed).cleaner
  {
  }

  /** A dry run predicts a live run exactly when every deletion succeeds: the
      same count, the same bytes, no errors. */
  lemma DryRunPredictsLiveRun(c: ParallelCleaner, ops: FsOps, items: seq<CleanItem>, elapsed: nat)
    requires !c.dryRun
    ensures (forall it :: it in items ==> DeleteItem(ops, it).Done?) ==>
      && Clean(c, ops, items, elapsed).report.itemsDeleted == DryRunClean(items).itemsDeleted
      && Clean(c, ops, items, elapsed).report.bytesFreed == DryRunClean(items).bytesFreed
      && Clean(c, ops, items, elapsed).report.errors == []
    ensures Clean(c, ops, items, elapsed).report.itemsDeleted == DryRunClean(items).itemsDeleted
      ==> forall it :: it in items ==> DeleteItem(ops, it).Done?
  {
    if forall it :: it in items ==> DeleteItem(ops, it).Done? {
      AllSucceed(ops, items);
    }
    forall it | it in items && DeleteItem(ops, it).Failed?
      ensures Clean(c, ops, items, elapsed).report.itemsDeleted < |items|
    {
      var i :| 0 <= i < |items| && items[i] == it;
      assert FailureOf(ops)(items[i]).Some?;
      assert FailureOf(ops)(items[i]).value in Failures(ops, items);
      DeletedOrFailed(ops, items);
    }
  }

  /** When nothing fails, everything is deleted. */
  lemma {:induction false} AllSucceed(ops: FsOps, items: seq<CleanItem>)
    requires forall it :: it in items ==> DeleteItem(ops, it).Done?
    ensures Deleted(ops, items) == items
    ensures Failures(ops, items) == []
    decreases |items|
  {
    if |items| > 0 {
      assert items[0] in items;
      assert forall it :: it in items[1..] ==> it in items;
      AllSucceed(ops, items[1..]);
      assert items == [items[0]] + items[1..];
    }
  }
}
