/** The library entry point: compile the configured patterns, scan the root,
    prune nested items, and either report that there is nothing to clean or
    hand the items to the parallel cleaner. Everything the entry point gets
    from outside (the glob library, the filesystem, the walker, the pruning
    step, the deletion calls, the CPU count and the clocks) is a field of the
    environment. */
module Pipeline {
  import opened Wrappers
  import opened Types
  import opened Seqs
  import opened FileSystem
  import Configuration
  import Patterns
  import Scanning
  import Cleaning

  /** `mc::Cleaner`: a configuration and three flags. */
  datatype Cleaner = Cleaner(config: Configuration.Config, dryRun: bool, quiet: bool, verbose: bool)

  function New(config: Configuration.Config): (r: Cleaner)
    ensures r.config == config && !r.dryRun && !r.quiet && !r.verbose
  {
    Cleaner(config, false, false, false)
  }

  function WithDryRun(c: Cleaner, dryRun: bool): (r: Cleaner)
    ensures r.dryRun == dryRun && r.(dryRun := c.dryRun) == c
  {
    c.(dryRun := dryRun)
  }

  function WithQuiet(c: Cleaner, quiet: bool): (r: Cleaner)
    ensures r.quiet == quiet && r.(quiet := c.quiet) == c
  {
    c.(quiet := quiet)
  }

  function WithVerbose(c: Cleaner, verbose: bool): (r: Cleaner)
    ensures r.verbose == verbose && r.(verbose := c.verbose) == c
  {
    c.(verbose := verbose)
  }

  /** Everything one run depends on besides the cleaner and the root.
      `walk(root, depth, follow)` is the directory walk with those settings;
      `prune` is the nested-item pruning step; `entriesScanned` is the entry
      count the scan hands back; the durations are clock readings. */
  datatype Environment = Environment(
    glob: Patterns.GlobEngine,
    fs: Fs,
    walk: (Path, nat, bool) -> seq<Scanning.WalkResult>,
    prune: seq<CleanItem> -> seq<CleanItem>,
    ops: Cleaning.FsOps,
    cpus: Option<nat>,
    entriesScanned: nat,
    scanDuration: nat,
    cleanDuration: nat)

  /** The scanner `clean` builds: the configured depth, and links followed
      exactly when they are not to be preserved. */
  function ScannerFor(c: Cleaner, root: Path, m: Patterns.PatternMatcher): (r: Scanning.Scanner)
    ensures r.root == root && r.matcher == m && r.tracker.None?
    ensures r.maxDepth == c.config.safety.maxDepth
    ensures r.followSymlinks <==> !c.config.options.preserveSymlinks
  {
    Scanning.WithSymlinks(
      Scanning.WithMaxDepth(Scanning.New(root, m), c.config.safety.maxDepth),
      !c.config.options.preserveSymlinks)
  }

  function Scanned(c: Cleaner, env: Environment, root: Path, m: Patterns.PatternMatcher): Scanning.ScanResult {
    var s := ScannerFor(c, root, m);
    Scanning.Scan(s, env.glob, env.fs, env.walk(root, s.maxDepth, s.followSymlinks))
  }

  /** The items left to delete after pruning. */
  function ToClean(c: Cleaner, env: Environment, root: Path, m: Patterns.PatternMatcher): seq<CleanItem> {
    env.prune(Scanned(c, env, root, m).items)
  }

  /** The cleaner `clean` builds: the configured thread count and the dry-run flag. */
  function ParallelCleanerFor(c: Cleaner, env: Environment): (r: Cleaning.ParallelCleaner)
    ensures r.threadCount == c.config.options.parallelThreads
    ensures r.dryRun == c.dryRun
    ensures r.stats == Cleaning.Statistics(0, 0, [])
  {
    Cleaning.WithDryRun(Cleaning.WithThreads(Cleaning.New(env.cpus), c.config.options.parallelThreads), c.dryRun)
  }

  /** The scan's results, as `clean` copies them into every report. */
  function WithScanResults(report: CleanReport, errors: seq<ScanError>, env: Environment): CleanReport {
    report.(scanErrors := errors, scanDuration := env.scanDuration, entriesScanned := env.entriesScanned)
  }

  /** `Cleaner::clean`: an invalid pattern aborts the run; otherwise the scan
      errors, the scan duration and the entry count always reach the report;
      with nothing left after pruning the report is otherwise the default one,
      and otherwise it is the parallel cleaner's. */
  function Clean(c: Cleaner, env: Environment, root: Path): (r: Result<CleanReport, McError>)
    ensures Patterns.New(env.glob, c.config.patterns).Err? ==>
      r == Err(McError.Pattern(Patterns.New(env.glob, c.config.patterns).error.pattern))
    ensures Patterns.New(env.glob, c.config.patterns).Ok? ==>
      var m := Patterns.New(env.glob, c.config.patterns).value;
      && r.Ok?
      && r.value.scanErrors == Scanned(c, env, root, m).errors
      && r.value.scanDuration == env.scanDuration
      && r.value.entriesScanned == env.entriesScanned
      && (|ToClean(c, env, root, m)| == 0 ==>
            r.value == WithScanResults(DefaultReport(), Scanned(c, env, root, m).errors, env))
      && (|ToClean(c, env, root, m)| > 0 ==>
            r.value == WithScanResults(
              Cleaning.Clean(ParallelCleanerFor(c, env), env.ops, ToClean(c, env, root, m), env.cleanDuration).report,
              Scanned(c, env, root, m).errors, env))
  {
    match Patterns.New(env.glob, c.config.patterns)
    case Err(e) => Err(McError.Pattern(e.pattern))
    case Ok(m) =>
      var scanned := Scanned(c, env, root, m);
      var items := env.prune(scanned.items);
      if |items| == 0 then Ok(WithScanResults(DefaultReport(), scanned.errors, env))
      else
        var out := Cleaning.Clean(ParallelCleanerFor(c, env), env.ops, items, env.cleanDuration);
        Ok(WithScanResults(out.report, scanned.errors, env))
  }

  /** `Cleaner::dry_run`: `clean` on a copy with the dry-run flag set. */
  function DryRun(c: Cleaner, env: Environment, root: Path): (r: Result<CleanReport, McError>)
    ensures r.Ok? <==> Patterns.New(env.glob, c.config.patterns).Ok?
    ensures r.Ok? ==>
      var items := ToClean(c, env, root, Patterns.New(env.glob, c.config.patterns).value);
      && r.value.itemsDeleted == |items|
      && r.value.bytesFreed == SumMap(items, ItemSize)
      && r.value.errors == []
      && (r.value.dryRun <==> |items| > 0)
  {
    Clean(WithDryRun(c, true), env, root)
  }

  /** The run fails exactly when one of the configured patterns (directories,
      then files, then exclusions) does not compile, and it names the first. */
  lemma InvalidPatternAborts(c: Cleaner, env: Environment, root: Path)
    ensures var all := c.config.patterns.directories + c.config.patterns.files + c.config.patterns.exclude;
      && (Clean(c, env, root).Err? <==> exists j :: 0 <= j < |all| && !env.glob.compiles(all[j]))
      && (Clean(c, env, root).Err? ==>
            Clean(c, env, root).error == McError.Pattern(all[Patterns.FirstInvalid(env.glob, all).value]))
  {
    Patterns.NewFailsOnFirstInvalid(env.glob, c.config.patterns);
  }

  /** A dry run never depends on what the deletion calls would do. */
  lemma DryRunNeverDeletes(c: Cleaner, env: Environment, root: Path, other: Cleaning.FsOps)
    ensures DryRun(c, env, root) == DryRun(c, env.(ops := other), root)
  {
  }

  /** In a live run every item left after pruning is either counted as deleted
      or reported as an error, and the bytes freed are those of the deleted items. */
  lemma LiveRunAccountsForEveryItem(c: Cleaner, env: Environment, root: Path)
    requires !c.dryRun && Patterns.New(env.glob, c.config.patterns).Ok?
    ensures Clean(c, env, root).Ok?
    ensures var m := Patterns.New(env.glob, c.config.patterns).value;
      var items := ToClean(c, env, root, m);
      && Clean(c, env, root).value.itemsDeleted + |Clean(c, env, root).value.errors| == |items|
      && Clean(c, env, root).value.bytesFreed == SumMap(Cleaning.Deleted(env.ops, items), ItemSize)
      && multiset(Clean(c, env, root).value.errors) == multiset(Cleaning.Failures(env.ops, items))
  {
    var m := Patterns.New(env.glob, c.config.patterns).value;
    var items := ToClean(c, env, root, m);
    if |items| == 0 {
      assert Cleaning.Deleted(env.ops, items) == [];
      assert Cleaning.Failures(env.ops, items) == [];
    }
  }

  /** When every deletion succeeds, a live run reports what the dry run predicted. */
  lemma DryRunPredictsClean(c: Cleaner, env: Environment, root: Path)
    requires Patterns.New(env.glob, c.config.patterns).Ok?
    requires forall it :: it in ToClean(c, env, root, Patterns.New(env.glob, c.config.patterns).value) ==>
      Cleaning.DeleteItem(env.ops, it).Done?
    ensures Clean(WithDryRun(c, false), env, root).Ok? && DryRun(c, env, root).Ok?
    ensures Clean(WithDryRun(c, false), env, root).value.itemsDeleted == DryRun(c, env, root).value.itemsDeleted
    ensures Clean(WithDryRun(c, false), env, root).value.bytesFreed == DryRun(c, env, root).value.bytesFreed
    ensures Clean(WithDryRun(c, false), env, root).value.errors == []
  {
    var live := WithDryRun(c, false);
    var m := Patterns.New(env.glob, c.config.patterns).value;
    var items := ToClean(live, env, root, m);
    assert items == ToClean(c, env, root, m);
    if |items| > 0 {
      Cleaning.DryRunPredictsLiveRun(ParallelCleanerFor(live, env), env.ops, items, env.cleanDuration);
    }
  }

  /** With nothing to delete the report is the default one, so even a dry run
      reports `dry_run = false` and a live run reports no time spent cleaning. */
  lemma NothingToCleanIsDefault(c: Cleaner, env: Environment, root: Path)
    requires Patterns.New(env.glob, c.config.patterns).Ok?
    requires |ToClean(c, env, root, Patterns.New(env.glob, c.config.patterns).value)| == 0
    ensures Clean(c, env, root).Ok?
    ensures !Clean(c, env, root).value.dryRun
    ensures Clean(c, env, root).value.itemsDeleted == 0 && Clean(c, env, root).value.bytesFreed == 0
    ensures Clean(c, env, root).value.errors == [] && Clean(c, env, root).value.duration == 0
  {
  }

  /** The default configuration hands the scanner exactly the settings
      `Scanner::new` would have chosen: depth 10, links not followed. */
  lemma DefaultConfigKeepsScannerDefaults(builtin: Configuration.PatternConfig, cpus: nat, root: Path, m: Patterns.PatternMatcher)
    ensures ScannerFor(New(Configuration.DefaultConfig(builtin, cpus)), root, m) == Scanning.New(root, m)
  {
  }

  /** `prune_nested_items` only ever drops items. */
  ghost predicate PruneOnlyDrops(env: Environment) {
    forall xs: seq<CleanItem>, it :: it in env.prune(xs) ==> it in xs
  }

  /** A tree whose non-directory entries are all empty frees nothing, however
      many items it holds. */
  lemma EmptyTreeFreesNothing(c: Cleaner, env: Environment, root: Path)
    requires PruneOnlyDrops(env)
    requires forall q :: q in env.fs.nodes && env.fs.nodes[q].kind != Dir ==> env.fs.nodes[q].len == 0
    ensures Clean(c, env, root).Ok? ==> Clean(c, env, root).value.bytesFreed == 0
  {
    match Patterns.New(env.glob, c.config.patterns)
    case Err(_) =>
    case Ok(m) =>
      var s := ScannerFor(c, root, m);
      var walk := env.walk(root, s.maxDepth, s.followSymlinks);
      var items := ToClean(c, env, root, m);
      forall it | it in items ensures it.size == 0 {
        assert it in Scanned(c, env, root, m).items;
        var i :| 0 <= i < |walk| && walk[i] == Scanning.Entry(it.path)
          && Scanning.ProcessEntry(s, env.glob, env.fs, walk[i].path) == Some(it);
        EmptyFilesWeighNothing(env.fs.nodes, env.fs.listing, it.path);
      }
      ZeroSizes(items);
      if |items| > 0 && !c.dryRun {
        var deleted := Cleaning.Deleted(env.ops, items);
        assert forall it :: it in deleted ==> it in items;
        ZeroSizes(deleted);
      }
  }

  /** The tree the library's own tests build: `node_modules/package/index.js`
      and `target/debug/app.exe` are created as directories, and `app.log` as
      an empty file. Directories report their own metadata length, which the
      size computation never reads. */
  function Fixture(root: Path): map<Path, Node> {
    var nm := root + [Name("node_modules")];
    var tg := root + [Name("target")];
    map[
      root := Node(Dir, 4096),
      nm := Node(Dir, 4096),
      nm + [Name("package")] := Node(Dir, 4096),
      nm + [Name("package"), Name("index.js")] := Node(Dir, 4096),
      tg := Node(Dir, 4096),
      tg + [Name("debug")] := Node(Dir, 4096),
      tg + [Name("debug"), Name("app.exe")] := Node(Dir, 4096),
      root + [Name("app.log")] := Node(Regular, 0)
    ]
  }

  /** On that tree every run, dry or live, frees 0 bytes, whatever is matched
      and however the walk is ordered. */
  lemma FixtureFreesNothing(c: Cleaner, env: Environment, root: Path)
    requires PruneOnlyDrops(env)
    requires env.fs.nodes == Fixture(root)
    ensures Clean(c, env, root).Ok? ==> Clean(c, env, root).value.bytesFreed == 0
  {
    forall q | q in env.fs.nodes && env.fs.nodes[q].kind != Dir ensures env.fs.nodes[q].len == 0 {
      assert q == root + [Name("app.log")];
    }
    EmptyTreeFreesNothing(c, env, root);
  }

  /** A directory item holding a regular file with content frees at least that
      file's length: the dry run reports positive bytes, and so does the live
      run when every deletion succeeds. */
  lemma NonEmptyFileFreesBytes(c: Cleaner, env: Environment, root: Path, it: CleanItem, q: Path)
    requires Valid(env.fs) && PruneOnlyDrops(env)
    requires Patterns.New(env.glob, c.config.patterns).Ok?
    requires it in ToClean(c, env, root, Patterns.New(env.glob, c.config.patterns).value)
    requires it.itemType == Directory && q in FilesBeneath(env.fs.nodes, it.path)
    ensures DryRun(c, env, root).Ok? && DryRun(c, env, root).value.bytesFreed >= env.fs.nodes[q].len
    ensures (forall x :: x in ToClean(c, env, root, Patterns.New(env.glob, c.config.patterns).value) ==>
               Cleaning.DeleteItem(env.ops, x).Done?) ==>
      Clean(WithDryRun(c, false), env, root).value.bytesFreed >= env.fs.nodes[q].len
  {
    var m := Patterns.New(env.glob, c.config.patterns).value;
    var s := ScannerFor(c, root, m);
    var walk := env.walk(root, s.maxDepth, s.followSymlinks);
    var items := ToClean(c, env, root, m);
    assert it in Scanned(c, env, root, m).items;
    var i :| 0 <= i < |walk| && walk[i] == Scanning.Entry(it.path)
      && Scanning.ProcessEntry(s, env.glob, env.fs, walk[i].path) == Some(it);
    assert env.fs.nodes[it.path].kind == Dir;
    FileCountsTowardsDir(env.fs, it.path, q);
    SumMapMember(items, ItemSize, it);
    if forall x :: x in items ==> Cleaning.DeleteItem(env.ops, x).Done? {
      DryRunPredictsClean(c, env, root);
    }
  }

  /** Items of size zero weigh nothing together. */
  lemma {:induction false} ZeroSizes(items: seq<CleanItem>)
    requires forall it :: it in items ==> it.size == 0
    ensures SumMap(items, ItemSize) == 0
    decreases |items|
  {
    if |items| > 0 {
      assert items[0] in items;
      assert forall it :: it in items[1..] ==> it in items;
      ZeroSizes(items[1..]);
    }
  }
}
