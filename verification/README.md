# mc, modelled in Dafny

`mc` is a parallel build-directory cleaner. It walks a directory tree and
classifies every entry against glob patterns (exclusions first, then directory
patterns, then file patterns, gated by the entry's type). Matching entries are
collected as clean items keyed by path, with a directory weighing the regular
files beneath it. The items are then deleted in parallel, or in a dry run only
listed, and the result is summed up in a `CleanReport`.

This project models the part of `mc` that decides what is deleted and how the
results are added up. Everything is a pure function over immutable data:

| module | file | models |
|---|---|---|
| `Wrappers` | `wrappers.dfy` | `Option` and `Result` |
| `Seqs` | `seqs.dfy` | the folds that stand in for parallel loops, with their permutation lemmas, and the keyed insert that stands in for a concurrent map |
| `Types` | `types.dfy` | `src/types.rs`: items, matches, categories and labels, errors, the report |
| `FileSystem` | `filesystem.dfy` | the filesystem as a finite map from segment paths to (type, length), plus the order a walker lists it in |
| `Progress` | `progress.dfy` | `CategoryTracker`, `ScanStats` and the counter part of `CompactDisplay::inc_entry` |
| `Configuration` | `config.dfy` | the `Default` impls and `Config::merge_cli_args` |
| `Patterns` | `matcher.dfy` | `PatternMatcher`: construction, classification, runtime additions |
| `Scanning` | `scanner.dfy` | `Scanner`: per-entry logic, error conversion, the keyed result maps, the tracker |
| `Cleaning` | `cleaner.dfy` | `ParallelCleaner`: sorting, the dry run, live deletion accounting |
| `Pipeline` | `pipeline.dfy` | `mc::Cleaner`: compile, scan, prune, clean |

## Abstractions

- **Outside inputs.** The glob library is a `GlobEngine` value with three functions: whether a pattern compiles, whether a pattern matches a name, and the built-in category table.
- **Deletion calls.** `fs::remove_dir_all` and `fs::remove_file` form an `FsOps` oracle returning success or a message.
- **Directory walk.** The walk is a given sequence of entries and failures. The pipeline obtains it from a function of the root, the depth limit and the link-following flag.
- **Pruning.** `prune_nested_items` is a function parameter of the pipeline. Its body is not part of this model.
- **Parallel loops.** Parallel loops are sequential folds. Concurrent maps keyed by path are sequences kept free of duplicate keys: an insert replaces the element with the same key or appends. Lemmas show that the order of processing does not change:
  - the items reported;
  - the error paths;
  - the tracker readings;
  - the dry-run numbers;
  - the live counters.
- **Directory sizes.** A directory's size is computed in listing order, as the walker does. `DirBytesIsSumBeneath` proves it equal to an order-free sum over the set of regular files strictly beneath the directory.
- **Pattern priority.** The priority `idx as u32` is truncated modulo 2^32.

## Model

| member | source | states |
|---|---|---|
| Types.LabelInjective | src/types.rs:79-88 | no two categories share a label |
| Types.AsU32 | src/patterns/matcher.rs:134 | the `as u32` cast of a list index stays below 2^32 and keeps every index that fits |
| FileSystem.ListedFileBytesIsSum | src/engine/scanner.rs:186-193 | the walker's running sum over a repetition-free listing equals the order-free total length of the listed regular files beneath the directory |
| FileSystem.DirBytesIsSumBeneath | src/engine/scanner.rs:184-197 | on a filesystem whose listing names each entry once, a directory's computed size is the total length of all regular files strictly beneath it, whatever the walk order |
| FileSystem.EmptyFilesWeighNothing | src/engine/scanner.rs:186-193 | a tree whose regular files are all empty gives every directory size 0 |
| Progress.AddItem | src/utils/progress.rs:157-167 | `add_item(c, s)` raises `c`'s count by 1 and size by `s` and leaves every other category as it was |
| Progress.NeverAddedReadsZero | src/utils/progress.rs:170-183 | a category never added to reads count 0 and size 0 |
| Progress.SumsAfterAddItem | src/utils/progress.rs:186-199 | over a list of distinct categories, one `add_item` raises the summed count by 1 and the summed size by `s` exactly when its category is listed |
| Progress.TotalsAfterAddItem | src/utils/progress.rs:186-199 | one `add_item` raises the total count by 1 and the total size by its size |
| Progress.AddItemsPerCategory | src/utils/progress.rs:157-183 | after a run of `add_item` calls each category holds the number and the bytes of its own calls |
| Progress.AddItemsOrderIndependent | src/utils/progress.rs:157-167 | the per-category readings do not depend on the order of the `add_item` calls |
| Progress.TotalsAfterAddItems | src/utils/progress.rs:186-199 | the totals grow by the number of calls and by the bytes they carry |
| Progress.BreakdownOf | src/utils/progress.rs:206-224 | a category appears in the breakdown iff it is among the categories scanned and its count is positive; each part carries its label, count and size |
| Progress.BreakdownOfKeepsOrder | src/utils/progress.rs:206-224 | the parts follow the fixed category order: when the categories are listed in increasing rank, so are the parts |
| Progress.BreakdownOrderIsComplete | src/utils/progress.rs:206-213 | the fixed order lists every category once, in increasing rank |
| Progress.FormatBreakdown | src/utils/progress.rs:202-227 | the breakdown lists exactly the categories with a positive count, in the order Dependencies, BuildOutputs, Cache, IDE, Logs, Other, each with its label, count and size |
| Progress.IncEntry | src/utils/progress.rs:52-54 | `inc_entry` raises `entries_scanned` by one and changes no other counter |
| Progress.IncDir | src/utils/progress.rs:57-59 | `inc_dir` raises `dirs_scanned` by one and changes no other counter |
| Progress.IncFile | src/utils/progress.rs:62-64 | `inc_file` raises `files_scanned` by one and changes no other counter |
| Progress.IncMatched | src/utils/progress.rs:67-70 | `inc_matched(s)` raises `items_matched` by one and `bytes_matched` by `s`, nothing else |
| Progress.DisplayIncEntryKeepsBalance | src/utils/progress.rs:289-297 | the display's `inc_entry` raises `entries_scanned` and exactly one of the directory or file counters, so entries = directories + files is kept |
| Progress.DisplayIncEntriesBalanced | src/utils/progress.rs:289-297 | any run of display `inc_entry` calls keeps entries = directories + files and counts every call |
| Progress.IncMatchedAllTotals | src/utils/progress.rs:67-70 | a run of `inc_matched` calls counts every call and sums their sizes, leaving the entry count alone |
| Configuration.DefaultConfig | src/config/mod.rs:175-220 | the default configuration uses the built-in pattern lists, depth 10, and has confirmation, statistics, link preservation and the git check all on |
| Configuration.FilePatterns | src/config/mod.rs:152-155 | an include lands in the file list iff it contains `.` or `*` |
| Configuration.DirectoryPatterns | src/config/mod.rs:156-159 | an include lands in the directory list iff it contains neither `.` nor `*` |
| Configuration.AppendIfAbsent | src/config/mod.rs:144-146 | a pattern is appended only when absent; the result holds the old list followed by only new, distinct entries |
| Configuration.AppendAllAbsent | src/config/mod.rs:143-147 | after the loop the list holds exactly the old entries and the given ones, with old entries untouched, no duplicate added, and the new entries in the order they first occur in the input (which fixes their priorities) |
| Configuration.AppendAllAbsentPresent | src/config/mod.rs:143-147 | patterns already present change nothing |
| Configuration.AddIncludesSplits | src/config/mod.rs:150-161 | the interleaved include loop equals appending the file-like includes to `files` and the rest to `directories` |
| Configuration.MergeCliArgs | src/config/mod.rs:136-172 | merging only appends new entries to the three pattern lists, leaves options and safety alone, and afterwards every CLI exclude (and with `preserve_env` both env files) is excluded and every include is in the list its shape selects |
| Configuration.MergeCliArgsIdempotent | src/config/mod.rs:136-172 | merging the same arguments twice changes nothing the second time |
| Configuration.PreserveEnvAddsTwo | src/config/mod.rs:164-171 | with neither env file excluded yet, `preserve_env` grows the exclude list by exactly `.env` and `.env.example` |
| Configuration.MergeNewPatternsGrowByOne | src/config/mod.rs:271-293 | one new exclude, one file-like and one directory-like include grow each list by exactly one |
| Patterns.FirstInvalid | src/patterns/matcher.rs:53-55 | finds the first pattern that fails to compile, or reports that all compile |
| Patterns.CompilePatterns | src/patterns/matcher.rs:53-55 | compilation succeeds iff every pattern compiles, keeping them in order; otherwise the error is the one from the first pattern that fails to compile |
| Patterns.CompileWithCategories | src/patterns/matcher.rs:58-70 | as above, and each pattern is paired with its category from the built-in table |
| Patterns.New | src/patterns/matcher.rs:44-50 | a built matcher holds the directory and file lists with their categories and the exclude list, in configuration order |
| Patterns.NewFailsOnFirstInvalid | src/patterns/matcher.rs:44-50 | construction succeeds iff every directory, file and exclude pattern compiles, and otherwise the error is the one from the first pattern, in that order, that fails to compile |
| Patterns.IsExcluded | src/patterns/matcher.rs:160-166 | a path is excluded iff it has a UTF-8 file name that some exclude pattern matches |
| Patterns.Candidates | src/patterns/matcher.rs:117-126 | directories try directory patterns only, regular files try file patterns only, links and unknown types try both, other types neither |
| Patterns.FindFirst | src/patterns/matcher.rs:129-154 | returns the first position whose pattern matches, or none iff no pattern matches |
| Patterns.MatchesWithType | src/patterns/matcher.rs:104-157 | an excluded path or one without a UTF-8 name never matches; a match comes from configuration and its priority fits in 32 bits |
| Patterns.ExcludeOverridesInclude | src/patterns/matcher.rs:110-112 | a matching exclude pattern wins over any include pattern |
| Patterns.DirectoryPatternWins | src/patterns/matcher.rs:129-140 | for a directory-capable entry the first matching directory pattern wins, with its index as priority and its text and category |
| Patterns.FilePatternWins | src/patterns/matcher.rs:143-154 | when no directory pattern applies, the first matching file pattern wins, with its index as priority and its text and category |
| Patterns.NoApplicablePatternMeansNone | src/patterns/matcher.rs:104-157 | when no pattern of an applicable list matches, there is no match |
| Patterns.TypeGating | src/patterns/matcher.rs:117-126 | a directory is classified by the directory list alone, a regular file by the file list alone, and a special file never matches |
| Patterns.AddIncludePatterns | src/patterns/matcher.rs:176-188 | adding includes leaves the exclude list alone, grows the include lists by the patterns processed, and fails iff some pattern does not compile, with the error from the first that fails |
| Patterns.AddIncludePatternsFiles | src/patterns/matcher.rs:176-188 | the file list grows by the processed patterns containing `.` or `*`, in order, with their categories |
| Patterns.AddIncludePatternsDirectories | src/patterns/matcher.rs:176-188 | the directory list grows by the other processed patterns, in order, with their categories |
| Patterns.AddExcludePatterns | src/patterns/matcher.rs:197-202 | the exclude list grows by the patterns up to the first one that fails to compile; the include lists are unchanged |
| Scanning.New | src/engine/scanner.rs:52-61 | a new scanner has depth 10, does not follow links and has no tracker |
| Scanning.WithMaxDepth | src/engine/scanner.rs:64-67 | sets the depth and nothing else |
| Scanning.WithSymlinks | src/engine/scanner.rs:70-73 | sets link following and nothing else |
| Scanning.WithCategoryTracker | src/engine/scanner.rs:82-85 | attaches the tracker and nothing else |
| Scanning.DetermineType | src/engine/scanner.rs:200-208 | directories are `Directory`, links `Symlink`, and regular and special files `File` |
| Scanning.CalculateSizeIsTotal | src/engine/scanner.rs:184-197 | a directory weighs the total of the regular files beneath it, anything else its own length |
| Scanning.ProcessEntry | src/engine/scanner.rs:146-172 | an entry is an item iff it is not the root, it matches and its metadata is readable; the item carries its path, the match, its type and its size |
| Scanning.ScanErrorOf | src/engine/scanner.rs:119-129 | a walk failure with a loop ancestor is a cycle, any other an I/O error with the walker's message, charged to the root when it has no path |
| Scanning.ScanFrom | src/engine/scanner.rs:109-132 | processing more results keeps one item and one error per path, adds exactly the items the results yield, and tells the tracker about each |
| Scanning.Scan | src/engine/scanner.rs:97-143 | the items are exactly those the walk's entries yield, at most one per path; each failure's path has an error, and every error comes from a failure; the tracker receives one `add_item` per matched entry |
| Scanning.ItemsFromEntries | src/engine/scanner.rs:111-118 | every reported item is what `process_entry` yields for some listed entry at its path, and every such yield is reported |
| Scanning.ErrorsFromFailures | src/engine/scanner.rs:119-129 | every reported error stems from a walk failure, and every walk failure's path carries an error |
| Scanning.ScanItemsAreProduced | src/engine/scanner.rs:111-118 | the reported items are exactly the items the entries produce |
| Scanning.ScanTrackerTotals | src/engine/scanner.rs:159-161 | when the walk lists each path once, the tracker's totals grow by the number of reported items and by their total size |
| Scanning.ScanIgnoresOrder | src/engine/scanner.rs:108-132 | processing the walk's results in any order reports the same items, errors for the same paths and the same per-category readings |
| Cleaning.New | src/engine/cleaner.rs:67-81 | a new cleaner uses one thread per logical CPU (4 when unknown), chunks of one, no dry run and zeroed statistics |
| Cleaning.WithThreads | src/engine/cleaner.rs:84-93 | sets the thread count and nothing else |
| Cleaning.WithDryRun | src/engine/cleaner.rs:99-102 | sets the dry-run flag and nothing else |
| Cleaning.DeleteItem | src/engine/cleaner.rs:196-221 | a directory is removed recursively; a file or a link is unlinked, never following the link |
| Cleaning.InsertBySize | src/engine/cleaner.rs:136 | inserting into a largest-first list keeps it largest first and adds exactly the one item |
| Cleaning.SortBySizeDesc | src/engine/cleaner.rs:136 | the sorted items are a permutation of the input with non-increasing sizes |
| Cleaning.PartitionSizes | src/engine/cleaner.rs:237-242 | every item is in exactly one group: directories, or everything else including links |
| Cleaning.ListSection | src/engine/cleaner.rs:247-257 | a printed group shows exactly its first `min(len, 20)` items, and the "... and N more" count is `len - 20` when there are more than 20 and absent otherwise |
| Cleaning.Listing | src/engine/cleaner.rs:245-282 | a group is printed iff it is non-empty, and the printed group is the section of the directories (or of the other items) just described; the footer gives the item count and the total size |
| Cleaning.ListingMatchesReport | src/engine/cleaner.rs:224-299 | what the dry run prints agrees with the report it returns: each group's shown entries plus its "more" count give `dirs_deleted` or `files_deleted`, and the footer gives `items_deleted` and `bytes_freed` |
| Cleaning.DryRunClean | src/engine/cleaner.rs:224-299 | a dry run counts every item as deleted and its size as freed, counts directories and other items apart (adding up to the item count), and reports no errors |
| Cleaning.DryRunIgnoresOrder | src/engine/cleaner.rs:224-242 | the dry-run report is the same for any ordering of the items |
| Cleaning.DeletedOrFailed | src/engine/cleaner.rs:150-169 | every item is either deleted or yields exactly one error |
| Cleaning.DeleteFrom | src/engine/cleaner.rs:148-171 | processing items bumps the counters by the deleted items and their sizes, appends one `IoError` per failure with that item's path, and keeps one error per failed path in the map |
| Cleaning.Clean | src/engine/cleaner.rs:128-190 | a live run reports the number and bytes of the items whose deletion succeeded and one error per failure, and deleted + errors = items, whatever the processing order; statistics end equal to the report's counters; a dry run is delegated untouched |
| Cleaning.CleanIgnoresPriorStats | src/engine/cleaner.rs:138-140 | the counters are reset first, so a run's report and final statistics do not depend on earlier runs |
| Cleaning.DryRunPredictsLiveRun | src/engine/cleaner.rs:128-190 | a live run reports what the dry run predicts iff every deletion succeeds |
| Pipeline.New | src/lib.rs:100-107 | a new cleaner keeps the configuration and starts with dry run, quiet and verbose off |
| Pipeline.WithDryRun | src/lib.rs:114-117 | sets the dry-run flag and nothing else |
| Pipeline.WithQuiet | src/lib.rs:124-127 | sets the quiet flag and nothing else |
| Pipeline.WithVerbose | src/lib.rs:133-136 | sets the verbose flag and nothing else |
| Pipeline.ScannerFor | src/lib.rs:161-163 | the scanner uses the configured depth and follows links exactly when they are not preserved |
| Pipeline.ParallelCleanerFor | src/lib.rs:196-199 | the cleaner uses the configured thread count and the dry-run flag |
| Pipeline.Clean | src/lib.rs:154-211 | an invalid pattern aborts with a pattern error; otherwise scan errors, scan duration and entry count always reach the report, which is the default one when pruning leaves nothing and the parallel cleaner's otherwise |
| Pipeline.DryRun | src/lib.rs:225-229 | a dry run succeeds iff the patterns compile, and then reports every pruned item and its size as deleted with no errors; `dry_run` is set iff there was something to clean |
| Pipeline.InvalidPatternAborts | src/lib.rs:158 | the run fails iff some configured pattern does not compile, with the error from the first pattern that fails |
| Pipeline.DryRunNeverDeletes | src/lib.rs:225-229 | a dry run does not depend on the deletion calls at all |
| Pipeline.LiveRunAccountsForEveryItem | src/lib.rs:196-205 | in a live run every pruned item is counted as deleted or reported as an error, and the bytes freed are those of the deleted items |
| Pipeline.DryRunPredictsClean | src/lib.rs:154-229 | when every deletion succeeds, the live run reports the dry run's count and bytes and no errors |
| Pipeline.NothingToCleanIsDefault | src/lib.rs:177-186 | with nothing left after pruning the report has zero counts, no clean errors, no cleaning time and `dry_run` false, even in a dry run |
| Pipeline.DefaultConfigKeepsScannerDefaults | src/lib.rs:161-163 | under the default configuration the pipeline's scanner settings coincide with `Scanner::new`'s |
| Pipeline.EmptyTreeFreesNothing | src/lib.rs:154-211 | when pruning only drops items and every non-directory entry is empty, a successful run frees 0 bytes |
| Pipeline.FixtureFreesNothing | src/lib.rs:238-284 | on the tree the library's tests build, every successful run, dry or live, frees 0 bytes |
| Pipeline.NonEmptyFileFreesBytes | src/lib.rs:154-229 | a cleaned directory holding a regular file with content frees at least that file's length, in a dry run and in a live run whose deletions all succeed |
| FileSystem.FileCountsTowardsDir | src/engine/scanner.rs:186-193 | each regular file beneath a directory counts towards the directory's size |

## Left out

- **Output.** Printing, colours, size formatting, progress bars, the `Progress` hooks, the display throttle and the quiet/verbose effects on output are not modelled. They change no result.
- **Clocks.** Durations are abstract readings supplied as inputs.
- **Entry count.** The scan in `src/engine/scanner.rs` returns a pair, but `src/lib.rs:171` destructures three values. The entry count is therefore an opaque input that is passed through to the report.
- **Pruning.** `prune_nested_items` is not part of this model. The pipeline receives it as a function. Only `EmptyTreeFreesNothing`, `FixtureFreesNothing` and `NonEmptyFileFreesBytes` assume anything about it: that it only drops items.
- **Glob matching.** Glob syntax and matching, and the built-in pattern table with its categories, are not part of this model. They are the uninterpreted fields of `GlobEngine`.
- **The walk.** The walk itself is a given sequence: depth limits, the order of entries, and which failures and loops are reported are the walker's business. `Pipeline.ScannerFor` fixes only which settings the walker is asked for.
- **Following links.** When links are followed, `DirEntry::metadata` reads the link's target. The model always uses the entry's own metadata, which is what the default configuration asks for (links preserved, so not followed).
- **Windows.** The Windows branch of `delete_item` is not modelled. Links are always unlinked with `remove_file`.
- **Integer widths.** The u64/usize wrap-around of the atomic counters and sums is not modelled: counters are unbounded naturals. Only the `as u32` priority cast is truncated.
- **Thread pool.** Thread-pool construction and its failure are not modelled. Neither are chunk sizes' effect on scheduling, mutex poisoning, or concurrent interleavings beyond order independence.
- Scanning.Scan: when two failures share a path, the concurrent map keeps whichever insert came last. The model keeps the later one in walk order, so the contract states only that every failure's path is present and every stored error comes from some failure.
- Cleaning.Clean: the report's error list is in the order the parallel loop pushes it. The contract states it up to permutation only.
- **Outside the core.** The safety guards, the CLI, configuration loading and TOML handling, `main.rs` orchestration and `CategoryTracker` use in `main.rs` are left out. So are the benchmarks and the `mod.rs` re-exports.
- Cleaning.SortBySizeDesc: the contract states order and permutation but not stability. The insertion used is stable, as `sort_by` is.
- **Pattern errors.** `Pattern::new` fails with glob's `PatternError`, which carries a position and a message, and `McError::Pattern` wraps it unchanged. The model labels the error with the text of the failing pattern in their place, since glob's parser is not modelled; which pattern's error is reported is modelled exactly.
- Scanning.CalculateSizeIsTotal: every entry beneath a directory is taken to be readable. `calculate_size` silently skips entries whose walk step or metadata read fails, so on a partly unreadable tree the real size can be smaller than the sum stated.
- **Built-in patterns in the tests.** The library's tests expect three items from their fixture. That count depends on the built-in pattern table, which is not part of this model.

## Findings

| source | as written | input that shows it | evidently intended | confidence | as-written member | corrected member |
|---|---|---|---|---|---|---|
| src/lib.rs:238-284 | the test fixture creates `node_modules/package/index.js` and `target/debug/app.exe` with `create_dir_all`, so they are directories, and `app.log` with `touch`, so it is empty; `test_dry_run` and `test_actual_clean` then assert `bytes_freed > 0` | that fixture: no regular file has content, so every item's size is 0 and `bytes_freed` is 0 | `index.js` (or `app.exe`) created as a file with content, so that the cleaned directory weighs more than 0 bytes and the assertion holds | medium, not executed | Pipeline.FixtureFreesNothing | Pipeline.NonEmptyFileFreesBytes |
