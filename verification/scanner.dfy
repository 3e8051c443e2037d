/** The scanner: every entry the directory walk yields is matched against the
    patterns; matches become clean items keyed by path, walk failures become
    scan errors keyed by path, and an attached category tracker is told about
    every match. The source processes the collected entries in parallel; here
    they are folded in walk order, and the lemmas at the end show the order
    does not change what is reported. */
module Scanning {
  import opened Wrappers
  import opened Types
  import opened Seqs
  import opened FileSystem
  import opened Progress
  import Patterns

  const SCANNER_MAX_DEPTH: nat := 10

  datatype Scanner = Scanner(
    root: Path,
    matcher: Patterns.PatternMatcher,
    maxDepth: nat,
    followSymlinks: bool,
    tracker: Option<CategoryTracker>)

  /** `Scanner::new`: depth 10, links not followed, no tracker. */
  function New(root: Path, matcher: Patterns.PatternMatcher): (r: Scanner)
    ensures r.root == root && r.matcher == matcher
    ensures r.maxDepth == SCANNER_MAX_DEPTH && !r.followSymlinks && r.tracker.None?
  {
    Scanner(root, matcher, SCANNER_MAX_DEPTH, false, None)
  }

  function WithMaxDepth(s: Scanner, depth: nat): (r: Scanner)
    ensures r.maxDepth == depth
    ensures r.(maxDepth := s.maxDepth) == s
  {
    s.(maxDepth := depth)
  }

  function WithSymlinks(s: Scanner, follow: bool): (r: Scanner)
    ensures r.followSymlinks == follow
    ensures r.(followSymlinks := s.followSymlinks) == s
  {
    s.(followSymlinks := follow)
  }

  function WithCategoryTracker(s: Scanner, t: CategoryTracker): (r: Scanner)
    ensures r.tracker == Some(t)
    ensures r.(tracker := s.tracker) == s
  {
    s.(tracker := Some(t))
  }

  /** One result of the directory walk: an entry, or a failure that may carry
      the path it happened at and may be a link loop. */
  datatype WalkResult =
    | Entry(path: Path)
    | WalkError(loopAncestor: bool, at: Option<Path>, message: string)

  /** `determine_type`: directories first, then links, everything else is a file. */
  function DetermineType(meta: Node): (r: ItemType)
    ensures r == Directory <==> meta.kind == Dir
    ensures r == Symlink <==> meta.kind == Link
    ensures r == File <==> meta.kind == Regular || meta.kind == Special
  {
    match meta.kind
    case Dir => Directory
    case Link => Symlink
    case Regular => File
    case Special => File
  }

  /** `calculate_size`: a directory weighs the regular files beneath it, in the
      order a fresh walk of it lists them; anything else weighs its own length. */
  function CalculateSize(fs: Fs, path: Path, meta: Node): nat {
    if meta.kind == Dir then ListedFileBytes(fs.nodes, fs.listing, path) else meta.len
  }

  /** The size is independent of the walker's order: a directory weighs the sum
      of the lengths of all regular files strictly beneath it. */
  lemma CalculateSizeIsTotal(fs: Fs, path: Path, meta: Node)
    requires Valid(fs)
    ensures meta.kind == Dir ==> CalculateSize(fs, path, meta) == SumLens(fs.nodes, FilesBeneath(fs.nodes, path))
    ensures meta.kind != Dir ==> CalculateSize(fs, path, meta) == meta.len
  {
    if meta.kind == Dir {
      DirBytesIsSumBeneath(fs, path);
    }
  }

  /** `process_entry`: the root is never an item; otherwise an entry is an item
      when it matches and its metadata can be read. */
  function ProcessEntry(s: Scanner, g: Patterns.GlobEngine, fs: Fs, path: Path): (r: Option<CleanItem>)
    ensures r.Some? <==> path != s.root && Patterns.Matches(s.matcher, g, fs, path).Some? && path in fs.nodes
    ensures r.Some? ==> r.value.path == path
    ensures r.Some? ==> r.value.pattern == Patterns.Matches(s.matcher, g, fs, path).value
    ensures r.Some? ==> r.value.itemType == DetermineType(fs.nodes[path])
    ensures r.Some? ==> r.value.size == CalculateSize(fs, path, fs.nodes[path])
  {
    if path == s.root then None
    else match Patterns.Matches(s.matcher, g, fs, path)
      case None => None
      case Some(pm) =>
        match SymlinkMetadata(fs, path)
        case None => None
        case Some(meta) => Some(CleanItem(path, CalculateSize(fs, path, meta), DetermineType(meta), pm))
  }

  /** A walk failure as a scan error: a link loop is a cycle, anything else an
      I/O error; a failure without a path is charged to the root. */
  function ScanErrorOf(root: Path, w: WalkResult): (r: ScanError)
    requires w.WalkError?
    ensures ScanErrorPath(r) == w.at.GetOr(root)
    ensures r.SymlinkCycle? <==> w.loopAncestor
    ensures r.IoError? ==> r.message == w.message
  {
    var path := w.at.GetOr(root);
    if w.loopAncestor then SymlinkCycle(path) else ScanError.IoError(path, w.message)
  }

  /** The item an entry of the walk yields, if any. */
  function EntryItem(s: Scanner, g: Patterns.GlobEngine, fs: Fs): WalkResult -> Option<CleanItem> {
    (w: WalkResult) => if w.Entry? then ProcessEntry(s, g, fs, w.path) else None
  }

  /** The error a result of the walk yields, if any. */
  function EntryError(root: Path): WalkResult -> Option<ScanError> {
    (w: WalkResult) => if w.WalkError? then Some(ScanErrorOf(root, w)) else None
  }

  /** Every item the walk yields, once per entry, in walk order. */
  function Produced(s: Scanner, g: Patterns.GlobEngine, fs: Fs, walk: seq<WalkResult>): seq<CleanItem> {
    FilterMap(walk, EntryItem(s, g, fs))
  }

  /** Every error the walk yields, once per failure, in walk order. */
  function WalkErrors(root: Path, walk: seq<WalkResult>): seq<ScanError> {
    FilterMap(walk, EntryError(root))
  }

  /** The `add_item` calls for a sequence of items. */
  function Adds(items: seq<CleanItem>): (r: seq<(PatternCategory, nat)>)
    ensures |r| == |items|
  {
    if |items| == 0 then [] else [(items[0].pattern.category, items[0].size)] + Adds(items[1..])
  }

  /** An optional tracker after it has been told about `items`. */
  function Track(t: Option<CategoryTracker>, items: seq<CleanItem>): Option<CategoryTracker> {
    match t
    case Some(tr) => Some(AddItems(tr, Adds(items)))
    case None => None
  }

  function ErrorPaths(errors: seq<ScanError>): seq<Path> {
    seq(|errors|, i requires 0 <= i < |errors| => errors[i].path)
  }

  /** The two concurrent maps and the shared tracker. */
  datatype ScanState = ScanState(items: seq<CleanItem>, errors: seq<ScanError>, tracker: Option<CategoryTracker>)

  /** Both maps are keyed by path, and every stored item is the one its path yields. */
  predicate Consistent(s: Scanner, g: Patterns.GlobEngine, fs: Fs, st: ScanState) {
    && DistinctKeys(st.items, ItemPath)
    && DistinctKeys(st.errors, ScanErrorPath)
    && (forall it :: it in st.items ==> ProcessEntry(s, g, fs, it.path) == Some(it))
  }

  /** One walk result: an item is inserted under its path and reported to the
      tracker; an error is inserted under its path. */
  function Step(s: Scanner, g: Patterns.GlobEngine, fs: Fs, st: ScanState, w: WalkResult): ScanState
    requires DistinctKeys(st.items, ItemPath) && DistinctKeys(st.errors, ScanErrorPath)
  {
    match w
    case Entry(p) =>
      (match ProcessEntry(s, g, fs, p)
       case Some(it) => ScanState(Upsert(st.items, it, ItemPath), st.errors, Step1(st.tracker, it))
       case None => st)
    case WalkError(_, _, _) =>
      st.(errors := Upsert(st.errors, ScanErrorOf(s.root, w), ScanErrorPath))
  }

  /** Telling the tracker about one item, then the rest, is telling it about all. */
  lemma TrackCons(t: Option<CategoryTracker>, it: CleanItem, items: seq<CleanItem>)
    ensures Track(t, [it] + items) == Track(Step1(t, it), items)
  {
    assert ([it] + items)[1..] == items;
  }

  /** The tracker after one `add_item` call for `it`. */
  function Step1(t: Option<CategoryTracker>, it: CleanItem): Option<CategoryTracker> {
    match t
    case Some(tr) => Some(AddItem(tr, it.pattern.category, it.size))
    case None => None
  }

  /** What one step does to the state. */
  lemma StepFacts(s: Scanner, g: Patterns.GlobEngine, fs: Fs, st: ScanState, w: WalkResult)
    requires Consistent(s, g, fs, st)
    ensures Consistent(s, g, fs, Step(s, g, fs, st, w))
    ensures forall it :: it in Step(s, g, fs, st, w).items <==> it in st.items || EntryItem(s, g, fs)(w) == Some(it)
    ensures forall e :: e in Step(s, g, fs, st, w).errors ==> e in st.errors || EntryError(s.root)(w) == Some(e)
    ensures forall e :: e in st.errors ==> e.path in ErrorPaths(Step(s, g, fs, st, w).errors)
    ensures Track(st.tracker, FilterMap([w], EntryItem(s, g, fs))) == Track(Step(s, g, fs, st, w).tracker, [])
  {
    var next := Step(s, g, fs, st, w);
    if w.Entry? && ProcessEntry(s, g, fs, w.path).Some? {
      var x := ProcessEntry(s, g, fs, w.path).value;
      assert forall y :: y in next.items ==> y == x || y in st.items;
      forall y | y in st.items ensures y in next.items {
        if y.path == x.path {
          assert ProcessEntry(s, g, fs, y.path) == Some(y);
        }
      }
      assert FilterMap([w], EntryItem(s, g, fs)) == [x];
      TrackCons(st.tracker, x, []);
    } else {
      assert FilterMap([w], EntryItem(s, g, fs)) == [];
    }
    forall e | e in st.errors ensures e.path in ErrorPaths(next.errors) {
      var y: ScanError :| y in next.errors && y.path == e.path;
      var k :| 0 <= k < |next.errors| && next.errors[k] == y;
      assert ErrorPaths(next.errors)[k] == e.path;
    }
  }

  /** Every error is listed among the paths of the errors. */
  lemma PathsListed(errors: seq<ScanError>)
    ensures forall e :: e in errors ==> e.path in ErrorPaths(errors)
  {
    forall e | e in errors ensures e.path in ErrorPaths(errors) {
      var k :| 0 <= k < |errors| && errors[k] == e;
      assert ErrorPaths(errors)[k] == e.path;
    }
  }

  /** Telling a tracker about `a` and then `b` is telling it about `a + b`. */
  lemma {:induction false} TrackConcat(t: Option<CategoryTracker>, a: seq<CleanItem>, b: seq<CleanItem>)
    ensures Track(t, a + b) == Track(Track(t, a), b)
    decreases |a|
  {
    if |a| > 0 {
      assert a + b == [a[0]] + (a[1..] + b);
      assert a == [a[0]] + a[1..];
      TrackCons(t, a[0], a[1..] + b);
      TrackCons(t, a[0], a[1..]);
      TrackConcat(Step1(t, a[0]), a[1..], b);
    } else {
      assert a + b == b;
      if t.Some? {
        assert Adds(a) == [];
      }
    }
  }

  /** The fold of `Step` over the rest of the walk. */
  function ScanFrom(s: Scanner, g: Patterns.GlobEngine, fs: Fs, st: ScanState, walk: seq<WalkResult>): (r: ScanState)
    requires Consistent(s, g, fs, st)
    ensures Consistent(s, g, fs, r)
    ensures forall it :: it in r.items <==> it in st.items || it in Produced(s, g, fs, walk)
    ensures forall e :: e in r.errors ==> e in st.errors || e in WalkErrors(s.root, walk)
    ensures forall e :: e in st.errors ==> e.path in ErrorPaths(r.errors)
    ensures forall e :: e in WalkErrors(s.root, walk) ==> e.path in ErrorPaths(r.errors)
    ensures r.tracker == Track(st.tracker, Produced(s, g, fs, walk))
    decreases |walk|
  {
    if |walk| == 0 then
      PathsListed(st.errors);
      assert Track(st.tracker, []) == st.tracker by {
        if st.tracker.Some? { assert Adds([]) == []; }
      }
      st
    else
      var next := Step(s, g, fs, st, walk[0]);
      StepFacts(s, g, fs, st, walk[0]);
      var r := ScanFrom(s, g, fs, next, walk[1..]);
      assert walk == [walk[0]] + walk[1..];
      FilterMapConcat([walk[0]], walk[1..], EntryItem(s, g, fs));
      FilterMapConcat([walk[0]], walk[1..], EntryError(s.root));
      TrackConcat(st.tracker, FilterMap([walk[0]], EntryItem(s, g, fs)), Produced(s, g, fs, walk[1..]));
      assert Track(Track(next.tracker, []), Produced(s, g, fs, walk[1..])) == r.tracker by {
        assert Track(next.tracker, []) == next.tracker by {
          if next.tracker.Some? { assert Adds([]) == []; }
        }
      }
      r
  }

  /** What `scan` returns, together with the tracker it has been reporting to. */
  datatype ScanResult = ScanResult(items: seq<CleanItem>, errors: seq<ScanError>, tracker: Option<CategoryTracker>)

  /** `scan` over a given walk: the items are exactly those the entries yield,
      one per path; every failure is reported under its path, and no other
      error is; the tracker has been told about every matched entry. */
  function Scan(s: Scanner, g: Patterns.GlobEngine, fs: Fs, walk: seq<WalkResult>): (r: ScanResult)
    ensures DistinctKeys(r.items, ItemPath) && DistinctKeys(r.errors, ScanErrorPath)
    ensures forall it :: it in r.items ==>
      exists i :: 0 <= i < |walk| && walk[i] == Entry(it.path) && ProcessEntry(s, g, fs, walk[i].path) == Some(it)
    ensures forall i :: 0 <= i < |walk| && walk[i].Entry? && ProcessEntry(s, g, fs, walk[i].path).Some? ==>
      ProcessEntry(s, g, fs, walk[i].path).value in r.items
    ensures forall e :: e in r.errors ==>
      exists i :: 0 <= i < |walk| && walk[i].WalkError? && ScanErrorOf(s.root, walk[i]) == e
    ensures forall i :: 0 <= i < |walk| && walk[i].WalkError? ==>
      walk[i].at.GetOr(s.root) in ErrorPaths(r.errors)
    ensures r.tracker == Track(s.tracker, Produced(s, g, fs, walk))
  {
    var st := ScanFrom(s, g, fs, ScanState([], [], s.tracker), walk);
    ItemsFromEntries(s, g, fs, walk, st);
    ErrorsFromFailures(s, g, fs, walk, st);
    ScanResult(st.items, st.errors, st.tracker)
  }
  /** The items of a fold from nothing are the entries' items, and conversely. */
  lemma ItemsFromEntries(s: Scanner, g: Patterns.GlobEngine, fs: Fs, walk: seq<WalkResult>, st: ScanState)
    requires st == ScanFrom(s, g, fs, ScanState([], [], s.tracker), walk)
    ensures forall it :: it in st.items ==>
      exists i :: 0 <= i < |walk| && walk[i] == Entry(it.path) && ProcessEntry(s, g, fs, walk[i].path) == Some(it)
    ensures forall i :: 0 <= i < |walk| && walk[i].Entry? && ProcessEntry(s, g, fs, walk[i].path).Some? ==>
      ProcessEntry(s, g, fs, walk[i].path).value in st.items
  {
    forall it | it in st.items
      ensures exists i :: 0 <= i < |walk| && walk[i] == Entry(it.path) && ProcessEntry(s, g, fs, walk[i].path) == Some(it)
    {
      var i :| 0 <= i < |walk| && EntryItem(s, g, fs)(walk[i]) == Some(it);
      assert walk[i] == Entry(it.path);
    }
    forall i | 0 <= i < |walk| && walk[i].Entry? && ProcessEntry(s, g, fs, walk[i].path).Some?
      ensures ProcessEntry(s, g, fs, walk[i].path).value in st.items
    {
      assert EntryItem(s, g, fs)(walk[i]).Some?;
    }
  }

  /** The errors of a fold from nothing come from the walk's failures, and
      every failure is reported under its path. */
  lemma ErrorsFromFailures(s: Scanner, g: Patterns.GlobEngine, fs: Fs, walk: seq<WalkResult>, st: ScanState)
    requires st == ScanFrom(s, g, fs, ScanState([], [], s.tracker), walk)
    ensures forall e :: e in st.errors ==>
      exists i :: 0 <= i < |walk| && walk[i].WalkError? && ScanErrorOf(s.root, walk[i]) == e
    ensures forall i :: 0 <= i < |walk| && walk[i].WalkError? ==> walk[i].at.GetOr(s.root) in ErrorPaths(st.errors)
  {
    forall e | e in st.errors
      ensures exists i :: 0 <= i < |walk| && walk[i].WalkError? && ScanErrorOf(s.root, walk[i]) == e
    {
      var i :| 0 <= i < |walk| && EntryError(s.root)(walk[i]) == Some(e);
    }
    forall i | 0 <= i < |walk| && walk[i].WalkError?
      ensures walk[i].at.GetOr(s.root) in ErrorPaths(st.errors)
    {
      assert EntryError(s.root)(walk[i]).Some?;
      assert ScanErrorOf(s.root, walk[i]) in WalkErrors(s.root, walk);
    }
  }


  /** A walk that does not follow links lists every path at most once. */
  predicate DistinctEntries(walk: seq<WalkResult>) {
    forall i, j :: 0 <= i < j < |walk| && walk[i].Entry? && walk[j].Entry? ==> walk[i].path != walk[j].path
  }

  /** Items produced by distinct entries are distinct. */
  lemma {:induction false} ProducedDistinct(s: Scanner, g: Patterns.GlobEngine, fs: Fs, walk: seq<WalkResult>)
    requires DistinctEntries(walk)
    ensures Distinct(Produced(s, g, fs, walk))
    decreases |walk|
  {
    if |walk| > 0 {
      var rest := walk[1..];
      assert DistinctEntries(rest) by {
        forall i, j | 0 <= i < j < |rest| && rest[i].Entry? && rest[j].Entry?
          ensures rest[i].path != rest[j].path
        {
          assert rest[i] == walk[i + 1] && rest[j] == walk[j + 1];
        }
      }
      ProducedDistinct(s, g, fs, rest);
      var f := EntryItem(s, g, fs);
      if f(walk[0]).Some? {
        var x := f(walk[0]).value;
        var tail := Produced(s, g, fs, rest);
        assert Produced(s, g, fs, walk) == [x] + tail;
        forall k | 0 <= k < |rest| && f(rest[k]).Some? ensures f(rest[k]) != Some(x) {
          assert walk[k + 1] == rest[k];
        }
        assert forall k :: 0 < k < |[x] + tail| ==> ([x] + tail)[k] == tail[k - 1];
      }
    }
  }

  /** The bytes reported to the tracker are the sizes of the items. */
  lemma {:induction false} AddsBytes(items: seq<CleanItem>)
    ensures SumMap(Adds(items), AddedBytes) == SumMap(items, ItemSize)
    decreases |items|
  {
    if |items| > 0 {
      AddsBytes(items[1..]);
    }
  }

  function AddOf(it: CleanItem): Option<(PatternCategory, nat)> {
    Some((it.pattern.category, it.size))
  }

  /** `Adds` maps each item to exactly one call. */
  lemma {:induction false} AddsIsFilterMap(items: seq<CleanItem>)
    ensures Adds(items) == FilterMap(items, AddOf)
    decreases |items|
  {
    if |items| > 0 {
      AddsIsFilterMap(items[1..]);
    }
  }

  /** So it commutes with reordering. */
  lemma AddsPermutation(a: seq<CleanItem>, b: seq<CleanItem>)
    requires multiset(a) == multiset(b)
    ensures multiset(Adds(a)) == multiset(Adds(b))
  {
    AddsIsFilterMap(a);
    AddsIsFilterMap(b);
    FilterMapPermutation(a, b, AddOf);
  }

  /** The items reported are exactly the items produced. */
  lemma ScanItemsAreProduced(s: Scanner, g: Patterns.GlobEngine, fs: Fs, walk: seq<WalkResult>)
    ensures forall it :: it in Scan(s, g, fs, walk).items <==> it in Produced(s, g, fs, walk)
  {
    var r := Scan(s, g, fs, walk);
    var f := EntryItem(s, g, fs);
    forall it ensures it in r.items <==> it in Produced(s, g, fs, walk) {
      if it in r.items {
        var i :| 0 <= i < |walk| && walk[i] == Entry(it.path) && ProcessEntry(s, g, fs, walk[i].path) == Some(it);
        assert f(walk[i]) == Some(it);
      }
      if it in Produced(s, g, fs, walk) {
        var i :| 0 <= i < |walk| && f(walk[i]) == Some(it);
      }
    }
  }

  /** With a walk that lists every path once, the tracker sees exactly one
      `add_item` call per reported item: its totals grow by the number of
      items and by their total size. */
  lemma ScanTrackerTotals(s: Scanner, g: Patterns.GlobEngine, fs: Fs, walk: seq<WalkResult>, t: CategoryTracker)
    requires s.tracker == Some(t) && DistinctEntries(walk)
    ensures Scan(s, g, fs, walk).tracker.Some?
    ensures TotalCount(Scan(s, g, fs, walk).tracker.value) == TotalCount(t) + |Scan(s, g, fs, walk).items|
    ensures TotalSize(Scan(s, g, fs, walk).tracker.value) == TotalSize(t) + SumMap(Scan(s, g, fs, walk).items, ItemSize)
  {
    var r := Scan(s, g, fs, walk);
    var produced := Produced(s, g, fs, walk);
    ProducedDistinct(s, g, fs, walk);
    ScanItemsAreProduced(s, g, fs, walk);
    assert Distinct(r.items) by {
      forall i, j | 0 <= i < j < |r.items| ensures r.items[i] != r.items[j] {
        assert ItemPath(r.items[i]) != ItemPath(r.items[j]);
      }
    }
    SameElementsPermutation(r.items, produced);
    TotalsAfterAddItems(t, Adds(produced));
    AddsBytes(produced);
    SumMapPermutation(r.items, produced, ItemSize);
  }

  /** The order in which the walk's results are processed does not matter:
      a reordered walk reports the same items, errors under the same paths,
      and the same per-category readings. */
  lemma ScanIgnoresOrder(s: Scanner, g: Patterns.GlobEngine, fs: Fs, w1: seq<WalkResult>, w2: seq<WalkResult>, c: PatternCategory)
    requires multiset(w1) == multiset(w2)
    ensures forall it :: it in Scan(s, g, fs, w1).items <==> it in Scan(s, g, fs, w2).items
    ensures forall p :: p in ErrorPaths(Scan(s, g, fs, w1).errors) <==> p in ErrorPaths(Scan(s, g, fs, w2).errors)
    ensures s.tracker.Some? ==>
      && GetCount(Scan(s, g, fs, w1).tracker.value, c) == GetCount(Scan(s, g, fs, w2).tracker.value, c)
      && GetSize(Scan(s, g, fs, w1).tracker.value, c) == GetSize(Scan(s, g, fs, w2).tracker.value, c)
  {
    ScanItemsAreProduced(s, g, fs, w1);
    ScanItemsAreProduced(s, g, fs, w2);
    FilterMapPermutation(w1, w2, EntryItem(s, g, fs));
    var p1 := Produced(s, g, fs, w1);
    var p2 := Produced(s, g, fs, w2);
    assert forall it :: it in p1 <==> it in multiset(p1);
    assert forall it :: it in p2 <==> it in multiset(p2);
    ErrorPathsIgnoreOrder(s, g, fs, w1, w2);
    ErrorPathsIgnoreOrder(s, g, fs, w2, w1);
    if s.tracker.Some? {
      AddsPermutation(p1, p2);
      AddItemsOrderIndependent(s.tracker.value, Adds(p1), Adds(p2), c);
    }
  }

  /** An error path reported for one walk is reported for any reordering. */
  lemma ErrorPathsIgnoreOrder(s: Scanner, g: Patterns.GlobEngine, fs: Fs, w1: seq<WalkResult>, w2: seq<WalkResult>)
    requires multiset(w1) == multiset(w2)
    ensures forall p :: p in ErrorPaths(Scan(s, g, fs, w1).errors) ==> p in ErrorPaths(Scan(s, g, fs, w2).errors)
  {
    var e1 := Scan(s, g, fs, w1).errors;
    forall p | p in ErrorPaths(e1) ensures p in ErrorPaths(Scan(s, g, fs, w2).errors) {
      var k :| 0 <= k < |e1| && ErrorPaths(e1)[k] == p;
      assert e1[k] in e1;
      var i :| 0 <= i < |w1| && w1[i].WalkError? && ScanErrorOf(s.root, w1[i]) == e1[k];
      assert w1[i] in multiset(w2);
      var j :| 0 <= j < |w2| && w2[j] == w1[i];
    }
  }
}
