/** The counters behind the progress display: per-category totals of matched
    items and the scan statistics. The source keeps them in atomics and a
    concurrent map; here each update returns a new value. */
module Progress {
  import opened Types
  import opened Seqs

  /** Item count and byte total per category. An absent key reads as zero. */
  datatype CategoryTracker = CategoryTracker(counts: map<PatternCategory, nat>, sizes: map<PatternCategory, nat>)

  function NewTracker(): CategoryTracker {
    CategoryTracker(map[], map[])
  }

  function GetCount(t: CategoryTracker, c: PatternCategory): nat {
    if c in t.counts then t.counts[c] else 0
  }

  function GetSize(t: CategoryTracker, c: PatternCategory): nat {
    if c in t.sizes then t.sizes[c] else 0
  }

  /** Records one item of `size` bytes under `c`. */
  function AddItem(t: CategoryTracker, c: PatternCategory, size: nat): (r: CategoryTracker)
    ensures GetCount(r, c) == GetCount(t, c) + 1
    ensures GetSize(r, c) == GetSize(t, c) + size
    ensures forall d :: d != c ==> GetCount(r, d) == GetCount(t, d) && GetSize(r, d) == GetSize(t, d)
  {
    CategoryTracker(t.counts[c := GetCount(t, c) + 1], t.sizes[c := GetSize(t, c) + size])
  }

  /** A category that was never added reads as zero items and zero bytes. */
  lemma NeverAddedReadsZero(c: PatternCategory)
    ensures GetCount(NewTracker(), c) == 0 && GetSize(NewTracker(), c) == 0
  {
  }

  /** The fixed order in which the breakdown lists categories. */
  const BreakdownOrder: seq<PatternCategory> := [Dependencies, BuildOutputs, Cache, IDE, Logs, Other]

  /** The position of a category in `BreakdownOrder`. */
  function Rank(c: PatternCategory): (r: nat)
    ensures r < |BreakdownOrder| && BreakdownOrder[r] == c
  {
    match c
    case Dependencies => 0
    case BuildOutputs => 1
    case Cache => 2
    case IDE => 3
    case Logs => 4
    case Other => 5
  }

  function SumCounts(t: CategoryTracker, cs: seq<PatternCategory>): nat {
    if |cs| == 0 then 0 else GetCount(t, cs[0]) + SumCounts(t, cs[1..])
  }

  function SumSizes(t: CategoryTracker, cs: seq<PatternCategory>): nat {
    if |cs| == 0 then 0 else GetSize(t, cs[0]) + SumSizes(t, cs[1..])
  }

  /** `total_count`: the sum of the per-category counts. Every category occurs
      once in `BreakdownOrder`, and absent categories read as zero, so summing
      along it is summing over the map. */
  function TotalCount(t: CategoryTracker): nat {
    SumCounts(t, BreakdownOrder)
  }

  /** `total_size`: the sum of the per-category byte totals. */
  function TotalSize(t: CategoryTracker): nat {
    SumSizes(t, BreakdownOrder)
  }

  lemma {:induction false} SumsAfterAddItem(t: CategoryTracker, c: PatternCategory, size: nat, cs: seq<PatternCategory>)
    requires Distinct(cs)
    ensures SumCounts(AddItem(t, c, size), cs) == SumCounts(t, cs) + (if c in cs then 1 else 0)
    ensures SumSizes(AddItem(t, c, size), cs) == SumSizes(t, cs) + (if c in cs then size else 0)
    decreases |cs|
  {
    if |cs| > 0 {
      assert Distinct(cs[1..]) by {
        forall i, j | 0 <= i < j < |cs[1..]| ensures cs[1..][i] != cs[1..][j] {
          assert cs[1..][i] == cs[i + 1] && cs[1..][j] == cs[j + 1];
        }
      }
      SumsAfterAddItem(t, c, size, cs[1..]);
      if cs[0] == c {
        assert c !in cs[1..] by {
          forall k | 0 <= k < |cs[1..]| ensures cs[1..][k] != c {
            assert cs[1..][k] == cs[k + 1];
          }
        }
      } else {
        assert c in cs <==> c in cs[1..];
      }
    }
  }

  /** Each `add_item` raises the total count by one and the total size by its size. */
  lemma TotalsAfterAddItem(t: CategoryTracker, c: PatternCategory, size: nat)
    ensures TotalCount(AddItem(t, c, size)) == TotalCount(t) + 1
    ensures TotalSize(AddItem(t, c, size)) == TotalSize(t) + size
  {
    assert Distinct(BreakdownOrder);
    assert c == BreakdownOrder[Rank(c)];
    SumsAfterAddItem(t, c, size, BreakdownOrder);
  }

  /** A sequence of `add_item(category, size)` calls, applied in order. */
  function AddItems(t: CategoryTracker, adds: seq<(PatternCategory, nat)>): CategoryTracker
    decreases |adds|
  {
    if |adds| == 0 then t else AddItems(AddItem(t, adds[0].0, adds[0].1), adds[1..])
  }

  /** Counts one call when it is for category `c`. */
  function CallsFor(c: PatternCategory): ((PatternCategory, nat)) -> nat {
    (a: (PatternCategory, nat)) => if a.0 == c then 1 else 0
  }

  /** The bytes one call adds to category `c`. */
  function BytesFor(c: PatternCategory): ((PatternCategory, nat)) -> nat {
    (a: (PatternCategory, nat)) => if a.0 == c then a.1 else 0
  }

  function AddedBytes(a: (PatternCategory, nat)): nat { a.1 }

  /** After a run of calls, each category holds its own calls and bytes. */
  lemma {:induction false} AddItemsPerCategory(t: CategoryTracker, adds: seq<(PatternCategory, nat)>, c: PatternCategory)
    ensures GetCount(AddItems(t, adds), c) == GetCount(t, c) + SumMap(adds, CallsFor(c))
    ensures GetSize(AddItems(t, adds), c) == GetSize(t, c) + SumMap(adds, BytesFor(c))
    decreases |adds|
  {
    if |adds| > 0 {
      AddItemsPerCategory(AddItem(t, adds[0].0, adds[0].1), adds[1..], c);
    }
  }

  /** The per-category readings do not depend on the order of the calls. */
  lemma AddItemsOrderIndependent(t: CategoryTracker, a: seq<(PatternCategory, nat)>, b: seq<(PatternCategory, nat)>, c: PatternCategory)
    requires multiset(a) == multiset(b)
    ensures GetCount(AddItems(t, a), c) == GetCount(AddItems(t, b), c)
    ensures GetSize(AddItems(t, a), c) == GetSize(AddItems(t, b), c)
  {
    AddItemsPerCategory(t, a, c);
    AddItemsPerCategory(t, b, c);
    SumMapPermutation(a, b, CallsFor(c));
    SumMapPermutation(a, b, BytesFor(c));
  }

  /** The totals grow by the number of calls and the bytes they carry. */
  lemma {:induction false} TotalsAfterAddItems(t: CategoryTracker, adds: seq<(PatternCategory, nat)>)
    ensures TotalCount(AddItems(t, adds)) == TotalCount(t) + |adds|
    ensures TotalSize(AddItems(t, adds)) == TotalSize(t) + SumMap(adds, AddedBytes)
    decreases |adds|
  {
    if |adds| > 0 {
      TotalsAfterAddItem(t, adds[0].0, adds[0].1);
      TotalsAfterAddItems(AddItem(t, adds[0].0, adds[0].1), adds[1..]);
    }
  }

  /** One part of the breakdown line: a category with its label, count and size. */
  datatype BreakdownPart = BreakdownPart(category: PatternCategory, caption: string, count: nat, size: nat)

  /** The categories of a breakdown, in order. */
  function CategoriesOf(parts: seq<BreakdownPart>): (r: seq<PatternCategory>)
    ensures |r| == |parts|
    ensures forall i :: 0 <= i < |r| ==> r[i] == parts[i].category
  {
    seq(|parts|, i requires 0 <= i < |parts| => parts[i].category)
  }

  /** The parts for the categories of `cs` that hold items, in the order of `cs`. */
  function BreakdownOf(t: CategoryTracker, cs: seq<PatternCategory>): (r: seq<BreakdownPart>)
    ensures forall c :: c in CategoriesOf(r) <==> c in cs && GetCount(t, c) > 0
    ensures forall i :: 0 <= i < |r| ==>
      r[i].caption == Label(r[i].category) && r[i].count == GetCount(t, r[i].category) && r[i].size == GetSize(t, r[i].category)
  {
    if |cs| == 0 then []
    else
      var rest := BreakdownOf(t, cs[1..]);
      var c := cs[0];
      assert forall d :: d in cs <==> d == c || d in cs[1..];
      if GetCount(t, c) > 0 then
        var r := [BreakdownPart(c, Label(c), GetCount(t, c), GetSize(t, c))] + rest;
        assert CategoriesOf(r) == [c] + CategoriesOf(rest);
        r
      else rest
  }

  predicate RankIncreasing(cs: seq<PatternCategory>) {
    forall i, j :: 0 <= i < j < |cs| ==> Rank(cs[i]) < Rank(cs[j])
  }

  /** Selecting from a list in increasing rank keeps the rank increasing. */
  lemma {:induction false} BreakdownOfKeepsOrder(t: CategoryTracker, cs: seq<PatternCategory>)
    requires RankIncreasing(cs)
    ensures RankIncreasing(CategoriesOf(BreakdownOf(t, cs)))
    decreases |cs|
  {
    if |cs| > 0 {
      var rest := BreakdownOf(t, cs[1..]);
      var c := cs[0];
      assert RankIncreasing(cs[1..]) by {
        forall i, j | 0 <= i < j < |cs[1..]| ensures Rank(cs[1..][i]) < Rank(cs[1..][j]) {
          assert cs[1..][i] == cs[i + 1] && cs[1..][j] == cs[j + 1];
        }
      }
      BreakdownOfKeepsOrder(t, cs[1..]);
      if GetCount(t, c) > 0 {
        var tail := CategoriesOf(rest);
        forall k | 0 <= k < |tail| ensures Rank(c) < Rank(tail[k]) {
          assert tail[k] in tail;
          assert tail[k] in cs[1..];
          var m :| 0 <= m < |cs[1..]| && cs[1..][m] == tail[k];
          assert cs[1..][m] == cs[m + 1];
        }
        var r := [BreakdownPart(c, Label(c), GetCount(t, c), GetSize(t, c))] + rest;
        assert CategoriesOf(r) == [c] + tail;
      }
    }
  }

  /** `BreakdownOrder` lists every category, in strictly increasing rank. */
  lemma BreakdownOrderIsComplete()
    ensures forall c :: c in BreakdownOrder
    ensures forall i, j :: 0 <= i < j < |BreakdownOrder| ==> Rank(BreakdownOrder[i]) < Rank(BreakdownOrder[j])
  {
    forall c ensures c in BreakdownOrder {
      assert BreakdownOrder[Rank(c)] == c;
    }
  }

  /** `format_breakdown` without the text formatting: one part per category that
      holds items, in the order Dependencies, Build, Cache, IDE, Logs, Other. */
  function FormatBreakdown(t: CategoryTracker): (r: seq<BreakdownPart>)
    ensures forall c :: c in CategoriesOf(r) <==> GetCount(t, c) > 0
    ensures forall i, j :: 0 <= i < j < |r| ==> Rank(r[i].category) < Rank(r[j].category)
    ensures forall i :: 0 <= i < |r| ==>
      r[i].caption == Label(r[i].category) && r[i].count == GetCount(t, r[i].category) && r[i].size == GetSize(t, r[i].category)
  {
    BreakdownOrderIsComplete();
    BreakdownOfKeepsOrder(t, BreakdownOrder);
    BreakdownOf(t, BreakdownOrder)
  }

  /** The scan statistics counters. */
  datatype ScanStats = ScanStats(entriesScanned: nat, dirsScanned: nat, filesScanned: nat, itemsMatched: nat, bytesMatched: nat)

  function NewScanStats(): ScanStats { ScanStats(0, 0, 0, 0, 0) }

  function IncEntry(st: ScanStats): (r: ScanStats)
    ensures r.entriesScanned == st.entriesScanned + 1
    ensures r.(entriesScanned := st.entriesScanned) == st
  {
    st.(entriesScanned := st.entriesScanned + 1)
  }

  function IncDir(st: ScanStats): (r: ScanStats)
    ensures r.dirsScanned == st.dirsScanned + 1
    ensures r.(dirsScanned := st.dirsScanned) == st
  {
    st.(dirsScanned := st.dirsScanned + 1)
  }

  function IncFile(st: ScanStats): (r: ScanStats)
    ensures r.filesScanned == st.filesScanned + 1
    ensures r.(filesScanned := st.filesScanned) == st
  {
    st.(filesScanned := st.filesScanned + 1)
  }

  function IncMatched(st: ScanStats, size: nat): (r: ScanStats)
    ensures r.itemsMatched == st.itemsMatched + 1 && r.bytesMatched == st.bytesMatched + size
    ensures r.(itemsMatched := st.itemsMatched, bytesMatched := st.bytesMatched) == st
  {
    st.(itemsMatched := st.itemsMatched + 1, bytesMatched := st.bytesMatched + size)
  }

  /** The counter part of `CompactDisplay::inc_entry`: one more entry, counted
      as a directory or as a file. */
  function DisplayIncEntry(st: ScanStats, isDir: bool): ScanStats {
    var s := IncEntry(st);
    if isDir then IncDir(s) else IncFile(s)
  }

  /** Every entry counted so far is either a directory or a file. */
  predicate Balanced(st: ScanStats) {
    st.entriesScanned == st.dirsScanned + st.filesScanned
  }

  /** `inc_entry` keeps the entry count equal to directories plus files, and
      touches nothing but those three counters. */
  lemma DisplayIncEntryKeepsBalance(st: ScanStats, isDir: bool)
    ensures Balanced(st) ==> Balanced(DisplayIncEntry(st, isDir))
    ensures DisplayIncEntry(st, isDir).entriesScanned == st.entriesScanned + 1
    ensures isDir ==> DisplayIncEntry(st, isDir).dirsScanned == st.dirsScanned + 1
    ensures !isDir ==> DisplayIncEntry(st, isDir).filesScanned == st.filesScanned + 1
    ensures DisplayIncEntry(st, isDir).itemsMatched == st.itemsMatched
    ensures DisplayIncEntry(st, isDir).bytesMatched == st.bytesMatched
  {
  }

  /** Entries reported one after another through `inc_entry`. */
  function DisplayIncEntries(st: ScanStats, isDirs: seq<bool>): ScanStats
    decreases |isDirs|
  {
    if |isDirs| == 0 then st else DisplayIncEntries(DisplayIncEntry(st, isDirs[0]), isDirs[1..])
  }

  /** Starting from fresh statistics, any run of `inc_entry` calls leaves the
      entry count equal to the number of calls and to directories plus files. */
  lemma {:induction false} DisplayIncEntriesBalanced(st: ScanStats, isDirs: seq<bool>)
    requires Balanced(st)
    ensures Balanced(DisplayIncEntries(st, isDirs))
    ensures DisplayIncEntries(st, isDirs).entriesScanned == st.entriesScanned + |isDirs|
    decreases |isDirs|
  {
    if |isDirs| > 0 {
      DisplayIncEntriesBalanced(DisplayIncEntry(st, isDirs[0]), isDirs[1..]);
    }
  }

  /** Matched items reported one after another through `inc_matched`. */
  function IncMatchedAll(st: ScanStats, sizes: seq<nat>): ScanStats
    decreases |sizes|
  {
    if |sizes| == 0 then st else IncMatchedAll(IncMatched(st, sizes[0]), sizes[1..])
  }

  function NatId(n: nat): nat { n }

  /** The matched counters hold the number of matches and the sum of their
      sizes; the entry counters are untouched. */
  lemma {:induction false} IncMatchedAllTotals(st: ScanStats, sizes: seq<nat>)
    ensures IncMatchedAll(st, sizes).itemsMatched == st.itemsMatched + |sizes|
    ensures IncMatchedAll(st, sizes).bytesMatched == st.bytesMatched + SumMap(sizes, NatId)
    ensures IncMatchedAll(st, sizes).entriesScanned == st.entriesScanned
    decreases |sizes|
  {
    if |sizes| > 0 {
      IncMatchedAllTotals(IncMatched(st, sizes[0]), sizes[1..]);
    }
  }
}
