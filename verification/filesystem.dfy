/** The filesystem as the scanner sees it: a finite map from paths to entries,
    together with the order in which a directory walker lists those paths. */
module FileSystem {
  import opened Wrappers
  import opened Types
  import opened Seqs

  /** What metadata reports about one entry: its type and its length in bytes. */
  datatype Node = Node(kind: FileType, len: nat)

  datatype Fs = Fs(nodes: map<Path, Node>, listing: seq<Path>)

  /** The listing names every entry of the map exactly once. */
  ghost predicate Valid(fs: Fs) {
    && Distinct(fs.listing)
    && (forall i :: 0 <= i < |fs.listing| ==> fs.listing[i] in fs.nodes)
    && (forall p :: p in fs.nodes ==> p in fs.listing)
  }

  /** `symlink_metadata(p)`: the entry itself, links not followed; `None`
      when the path cannot be read. */
  function SymlinkMetadata(fs: Fs, p: Path): Option<Node> {
    if p in fs.nodes then Some(fs.nodes[p]) else None
  }

  /** The regular files strictly beneath `dir`. */
  ghost function FilesBeneath(nodes: map<Path, Node>, dir: Path): set<Path> {
    set q | q in nodes && IsBeneath(dir, q) && nodes[q].kind == Regular
  }

  /** The total length of the entries `ps`, in no particular order. */
  ghost function SumLens(nodes: map<Path, Node>, ps: set<Path>): nat
    requires ps <= nodes.Keys
    decreases ps
  {
    if ps == {} then 0
    else
      var p :| p in ps;
      nodes[p].len + SumLens(nodes, ps - {p})
  }

  /** Any element may be taken out first. */
  lemma {:induction false} SumLensRemove(nodes: map<Path, Node>, ps: set<Path>, x: Path)
    requires ps <= nodes.Keys && x in ps
    ensures SumLens(nodes, ps) == nodes[x].len + SumLens(nodes, ps - {x})
    decreases ps
  {
    var p :| p in ps && SumLens(nodes, ps) == nodes[p].len + SumLens(nodes, ps - {p});
    if p != x {
      SumLensRemove(nodes, ps - {p}, x);
      SumLensRemove(nodes, ps - {x}, p);
      assert ps - {p} - {x} == ps - {x} - {p};
    }
  }

  /** The sum the directory walker computes: the lengths of the regular files
      beneath `dir`, visited in listing order. */
  function ListedFileBytes(nodes: map<Path, Node>, listing: seq<Path>, dir: Path): nat {
    if |listing| == 0 then 0
    else
      var q := listing[0];
      (if q in nodes && IsBeneath(dir, q) && nodes[q].kind == Regular then nodes[q].len else 0)
        + ListedFileBytes(nodes, listing[1..], dir)
  }

  lemma {:induction false} ListedFileBytesIsSum(nodes: map<Path, Node>, listing: seq<Path>, dir: Path)
    requires Distinct(listing)
    ensures ListedFileBytes(nodes, listing, dir)
         == SumLens(nodes, FilesBeneath(nodes, dir) * set q | q in listing)
    decreases |listing|
  {
    var s := FilesBeneath(nodes, dir) * set q | q in listing;
    if |listing| == 0 {
      assert s == {};
    } else {
      var x := listing[0];
      var rest := FilesBeneath(nodes, dir) * set q | q in listing[1..];
      ListedFileBytesIsSum(nodes, listing[1..], dir);
      assert x !in listing[1..] by {
        forall k | 0 <= k < |listing[1..]|
          ensures listing[1..][k] != x
        {
          assert listing[1..][k] == listing[k + 1];
        }
      }
      if x in FilesBeneath(nodes, dir) {
        assert rest == s - {x};
        SumLensRemove(nodes, s, x);
      } else {
        assert rest == s;
      }
    }
  }

  /** A tree whose regular files are all empty weighs nothing, whatever the order. */
  lemma {:induction false} EmptyFilesWeighNothing(nodes: map<Path, Node>, listing: seq<Path>, dir: Path)
    requires forall q :: q in nodes && nodes[q].kind == Regular ==> nodes[q].len == 0
    ensures ListedFileBytes(nodes, listing, dir) == 0
    decreases |listing|
  {
    if |listing| > 0 {
      EmptyFilesWeighNothing(nodes, listing[1..], dir);
    }
  }

  /** For a valid filesystem the walker's sum is the sum of the lengths of all
      regular files strictly beneath `dir`, however the walker orders them. */
  lemma DirBytesIsSumBeneath(fs: Fs, dir: Path)
    requires Valid(fs)
    ensures ListedFileBytes(fs.nodes, fs.listing, dir) == SumLens(fs.nodes, FilesBeneath(fs.nodes, dir))
  {
    ListedFileBytesIsSum(fs.nodes, fs.listing, dir);
    assert FilesBeneath(fs.nodes, dir) * (set q | q in fs.listing) == FilesBeneath(fs.nodes, dir);
  }

  /** Any one regular file beneath `dir` counts towards its size. */
  lemma FileCountsTowardsDir(fs: Fs, dir: Path, q: Path)
    requires Valid(fs) && q in FilesBeneath(fs.nodes, dir)
    ensures fs.nodes[q].len <= ListedFileBytes(fs.nodes, fs.listing, dir)
  {
    DirBytesIsSumBeneath(fs, dir);
    SumLensRemove(fs.nodes, FilesBeneath(fs.nodes, dir), q);
  }
}
