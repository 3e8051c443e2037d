/** The records shared by every stage: paths, matched items, pattern
    metadata, reports and the per-path error records. */
module Types {
  import opened Wrappers

  /** One component of a filesystem path. */
  datatype Segment =
    | Name(text: string)   // a normal component whose bytes are valid UTF-8
    | NonUtf8(id: nat)     // a normal component that is not valid UTF-8; its bytes are abstracted to an identifier
    | ParentDir            // a `..` component

  /** A path is compared component by component, never as a string. */
  type Path = seq<Segment>

  /** `path.file_name()` followed by `to_str()`: the last component as text, if
      it is a normal component that is valid UTF-8. */
  function FileName(p: Path): Option<string> {
    if |p| == 0 then None
    else match p[|p| - 1]
      case Name(t) => Some(t)
      case _ => None
  }

  /** `q` lies strictly beneath the directory `dir`. */
  predicate IsBeneath(dir: Path, q: Path) {
    |dir| < |q| && q[..|dir|] == dir
  }

  /** What `symlink_metadata` reports about an entry. `Special` covers
      sockets, FIFOs and devices: neither a directory, a regular file nor a link. */
  datatype FileType = Dir | Regular | Link | Special

  datatype ItemType = Directory | File | Symlink

  datatype PatternSource = BuiltIn | Config | CLI

  datatype PatternCategory = Dependencies | BuildOutputs | Cache | IDE | Logs | Other

  /** The human-readable label of a category. */
  function Label(c: PatternCategory): string {
    match c
    case Dependencies => "Dependencies"
    case BuildOutputs => "Build"
    case Cache => "Cache"
    case IDE => "IDE"
    case Logs => "Logs"
    case Other => "Other"
  }

  /** No two categories share a label. */
  lemma LabelInjective(a: PatternCategory, b: PatternCategory)
    ensures Label(a) == Label(b) ==> a == b
  {
  }

  const U32_MODULUS: nat := 0x1_0000_0000

  /** The truncating cast `n as u32`. */
  function AsU32(n: nat): (r: nat)
    ensures r < U32_MODULUS
    ensures n < U32_MODULUS ==> r == n
  {
    n % U32_MODULUS
  }

  /** Which pattern matched an entry. A lower priority ranks higher. */
  datatype PatternMatch = PatternMatch(pattern: string, priority: nat, source: PatternSource, category: PatternCategory)

  /** An entry selected for cleaning. For a directory, `size` is the total of
      the files beneath it. */
  datatype CleanItem = CleanItem(path: Path, size: nat, itemType: ItemType, pattern: PatternMatch)

  function ItemPath(it: CleanItem): Path { it.path }

  function ItemSize(it: CleanItem): nat { it.size }

  /** A failure while deleting one item; it never stops the batch. */
  datatype CleanError =
    | PermissionDenied(path: Path)
    | IoError(path: Path, message: string)
    | PatternError(message: string)
  {
    /** The path the error is about, for the variants that have one. */
    function PathOf(): (r: Option<Path>)
      ensures this.PermissionDenied? || this.IoError? ==> r == Some(this.path)
      ensures this.PatternError? ==> r.None?
    {
      match this
      case PermissionDenied(p) => Some(p)
      case IoError(p, _) => Some(p)
      case PatternError(_) => None
    }
  }

  /** A failure while walking the tree; it never stops the walk. */
  datatype ScanError =
    | IoError(path: Path, message: string)
    | SymlinkCycle(path: Path)

  function ScanErrorPath(e: ScanError): Path { e.path }

  /** The crate-wide error. Payloads that the model never inspects are kept as text. */
  datatype McError =
    | Io(message: string)
    | ConfigParse(message: string)
    | ConfigSerialize(message: string)
    | Pattern(pattern: string)
    | Serialization(message: string)
    | PermissionDenied(path: Path)
    | Safety(message: string)
    | Cancelled

  /** The summary of one cleaning run. Durations are abstract clock readings. */
  datatype CleanReport = CleanReport(
    itemsDeleted: nat,
    bytesFreed: nat,
    errors: seq<CleanError>,
    scanErrors: seq<ScanError>,
    duration: nat,
    scanDuration: nat,
    dryRun: bool,
    dirsDeleted: nat,
    filesDeleted: nat,
    entriesScanned: nat)

  /** `CleanReport::default()`: every number zero, every list empty, not a dry run. */
  function DefaultReport(): CleanReport {
    CleanReport(0, 0, [], [], 0, 0, false, 0, 0, 0)
  }
}
