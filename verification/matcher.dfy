/** The pattern matcher: compiled directory, file and exclude patterns and
    the classification of one path. Glob syntax, glob matching and the
    built-in category table are not modelled; they are the fields of a
    `GlobEngine` supplied by the caller. */
module Patterns {
  import opened Wrappers
  import opened Types
  import Configuration
  import FileSystem

  /** `compiles(p)`: `Pattern::new(p)` succeeds. `matches(p, name)`: the
      compiled `p` matches `name`. `categoryOf(p)`: the built-in table's
      category for `p`. */
  datatype GlobEngine = GlobEngine(
    compiles: string -> bool,
    matches: (string, string) -> bool,
    categoryOf: string -> PatternCategory)

  /** A pattern that did not compile, named by its text. */
  datatype PatternError = InvalidPattern(pattern: string)

  /** A compiled pattern with the category looked up for it. */
  datatype CategorizedPattern = CategorizedPattern(text: string, category: PatternCategory)

  datatype PatternMatcher = PatternMatcher(
    directoryPatterns: seq<CategorizedPattern>,
    filePatterns: seq<CategorizedPattern>,
    excludePatterns: seq<string>)

  /** The position of the first pattern of `ps` that does not compile. */
  function FirstInvalid(g: GlobEngine, ps: seq<string>): (r: Option<nat>)
    ensures r.Some? ==> r.value < |ps| && !g.compiles(ps[r.value])
    ensures r.Some? ==> forall j :: 0 <= j < r.value ==> g.compiles(ps[j])
    ensures r.None? <==> forall j :: 0 <= j < |ps| ==> g.compiles(ps[j])
  {
    if |ps| == 0 then None
    else if !g.compiles(ps[0]) then Some(0)
    else match FirstInvalid(g, ps[1..])
      case None => None
      case Some(k) => Some(k + 1)
  }

  /** `compile_patterns`: every pattern compiled in order, or the first failure. */
  function CompilePatterns(g: GlobEngine, ps: seq<string>): (r: Result<seq<string>, PatternError>)
    ensures r.Ok? <==> FirstInvalid(g, ps).None?
    ensures r.Ok? ==> r.value == ps
    ensures r.Err? ==> r.error == InvalidPattern(ps[FirstInvalid(g, ps).value])
  {
    if |ps| == 0 then Ok([])
    else if !g.compiles(ps[0]) then Err(InvalidPattern(ps[0]))
    else match CompilePatterns(g, ps[1..])
      case Err(e) => Err(e)
      case Ok(rest) => Ok([ps[0]] + rest)
  }

  /** `compile_patterns_with_categories`: as `CompilePatterns`, pairing each
      pattern with its category. */
  function CompileWithCategories(g: GlobEngine, ps: seq<string>): (r: Result<seq<CategorizedPattern>, PatternError>)
    ensures r.Ok? <==> FirstInvalid(g, ps).None?
    ensures r.Ok? ==> |r.value| == |ps|
    ensures r.Ok? ==> forall i :: 0 <= i < |ps| ==> r.value[i] == CategorizedPattern(ps[i], g.categoryOf(ps[i]))
    ensures r.Err? ==> r.error == InvalidPattern(ps[FirstInvalid(g, ps).value])
  {
    if |ps| == 0 then Ok([])
    else if !g.compiles(ps[0]) then Err(InvalidPattern(ps[0]))
    else match CompileWithCategories(g, ps[1..])
      case Err(e) => Err(e)
      case Ok(rest) => Ok([CategorizedPattern(ps[0], g.categoryOf(ps[0]))] + rest)
  }

  /** `PatternMatcher::new`: directories, then files, then excludes, stopping
      at the first pattern that does not compile. */
  function New(g: GlobEngine, config: Configuration.PatternConfig): (r: Result<PatternMatcher, PatternError>)
    ensures r.Ok? ==> |r.value.directoryPatterns| == |config.directories|
    ensures r.Ok? ==> forall i :: 0 <= i < |config.directories| ==>
      r.value.directoryPatterns[i] == CategorizedPattern(config.directories[i], g.categoryOf(config.directories[i]))
    ensures r.Ok? ==> |r.value.filePatterns| == |config.files|
    ensures r.Ok? ==> forall i :: 0 <= i < |config.files| ==>
      r.value.filePatterns[i] == CategorizedPattern(config.files[i], g.categoryOf(config.files[i]))
    ensures r.Ok? ==> r.value.excludePatterns == config.exclude
  {
    match CompileWithCategories(g, config.directories)
    case Err(e) => Err(e)
    case Ok(dirs) =>
      match CompileWithCategories(g, config.files)
      case Err(e) => Err(e)
      case Ok(files) =>
        match CompilePatterns(g, config.exclude)
        case Err(e) => Err(e)
        case Ok(exclude) => Ok(PatternMatcher(dirs, files, exclude))
  }

  lemma {:induction false} FirstInvalidConcat(g: GlobEngine, a: seq<string>, b: seq<string>)
    ensures FirstInvalid(g, a + b) ==
      match FirstInvalid(g, a)
      case Some(k) => Some(k)
      case None => match FirstInvalid(g, b) case Some(k) => Some(|a| + k) case None => None
    decreases |a|
  {
    if |a| == 0 {
      assert a + b == b;
    } else {
      assert (a + b)[1..] == a[1..] + b;
      FirstInvalidConcat(g, a[1..], b);
    }
  }

  /** Construction fails exactly when some pattern does not compile, and then
      it names the first such pattern in the order directories, files,
      excludes. */
  lemma NewFailsOnFirstInvalid(g: GlobEngine, config: Configuration.PatternConfig)
    ensures var all := config.directories + config.files + config.exclude;
      && (New(g, config).Ok? <==> forall j :: 0 <= j < |all| ==> g.compiles(all[j]))
      && (New(g, config).Err? ==> New(g, config).error == InvalidPattern(all[FirstInvalid(g, all).value]))
  {
    FirstInvalidConcat(g, config.directories, config.files);
    FirstInvalidConcat(g, config.directories + config.files, config.exclude);
  }

  /** `is_excluded`: some exclude pattern matches the UTF-8 file name; a path
      without one is never excluded. */
  function IsExcluded(m: PatternMatcher, g: GlobEngine, path: Path): (r: bool)
    ensures FileName(path).None? ==> !r
    ensures FileName(path).Some? ==>
      (r <==> exists i :: 0 <= i < |m.excludePatterns| && g.matches(m.excludePatterns[i], FileName(path).value))
  {
    match FileName(path)
    case None => false
    case Some(name) => exists i :: 0 <= i < |m.excludePatterns| && g.matches(m.excludePatterns[i], name)
  }

  /** Which pattern lists an entry is tried against: (directory, file). A link
      or an entry of unknown type is tried against both; a special file
      against neither. */
  function Candidates(ft: Option<FileType>): (r: (bool, bool))
    ensures r.0 <==> ft.None? || ft.value == Dir || ft.value == Link
    ensures r.1 <==> ft.None? || ft.value == Regular || ft.value == Link
  {
    match ft
    case None => (true, true)
    case Some(Link) => (true, true)
    case Some(t) => (t == Dir, t == Regular)
  }

  /** `i` is the first position whose pattern matches `name`. */
  predicate IsFirstMatch(ps: seq<CategorizedPattern>, g: GlobEngine, name: string, i: nat) {
    i < |ps| && g.matches(ps[i].text, name) && forall j :: 0 <= j < i ==> !g.matches(ps[j].text, name)
  }

  predicate NoneMatches(ps: seq<CategorizedPattern>, g: GlobEngine, name: string) {
    forall j :: 0 <= j < |ps| ==> !g.matches(ps[j].text, name)
  }

  /** At most one position is the first match. */
  lemma FirstMatchUnique(ps: seq<CategorizedPattern>, g: GlobEngine, name: string, i: nat, j: nat)
    requires IsFirstMatch(ps, g, name, i) && IsFirstMatch(ps, g, name, j)
    ensures i == j
  {
  }

  /** The first position whose pattern matches `name`, searching in list order. */
  function FindFirst(ps: seq<CategorizedPattern>, g: GlobEngine, name: string): (r: Option<nat>)
    ensures r.Some? ==> IsFirstMatch(ps, g, name, r.value)
    ensures r.None? <==> NoneMatches(ps, g, name)
  {
    if |ps| == 0 then None
    else if g.matches(ps[0].text, name) then Some(0)
    else match FindFirst(ps[1..], g, name)
      case None => None
      case Some(k) => Some(k + 1)
  }

  /** The match reported for position `i` of a list: its text, its position as
      the priority, `Config` as the source and its category. */
  function MatchAt(ps: seq<CategorizedPattern>, i: nat): PatternMatch
    requires i < |ps|
  {
    PatternMatch(ps[i].text, AsU32(i), Config, ps[i].category)
  }

  /** `matches_with_type`: exclusion first, then directory patterns, then file
      patterns, as the entry's type allows; the first match in list order wins. */
  function MatchesWithType(m: PatternMatcher, g: GlobEngine, path: Path, ft: Option<FileType>): (r: Option<PatternMatch>)
    ensures IsExcluded(m, g, path) ==> r.None?
    ensures FileName(path).None? ==> r.None?
    ensures r.Some? ==> r.value.source == Config && r.value.priority < U32_MODULUS
  {
    if IsExcluded(m, g, path) then None
    else match FileName(path)
      case None => None
      case Some(name) =>
        var (isDirCandidate, isFileCandidate) := Candidates(ft);
        var d := if isDirCandidate then FindFirst(m.directoryPatterns, g, name) else None;
        if d.Some? then Some(MatchAt(m.directoryPatterns, d.value))
        else
          var f := if isFileCandidate then FindFirst(m.filePatterns, g, name) else None;
          if f.Some? then Some(MatchAt(m.filePatterns, f.value)) else None
  }

  /** `matches`: the entry's own type, links not followed, gates the lists;
      an unreadable path is matched with no type at all. */
  function Matches(m: PatternMatcher, g: GlobEngine, fs: FileSystem.Fs, path: Path): Option<PatternMatch> {
    match FileSystem.SymlinkMetadata(fs, path)
    case Some(node) => MatchesWithType(m, g, path, Some(node.kind))
    case None => MatchesWithType(m, g, path, None)
  }

  /** Exclusion wins over any include pattern. */
  lemma ExcludeOverridesInclude(m: PatternMatcher, g: GlobEngine, path: Path, ft: Option<FileType>, k: nat)
    requires FileName(path).Some?
    requires k < |m.excludePatterns| && g.matches(m.excludePatterns[k], FileName(path).value)
    ensures MatchesWithType(m, g, path, ft).None?
  {
  }

  /** An entry that may be a directory and whose name matches a directory
      pattern gets the first such pattern, with its position as priority. */
  lemma DirectoryPatternWins(m: PatternMatcher, g: GlobEngine, path: Path, ft: Option<FileType>, i: nat)
    requires !IsExcluded(m, g, path) && FileName(path).Some?
    requires ft.None? || ft.value == Dir || ft.value == Link
    requires IsFirstMatch(m.directoryPatterns, g, FileName(path).value, i)
    ensures MatchesWithType(m, g, path, ft) == Some(MatchAt(m.directoryPatterns, i))
  {
    var name := FileName(path).value;
    var d := FindFirst(m.directoryPatterns, g, name);
    assert d.Some?;
    FirstMatchUnique(m.directoryPatterns, g, name, d.value, i);
  }

  /** An entry that may be a file gets the first matching file pattern when
      no directory pattern applies to it. */
  lemma FilePatternWins(m: PatternMatcher, g: GlobEngine, path: Path, ft: Option<FileType>, i: nat)
    requires !IsExcluded(m, g, path) && FileName(path).Some?
    requires ft.None? || ft.value == Regular || ft.value == Link
    requires ft == Some(Regular) || NoneMatches(m.directoryPatterns, g, FileName(path).value)
    requires IsFirstMatch(m.filePatterns, g, FileName(path).value, i)
    ensures MatchesWithType(m, g, path, ft) == Some(MatchAt(m.filePatterns, i))
  {
    var name := FileName(path).value;
    var f := FindFirst(m.filePatterns, g, name);
    assert f.Some?;
    FirstMatchUnique(m.filePatterns, g, name, f.value, i);
  }

  /** No match is reported unless an applicable pattern matches the name. */
  lemma NoApplicablePatternMeansNone(m: PatternMatcher, g: GlobEngine, path: Path, ft: Option<FileType>)
    requires FileName(path).Some?
    requires Candidates(ft).0 ==> NoneMatches(m.directoryPatterns, g, FileName(path).value)
    requires Candidates(ft).1 ==> NoneMatches(m.filePatterns, g, FileName(path).value)
    ensures MatchesWithType(m, g, path, ft).None?
  {
  }

  /** A directory is never classified by a file pattern, and a regular file
      never by a directory pattern. */
  lemma TypeGating(m: PatternMatcher, g: GlobEngine, path: Path)
    requires !IsExcluded(m, g, path) && FileName(path).Some?
    ensures MatchesWithType(m, g, path, Some(Dir)) ==
      (var d := FindFirst(m.directoryPatterns, g, FileName(path).value);
       if d.Some? then Some(MatchAt(m.directoryPatterns, d.value)) else None)
    ensures MatchesWithType(m, g, path, Some(Regular)) ==
      (var f := FindFirst(m.filePatterns, g, FileName(path).value);
       if f.Some? then Some(MatchAt(m.filePatterns, f.value)) else None)
    ensures MatchesWithType(m, g, path, Some(Special)).None?
  {
  }

  /** The outcome of a runtime pattern addition: the matcher as far as the
      loop got, and the error that stopped it, if any. */
  datatype Amended = Amended(matcher: PatternMatcher, error: Option<PatternError>)

  /** How many patterns a `?`-loop gets through: all, or up to the first that
      does not compile. */
  function Processed(g: GlobEngine, ps: seq<string>): (k: nat)
    ensures k <= |ps|
  {
    match FirstInvalid(g, ps)
    case Some(i) => i
    case None => |ps|
  }

  function Categorize(g: GlobEngine, ps: seq<string>): (r: seq<CategorizedPattern>)
    ensures |r| == |ps|
    ensures forall i :: 0 <= i < |ps| ==> r[i] == CategorizedPattern(ps[i], g.categoryOf(ps[i]))
  {
    seq(|ps|, i requires 0 <= i < |ps| => CategorizedPattern(ps[i], g.categoryOf(ps[i])))
  }

  /** `add_include_patterns`: each pattern compiled in turn and pushed to the
      file list when it contains `.` or `*`, else to the directory list. A
      pattern that does not compile stops the loop; earlier pushes stay. */
  function AddIncludePatterns(m: PatternMatcher, g: GlobEngine, ps: seq<string>): (r: Amended)
    ensures r.matcher.excludePatterns == m.excludePatterns
    ensures |r.matcher.filePatterns| + |r.matcher.directoryPatterns|
         == |m.filePatterns| + |m.directoryPatterns| + Processed(g, ps)
    ensures r.error.None? <==> FirstInvalid(g, ps).None?
    ensures r.error.Some? ==> r.error.value == InvalidPattern(ps[FirstInvalid(g, ps).value])
    decreases |ps|
  {
    if |ps| == 0 then Amended(m, None)
    else if !g.compiles(ps[0]) then Amended(m, Some(InvalidPattern(ps[0])))
    else
      var p := CategorizedPattern(ps[0], g.categoryOf(ps[0]));
      var next :=
        if Configuration.IsFilePattern(ps[0]) then m.(filePatterns := m.filePatterns + [p])
        else m.(directoryPatterns := m.directoryPatterns + [p]);
      AddIncludePatterns(next, g, ps[1..])
  }

  lemma CategorizeConcat(g: GlobEngine, a: seq<string>, b: seq<string>)
    ensures Categorize(g, a + b) == Categorize(g, a) + Categorize(g, b)
  {
  }

  /** A compiling first pattern is processed, followed by whatever the rest gets through. */
  lemma ProcessedCons(g: GlobEngine, ps: seq<string>)
    requires |ps| > 0 && g.compiles(ps[0])
    ensures ps[..Processed(g, ps)] == [ps[0]] + ps[1..][..Processed(g, ps[1..])]
  {
    assert Processed(g, ps) == Processed(g, ps[1..]) + 1;
  }

  /** The include loop appends the file-like patterns it got through to the
      file list, in order. */
  lemma {:induction false} AddIncludePatternsFiles(m: PatternMatcher, g: GlobEngine, ps: seq<string>)
    ensures AddIncludePatterns(m, g, ps).matcher.filePatterns
         == m.filePatterns + Categorize(g, Configuration.FilePatterns(ps[..Processed(g, ps)]))
    decreases |ps|
  {
    if |ps| == 0 || !g.compiles(ps[0]) {
      assert ps[..Processed(g, ps)] == [];
    } else {
      var x := ps[0];
      var p := CategorizedPattern(x, g.categoryOf(x));
      var next :=
        if Configuration.IsFilePattern(x) then m.(filePatterns := m.filePatterns + [p])
        else m.(directoryPatterns := m.directoryPatterns + [p]);
      assert AddIncludePatterns(m, g, ps) == AddIncludePatterns(next, g, ps[1..]);
      AddIncludePatternsFiles(next, g, ps[1..]);
      var restDone := ps[1..][..Processed(g, ps[1..])];
      ProcessedCons(g, ps);
      Configuration.RoutePatternsCons(x, restDone);
      CategorizeConcat(g, [x], Configuration.FilePatterns(restDone));
    }
  }

  /** The include loop appends the other patterns it got through to the
      directory list, in order. */
  lemma {:induction false} AddIncludePatternsDirectories(m: PatternMatcher, g: GlobEngine, ps: seq<string>)
    ensures AddIncludePatterns(m, g, ps).matcher.directoryPatterns
         == m.directoryPatterns + Categorize(g, Configuration.DirectoryPatterns(ps[..Processed(g, ps)]))
    decreases |ps|
  {
    if |ps| == 0 || !g.compiles(ps[0]) {
      assert ps[..Processed(g, ps)] == [];
    } else {
      var x := ps[0];
      var p := CategorizedPattern(x, g.categoryOf(x));
      var next :=
        if Configuration.IsFilePattern(x) then m.(filePatterns := m.filePatterns + [p])
        else m.(directoryPatterns := m.directoryPatterns + [p]);
      assert AddIncludePatterns(m, g, ps) == AddIncludePatterns(next, g, ps[1..]);
      AddIncludePatternsDirectories(next, g, ps[1..]);
      var restDone := ps[1..][..Processed(g, ps[1..])];
      ProcessedCons(g, ps);
      Configuration.RoutePatternsCons(x, restDone);
      CategorizeConcat(g, [x], Configuration.DirectoryPatterns(restDone));
    }
  }

  /** `add_exclude_patterns`: each pattern compiled and pushed to the exclude
      list; a pattern that does not compile stops the loop. */
  function AddExcludePatterns(m: PatternMatcher, g: GlobEngine, ps: seq<string>): (r: Amended)
    ensures r.matcher.excludePatterns == m.excludePatterns + ps[..Processed(g, ps)]
    ensures r.matcher.directoryPatterns == m.directoryPatterns && r.matcher.filePatterns == m.filePatterns
    ensures r.error.None? <==> FirstInvalid(g, ps).None?
    ensures r.error.Some? ==> r.error.value == InvalidPattern(ps[FirstInvalid(g, ps).value])
    decreases |ps|
  {
    if |ps| == 0 then Amended(m, None)
    else if !g.compiles(ps[0]) then Amended(m, Some(InvalidPattern(ps[0])))
    else
      var r := AddExcludePatterns(m.(excludePatterns := m.excludePatterns + [ps[0]]), g, ps[1..]);
      assert ps[..Processed(g, ps)] == [ps[0]] + ps[1..][..Processed(g, ps[1..])];
      r
  }
}
