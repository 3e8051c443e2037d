/** The configuration record and the merge of command-line patterns into it. */
module Configuration {
  import opened Wrappers
  import opened Seqs

  datatype PatternConfig = PatternConfig(directories: seq<string>, files: seq<string>, exclude: seq<string>)

  datatype OptionsConfig = OptionsConfig(
    parallelThreads: nat,
    requireConfirmation: bool,
    showStatistics: bool,
    preserveSymlinks: bool)

  datatype SafetyConfig = SafetyConfig(checkGitRepo: bool, maxDepth: nat, minFreeSpaceGb: real)

  datatype Config = Config(patterns: PatternConfig, options: OptionsConfig, safety: SafetyConfig)

  const DEFAULT_MAX_DEPTH: nat := 10

  /** The number of logical CPUs: what the platform reports, or 4 when it
      cannot say. */
  function NumCpus(available: Option<nat>): nat {
    available.GetOr(4)
  }

  function DefaultOptions(cpus: nat): OptionsConfig {
    OptionsConfig(cpus, true, true, true)
  }

  function DefaultSafety(): SafetyConfig {
    SafetyConfig(true, DEFAULT_MAX_DEPTH, 1.0)
  }

  /** `Config::default()`. The built-in pattern table is an input. */
  function DefaultConfig(builtin: PatternConfig, cpus: nat): (r: Config)
    ensures r.patterns == builtin
    ensures r.safety.maxDepth == 10
    ensures r.options.requireConfirmation && r.options.showStatistics && r.options.preserveSymlinks
    ensures r.safety.checkGitRepo
  {
    Config(builtin, DefaultOptions(cpus), DefaultSafety())
  }

  /** The test that sends an include pattern to the file list: it contains a
      `.` or a `*`. */
  predicate IsFilePattern(p: string) {
    '.' in p || '*' in p
  }

  /** The include patterns that go to the file list, in order. */
  function FilePatterns(ps: seq<string>): (r: seq<string>)
    ensures forall p :: p in r <==> p in ps && IsFilePattern(p)
  {
    if |ps| == 0 then []
    else
      assert forall p :: p in ps <==> p == ps[0] || p in ps[1..];
      (if IsFilePattern(ps[0]) then [ps[0]] else []) + FilePatterns(ps[1..])
  }

  /** The include patterns that go to the directory list, in order. */
  function DirectoryPatterns(ps: seq<string>): (r: seq<string>)
    ensures forall p :: p in r <==> p in ps && !IsFilePattern(p)
  {
    if |ps| == 0 then []
    else
      assert forall p :: p in ps <==> p == ps[0] || p in ps[1..];
      (if IsFilePattern(ps[0]) then [] else [ps[0]]) + DirectoryPatterns(ps[1..])
  }

  lemma RoutePatternsCons(x: string, rest: seq<string>)
    ensures FilePatterns([x] + rest) == (if IsFilePattern(x) then [x] else []) + FilePatterns(rest)
    ensures DirectoryPatterns([x] + rest) == (if IsFilePattern(x) then [] else [x]) + DirectoryPatterns(rest)
  {
    assert ([x] + rest)[1..] == rest;
  }

  /** `after` keeps `before` as a prefix and appends only entries that were
      absent, each at most once. */
  ghost predicate AppendsOnlyNew(before: seq<string>, after: seq<string>) {
    && |before| <= |after|
    && after[..|before|] == before
    && Distinct(after[|before|..])
    && forall p :: p in after[|before|..] ==> p !in before
  }

  /** Push `p` unless it is already listed. */
  function AppendIfAbsent(list: seq<string>, p: string): (r: seq<string>)
    ensures AppendsOnlyNew(list, r)
    ensures forall q :: q in r <==> q in list || q == p
  {
    if p in list then list
    else
      var r := list + [p];
      assert r[|list|..] == [p];
      r
  }

  lemma AppendsOnlyNewTransitive(a: seq<string>, b: seq<string>, c: seq<string>)
    requires AppendsOnlyNew(a, b) && AppendsOnlyNew(b, c)
    ensures AppendsOnlyNew(a, c)
  {
    assert c[..|a|] == b[..|a|];
    var tail := c[|a|..];
    assert tail == b[|a|..] + c[|b|..];
    forall i, j | 0 <= i < j < |tail| ensures tail[i] != tail[j] {
      if j >= |b| - |a| && i < |b| - |a| {
        assert tail[i] in b;
        assert tail[j] in c[|b|..];
      }
    }
    forall p | p in tail ensures p !in a {
      if p in c[|b|..] {
        assert p !in b;
        assert forall x :: x in a ==> x in b by {
          forall x | x in a ensures x in b {
            var k :| 0 <= k < |a| && a[k] == x;
            assert b[k] == x;
          }
        }
      }
    }
  }

  lemma AppendsOnlyNewReflexive(a: seq<string>)
    ensures AppendsOnlyNew(a, a)
  {
    assert a[|a|..] == [];
  }

  /** The entries of `r` from position `from` on appear in the order of their
      first occurrence in `ps`. */
  ghost predicate InOrderOf(r: seq<string>, from: nat, ps: seq<string>) {
    forall a, b :: from <= a < b < |r| ==> r[a] in ps && r[b] in ps && IndexOf(ps, r[a]) < IndexOf(ps, r[b])
  }

  /** Each of `ps`, in order, pushed unless already listed: the appended tail
      holds every new pattern once, in the order the patterns first occur in `ps`. */
  function AppendAllAbsent(list: seq<string>, ps: seq<string>): (r: seq<string>)
    ensures AppendsOnlyNew(list, r)
    ensures forall q :: q in r <==> q in list || q in ps
    ensures InOrderOf(r, |list|, ps)
    decreases |ps|
  {
    if |ps| == 0 then
      AppendsOnlyNewReflexive(list);
      list
    else
      var next := AppendIfAbsent(list, ps[0]);
      var r := AppendAllAbsent(next, ps[1..]);
      AppendsOnlyNewTransitive(list, next, r);
      assert forall q :: q in ps <==> q == ps[0] || q in ps[1..];
      AppendInOrderStep(list, ps, r);
      r
  }

  /** One step of `AppendAllAbsent`: pushing `ps[0]` first and then the rest in
      order keeps the whole tail in the order of `ps`. */
  lemma AppendInOrderStep(list: seq<string>, ps: seq<string>, r: seq<string>)
    requires |ps| > 0
    requires AppendsOnlyNew(AppendIfAbsent(list, ps[0]), r)
    requires forall q :: q in r <==> q in AppendIfAbsent(list, ps[0]) || q in ps[1..]
    requires InOrderOf(r, |AppendIfAbsent(list, ps[0])|, ps[1..])
    ensures InOrderOf(r, |list|, ps)
  {
    var next := AppendIfAbsent(list, ps[0]);
    forall a, b | |list| <= a < b < |r|
      ensures r[a] in ps && r[b] in ps && IndexOf(ps, r[a]) < IndexOf(ps, r[b])
    {
      assert r[b] in r[|next|..] && r[b] !in next;
      assert r[b] in ps[1..] && r[b] != ps[0];
      IndexOfTail(ps, r[b]);
      if a < |next| {
        assert a == |list| && ps[0] !in list;
        assert r[a] == next[a] == ps[0];
      } else {
        assert r[a] in r[|next|..] && r[a] !in next;
        IndexOfTail(ps, r[a]);
      }
    }
  }

  /** Appending patterns that are all listed already changes nothing. */
  lemma {:induction false} AppendAllAbsentPresent(list: seq<string>, ps: seq<string>)
    requires forall p :: p in ps ==> p in list
    ensures AppendAllAbsent(list, ps) == list
    decreases |ps|
  {
    if |ps| > 0 {
      AppendAllAbsentPresent(list, ps[1..]);
    }
  }

  /** One CLI include, routed by `IsFilePattern` as the merge loop does. */
  function AddInclude(pc: PatternConfig, p: string): PatternConfig {
    if IsFilePattern(p) then pc.(files := AppendIfAbsent(pc.files, p))
    else pc.(directories := AppendIfAbsent(pc.directories, p))
  }

  /** The include loop of the merge: each pattern routed in turn. */
  function AddIncludes(pc: PatternConfig, ps: seq<string>): PatternConfig
    decreases |ps|
  {
    if |ps| == 0 then pc else AddIncludes(AddInclude(pc, ps[0]), ps[1..])
  }

  /** The interleaved include loop is the same as appending the file-like
      patterns to `files` and the others to `directories`. */
  lemma {:induction false} AddIncludesSplits(pc: PatternConfig, ps: seq<string>)
    ensures AddIncludes(pc, ps) == pc.(
      files := AppendAllAbsent(pc.files, FilePatterns(ps)),
      directories := AppendAllAbsent(pc.directories, DirectoryPatterns(ps)))
    decreases |ps|
  {
    if |ps| > 0 {
      AddIncludesSplits(AddInclude(pc, ps[0]), ps[1..]);
      var p := ps[0];
      if IsFilePattern(p) {
        assert FilePatterns(ps) == [p] + FilePatterns(ps[1..]);
        assert DirectoryPatterns(ps) == DirectoryPatterns(ps[1..]);
        assert ([p] + FilePatterns(ps[1..]))[1..] == FilePatterns(ps[1..]);
      } else {
        assert DirectoryPatterns(ps) == [p] + DirectoryPatterns(ps[1..]);
        assert FilePatterns(ps) == FilePatterns(ps[1..]);
        assert ([p] + DirectoryPatterns(ps[1..]))[1..] == DirectoryPatterns(ps[1..]);
      }
    } else {
      AppendsOnlyNewReflexive(pc.files);
    }
  }

  const ENV_PATTERNS: seq<string> := [".env", ".env.example"]

  /** `merge_cli_args`: CLI excludes, then CLI includes, then (with
      `preserve_env`) `.env` and `.env.example`, each appended only when
      absent. */
  function MergeCliArgs(c: Config, excludes: seq<string>, includes: seq<string>, preserveEnv: bool): (r: Config)
    ensures r.options == c.options && r.safety == c.safety
    ensures AppendsOnlyNew(c.patterns.exclude, r.patterns.exclude)
    ensures AppendsOnlyNew(c.patterns.files, r.patterns.files)
    ensures AppendsOnlyNew(c.patterns.directories, r.patterns.directories)
    ensures forall p :: p in r.patterns.exclude <==>
      p in c.patterns.exclude || p in excludes || (preserveEnv && p in ENV_PATTERNS)
    ensures forall p :: p in r.patterns.files <==> p in c.patterns.files || (p in includes && IsFilePattern(p))
    ensures forall p :: p in r.patterns.directories <==>
      p in c.patterns.directories || (p in includes && !IsFilePattern(p))
  {
    var withExcludes := c.patterns.(exclude := AppendAllAbsent(c.patterns.exclude, excludes));
    var withIncludes := AddIncludes(withExcludes, includes);
    AddIncludesSplits(withExcludes, includes);
    var withEnv :=
      if preserveEnv then
        var e := AppendIfAbsent(AppendIfAbsent(withIncludes.exclude, ".env"), ".env.example");
        AppendsOnlyNewTransitive(withIncludes.exclude, AppendIfAbsent(withIncludes.exclude, ".env"), e);
        withIncludes.(exclude := e)
      else withIncludes;
    AppendsOnlyNewTransitive(c.patterns.exclude, withExcludes.exclude, withEnv.exclude);
    c.(patterns := withEnv)
  }

  /** Merging the same arguments twice is the same as merging them once. */
  lemma MergeCliArgsIdempotent(c: Config, excludes: seq<string>, includes: seq<string>, preserveEnv: bool)
    ensures MergeCliArgs(MergeCliArgs(c, excludes, includes, preserveEnv), excludes, includes, preserveEnv)
         == MergeCliArgs(c, excludes, includes, preserveEnv)
  {
    var once := MergeCliArgs(c, excludes, includes, preserveEnv);
    var pc := once.patterns;
    AppendAllAbsentPresent(pc.exclude, excludes);
    var withExcludes := pc.(exclude := AppendAllAbsent(pc.exclude, excludes));
    assert withExcludes == pc;
    AddIncludesSplits(pc, includes);
    AppendAllAbsentPresent(pc.files, FilePatterns(includes));
    AppendAllAbsentPresent(pc.directories, DirectoryPatterns(includes));
    assert AddIncludes(pc, includes) == pc;
  }

  /** With `preserve_env` and no patterns, a configuration lacking both `.env`
      entries gains exactly those two excludes. */
  lemma PreserveEnvAddsTwo(c: Config)
    requires ".env" !in c.patterns.exclude && ".env.example" !in c.patterns.exclude
    ensures var r := MergeCliArgs(c, [], [], true);
      && |r.patterns.exclude| == |c.patterns.exclude| + 2
      && ".env" in r.patterns.exclude && ".env.example" in r.patterns.exclude
  {
    assert ".env" != ".env.example";
  }

  /** One new exclude, one new file-like include and one new directory include
      each lengthen their list by one. */
  lemma MergeNewPatternsGrowByOne(c: Config)
    requires "custom_exclude" !in c.patterns.exclude
    requires "custom_include.file" !in c.patterns.files
    requires "custom_dir" !in c.patterns.directories
    ensures var r := MergeCliArgs(c, ["custom_exclude"], ["custom_include.file", "custom_dir"], false);
      && |r.patterns.exclude| == |c.patterns.exclude| + 1 && "custom_exclude" in r.patterns.exclude
      && |r.patterns.files| == |c.patterns.files| + 1 && "custom_include.file" in r.patterns.files
      && |r.patterns.directories| == |c.patterns.directories| + 1 && "custom_dir" in r.patterns.directories
  {
    var inc := ["custom_include.file", "custom_dir"];
    assert IsFilePattern("custom_include.file") by { assert "custom_include.file"[14] == '.'; }
    assert !IsFilePattern("custom_dir");
    assert FilePatterns(inc) == ["custom_include.file"];
    assert DirectoryPatterns(inc) == ["custom_dir"];
    AddIncludesSplits(c.patterns.(exclude := AppendAllAbsent(c.patterns.exclude, ["custom_exclude"])), inc);
  }
}
