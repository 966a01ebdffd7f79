/** The repository registry of pygit/pygit.py and its packaged twin
    build/lib/pygit/initialize.py: two maps, id -> name and name -> path, filled by
    a scan of a master directory and an append of single directories, each
    accepted repository taking the next consecutive decimal id. */
module Registry {
  import opened Results
  import opened Strings
  import opened FileSystems

  /** Which registration code runs: pygit/pygit.py or build/lib/pygit/initialize.py. */
  datatype Variant = Script | Package

  /** A repository as the registry records it. */
  datatype Repo = Repo(name: string, path: string)

  /** `enforce_exclusion`: a folder whose name starts with "." or "_" is skipped. */
  function EnforceExclusion(folder: string): (r: bool)
    ensures r <==> |folder| > 0 && (folder[0] == '.' || folder[0] == '_')
  {
    StartsWith(folder, ".") || StartsWith(folder, "_")
  }

  /** `match_rule`: no rules (or an empty list) skip nothing; otherwise a path is
      skipped when some rule occurs in it. */
  function MatchRule(rules: Option<seq<string>>, path: string): (r: bool)
    ensures r <==> rules.Some? && exists k :: 0 <= k < |rules.value| && Contains(path, rules.value[k])
  {
    rules.Some? && rules.value != [] && ContainsAny(path, rules.value)
  }

  /** The name a repository is shelved under: the last segment of its path for the
      platform's separator. On any other platform the source never assigns it, so
      the name is `fallback`, whatever the variable still holds. */
  function RepoName(platform: Platform, path: string, fallback: Option<string>): Option<string>
  {
    match platform
    case Linux => Some(LastSegment(path, '/'))
    case Win32 => Some(LastSegment(path, '\\'))
    case OtherPlatform => fallback
  }

  /** A subdirectory found by the master scan is shelved under its own entry name. */
  lemma ChildNameIsEntry(platform: Platform, master: string, entry: string, fallback: Option<string>)
    requires platform != OtherPlatform && Separator(platform) !in entry
    ensures RepoName(platform, ChildPath(master, entry, Separator(platform)), fallback) == Some(entry)
  {
    LastSegmentOfChild(master, Separator(platform), entry);
  }

  /** What a registration loop does with one candidate directory. */
  datatype Verdict = Skip | Accept(repo: Repo) | Fail(error: Error)

  /** The repository test and naming shared by both passes. */
  function Admit(fs: FileSystem, platform: Platform, path: string, fallback: Option<string>): (v: Verdict)
    ensures v.Accept? ==> v.repo.path == path && path in fs.dirs && ".git" in fs.dirs[path]
    ensures v.Skip? ==> path in fs.dirs && ".git" !in fs.dirs[path]
  {
    match IsGitRepo(fs, path)
    case Err(e) => Fail(e)
    case Ok(isRepo) =>
      if !isRepo then Skip
      else
        match RepoName(platform, path, fallback)
        case None => Fail(UnboundLocalError("name"))
        case Some(n) => Accept(Repo(n, path))
  }

  /** Whether the master scan excludes the child `entry` at `path`: the script
      tests the exclusion on the child's full path, the package on the entry name. */
  function Excluded(variant: Variant, path: string, entry: string): bool
  {
    EnforceExclusion(if variant == Script then path else entry)
  }

  /** The master scan's treatment of subdirectory `entry` of `master`: the
      exclusion, then the rules on the path, then the repository test. */
  function MasterVerdict(fs: FileSystem, variant: Variant, platform: Platform, master: string,
                         rules: Option<seq<string>>, entry: string): (v: Verdict)
    ensures var path := ChildPath(master, entry, Separator(platform));
            v.Accept? ==> && !Excluded(variant, path, entry) && !MatchRule(rules, path)
                          && v.repo.path == path && path in fs.dirs && ".git" in fs.dirs[path]
  {
    var path := ChildPath(master, entry, Separator(platform));
    if Excluded(variant, path, entry) then Skip
    else if MatchRule(rules, path) then Skip
    else Admit(fs, platform, path, if variant == Script then None else Some(entry))
  }

  /** A subdirectory the scan may register: not excluded, matching no rule, and
      holding ".git". */
  predicate Registrable(fs: FileSystem, variant: Variant, rules: Option<seq<string>>, master: string, entry: string, sep: char)
  {
    var path := ChildPath(master, entry, sep);
    path in fs.dirs && !Excluded(variant, path, entry) && !MatchRule(rules, path) && ".git" in fs.dirs[path]
  }

  /** On a platform with a separator, a listed subdirectory is registered under its
      entry name exactly when it is registrable, and skipped otherwise. */
  lemma MasterVerdictExactly(fs: FileSystem, variant: Variant, platform: Platform, master: string,
                             rules: Option<seq<string>>, entry: string)
    requires platform != OtherPlatform && Separator(platform) !in entry
    requires ChildPath(master, entry, Separator(platform)) in fs.dirs
    ensures var path := ChildPath(master, entry, Separator(platform));
            MasterVerdict(fs, variant, platform, master, rules, entry)
            == if Registrable(fs, variant, rules, master, entry, Separator(platform)) then Accept(Repo(entry, path)) else Skip
  {
    LastSegmentOfChild(master, Separator(platform), entry);
  }

  function MasterVerdicts(fs: FileSystem, variant: Variant, platform: Platform, master: string,
                          rules: Option<seq<string>>, entries: seq<string>): (vs: seq<Verdict>)
    ensures |vs| == |entries|
    ensures forall k :: 0 <= k < |vs| ==> vs[k] == MasterVerdict(fs, variant, platform, master, rules, entries[k])
  {
    seq(|entries|, k requires 0 <= k < |entries| => MasterVerdict(fs, variant, platform, master, rules, entries[k]))
  }

  function SimpleVerdicts(fs: FileSystem, platform: Platform, dirs: seq<string>): (vs: seq<Verdict>)
    ensures |vs| == |dirs|
    ensures forall k :: 0 <= k < |vs| ==> vs[k] == Admit(fs, platform, dirs[k], None)
  {
    seq(|dirs|, k requires 0 <= k < |dirs| => Admit(fs, platform, dirs[k], None))
  }

  /** The repositories a loop shelves, in order, and the exception that stopped it. */
  datatype Scan = Scan(repos: seq<Repo>, error: Option<Error>)

  /** One step of a registration loop. */
  function Then(s: Scan, v: Verdict): Scan
  {
    if s.error.Some? then s
    else
      match v
      case Skip => s
      case Accept(r) => Scan(s.repos + [r], None)
      case Fail(e) => Scan(s.repos, Some(e))
  }

  /** Running a loop over the verdicts: accepted repositories are shelved until
      the first failure, which ends the loop. */
  function Collect(vs: seq<Verdict>): (s: Scan)
    ensures |s.repos| <= |vs|
  {
    if vs == [] then Scan([], None) else Then(Collect(vs[..|vs| - 1]), vs[|vs| - 1])
  }

  lemma CollectPrefix(vs: seq<Verdict>, k: nat)
    requires k < |vs|
    ensures Collect(vs[..k + 1]) == Then(Collect(vs[..k]), vs[k])
  {
    assert vs[..k + 1][..k] == vs[..k];
  }

  /** A loop step that skips the candidate. */
  lemma StepSkip(vs: seq<Verdict>, k: nat, repos: seq<Repo>)
    requires k < |vs| && vs[k] == Skip && Collect(vs[..k]) == Scan(repos, None)
    ensures Collect(vs[..k + 1]) == Scan(repos, None)
  {
    CollectPrefix(vs, k);
  }

  /** A loop step that shelves the candidate. */
  lemma StepAccept(vs: seq<Verdict>, k: nat, repos: seq<Repo>, r: Repo)
    requires k < |vs| && vs[k] == Accept(r) && Collect(vs[..k]) == Scan(repos, None)
    ensures Collect(vs[..k + 1]) == Scan(repos + [r], None)
  {
    CollectPrefix(vs, k);
  }

  /** A loop step that raises: the whole loop ends with what was shelved so far. */
  lemma StepFail(vs: seq<Verdict>, k: nat, repos: seq<Repo>, e: Error)
    requires k < |vs| && vs[k] == Fail(e) && Collect(vs[..k]) == Scan(repos, None)
    ensures Collect(vs) == Scan(repos, Some(e))
  {
    CollectPrefix(vs, k);
    CollectKeepsError(vs, k + 1);
  }

  lemma NumberSnoc(index: map<string, string>, start: nat, repos: seq<Repo>, r: Repo)
    ensures Number(index, start, repos + [r]) == Number(index, start, repos)[NatToString(start + |repos|) := r.name]
  {
    assert (repos + [r])[..|repos|] == repos;
  }

  lemma RecordSnoc(names: map<string, string>, repos: seq<Repo>, r: Repo)
    ensures Record(names, repos + [r]) == Record(names, repos)[r.name := r.path]
  {
    assert (repos + [r])[..|repos|] == repos;
  }

  /** Once a loop has failed, the rest of the candidates change nothing. */
  lemma {:induction false} CollectKeepsError(vs: seq<Verdict>, k: nat)
    requires k <= |vs| && Collect(vs[..k]).error.Some?
    ensures Collect(vs) == Collect(vs[..k])
    decreases |vs|
  {
    if k < |vs| {
      assert vs[..|vs| - 1][..k] == vs[..k];
      CollectKeepsError(vs[..|vs| - 1], k);
    } else {
      assert vs[..k] == vs;
    }
  }

  /** Without a failure, exactly the accepted candidates are shelved, and no
      skipped candidate is among them. */
  lemma {:induction false} CollectAccepted(vs: seq<Verdict>)
    requires forall k :: 0 <= k < |vs| ==> !vs[k].Fail?
    ensures Collect(vs).error.None?
    ensures forall r :: r in Collect(vs).repos <==> exists k :: 0 <= k < |vs| && vs[k] == Accept(r)
  {
    if vs != [] {
      var init := vs[..|vs| - 1];
      CollectAccepted(init);
      assert forall k :: 0 <= k < |init| ==> init[k] == vs[k];
      assert forall r :: (exists k :: 0 <= k < |init| && init[k] == Accept(r)) ==> exists k :: 0 <= k < |vs| && vs[k] == Accept(r);
    }
  }

  /** The first failure stops the loop: its error is the loop's, and nothing after it is shelved. */
  lemma {:induction false} CollectStopsAtFirstFailure(vs: seq<Verdict>, k: nat)
    requires k < |vs| && vs[k].Fail?
    requires forall j :: 0 <= j < k ==> !vs[j].Fail?
    ensures Collect(vs) == Scan(Collect(vs[..k]).repos, Some(vs[k].error))
  {
    CollectAccepted(vs[..k]);
    assert vs[..k + 1][..k] == vs[..k];
    CollectKeepsError(vs, k + 1);
  }

  /** `shelve_master_directory` (pygit/pygit.py) and the master loop of
      `initialize` (build/lib/pygit/initialize.py): nothing without a master
      directory; the listing error when it cannot be listed; else the scan of its
      subdirectories in listing order. */
  function MasterPass(fs: FileSystem, variant: Variant, platform: Platform, master: Option<string>,
                      rules: Option<seq<string>>): Scan
  {
    if master.None? || master.value == "" then Scan([], None)
    else
      match ListDir(fs, master.value)
      case Err(e) => Scan([], Some(e))
      case Ok(entries) =>
        var folders := SubdirNames(fs, master.value, entries, Separator(platform));
        Collect(MasterVerdicts(fs, variant, platform, master.value, rules, folders))
  }

  /** Once the master directory can be listed, the scan never raises and registers
      exactly its registrable subdirectories, each under its entry name. */
  lemma MasterPassExactly(fs: FileSystem, variant: Variant, platform: Platform, master: string,
                          rules: Option<seq<string>>)
    requires platform != OtherPlatform && master != "" && master in fs.dirs
    requires forall e :: e in fs.dirs[master] ==> Separator(platform) !in e
    ensures var scan := MasterPass(fs, variant, platform, Some(master), rules);
            && scan.error.None?
            && forall r :: r in scan.repos <==>
                 exists e :: e in fs.dirs[master] && Registrable(fs, variant, rules, master, e, Separator(platform))
                             && r == Repo(e, ChildPath(master, e, Separator(platform)))
  {
    var sep := Separator(platform);
    var folders := SubdirNames(fs, master, fs.dirs[master], sep);
    var vs := MasterVerdicts(fs, variant, platform, master, rules, folders);
    assert ListDir(fs, master) == Ok(fs.dirs[master]);
    forall k | 0 <= k < |vs|
      ensures vs[k] == if Registrable(fs, variant, rules, master, folders[k], sep)
                       then Accept(Repo(folders[k], ChildPath(master, folders[k], sep))) else Skip
    {
      MasterVerdictExactly(fs, variant, platform, master, rules, folders[k]);
    }
    CollectAccepted(vs);
    forall r | r in Collect(vs).repos
      ensures exists e :: e in fs.dirs[master] && Registrable(fs, variant, rules, master, e, sep)
                          && r == Repo(e, ChildPath(master, e, sep))
    {
      var k :| 0 <= k < |vs| && vs[k] == Accept(r);
      assert folders[k] in fs.dirs[master];
    }
    forall r | exists e :: e in fs.dirs[master] && Registrable(fs, variant, rules, master, e, sep)
                           && r == Repo(e, ChildPath(master, e, sep))
      ensures r in Collect(vs).repos
    {
      var e :| e in fs.dirs[master] && Registrable(fs, variant, rules, master, e, sep)
               && r == Repo(e, ChildPath(master, e, sep));
      assert e in folders;
      var k :| 0 <= k < |folders| && folders[k] == e;
      assert vs[k] == Accept(r);
    }
  }

  /** `shelve_simple_directory`: each listed directory in turn. */
  function SimplePass(fs: FileSystem, platform: Platform, dirs: Option<seq<string>>): Scan
  {
    if dirs.None? || dirs.value == [] then Scan([], None)
    else Collect(SimpleVerdicts(fs, platform, dirs.value))
  }

  // ---------------------------------------------------------------------------
  // The two shelves

  /** The ids "1", ..., str(n). */
  function Ids(n: nat): set<string>
  {
    if n == 0 then {} else Ids(n - 1) + {NatToString(n)}
  }

  /** Each of "1", ..., str(n) is among the first n ids. */
  lemma {:induction false} IdsHave(n: nat, k: nat)
    requires 1 <= k <= n
    ensures NatToString(k) in Ids(n)
  {
    if k < n {
      IdsHave(n - 1, k);
    }
  }

  /** A later id is not among the first n. */
  lemma {:induction false} IdsMiss(n: nat, m: nat)
    requires n < m
    ensures NatToString(m) !in Ids(n)
  {
    if n > 0 {
      IdsMiss(n - 1, m);
      NatToStringDiffers(n, m);
    }
  }

  /** The first n ids are n distinct keys. */
  lemma {:induction false} IdsCount(n: nat)
    ensures |Ids(n)| == n
  {
    if n > 0 {
      IdsCount(n - 1);
      IdsMiss(n - 1, n);
    }
  }

  /** The index keys are exactly "1", ..., str(number of keys). */
  ghost predicate Contiguous(index: map<string, string>)
  {
    index.Keys == Ids(|index|)
  }

  /** Every id up to the size of a contiguous index is one of its keys. */
  lemma IdInContiguous(index: map<string, string>, k: nat)
    requires Contiguous(index) && 1 <= k <= |index|
    ensures NatToString(k) in index
  {
    IdsHave(|index|, k);
  }

  /** Every id names a repository whose path is recorded. */
  predicate Resolvable(index: map<string, string>, names: map<string, string>)
  {
    forall id :: id in index ==> index[id] in names
  }

  /** `INDEX_SHELF[str(i)] = name; i += 1` over the shelved repositories, from `start`. */
  function Number(index: map<string, string>, start: nat, repos: seq<Repo>): map<string, string>
  {
    if repos == [] then index
    else Number(index, start, repos[..|repos| - 1])[NatToString(start + |repos| - 1) := repos[|repos| - 1].name]
  }

  /** `NAME_SHELF[name] = path` over the shelved repositories. */
  function Record(names: map<string, string>, repos: seq<Repo>): map<string, string>
  {
    if repos == [] then names
    else Record(names, repos[..|repos| - 1])[repos[|repos| - 1].name := repos[|repos| - 1].path]
  }

  /** The next id after a contiguous index is new, and taking it keeps the index contiguous. */
  lemma ContiguousExtend(index: map<string, string>, name: string, next: nat)
    requires Contiguous(index) && next == |index| + 1
    ensures NatToString(next) !in index
    ensures Contiguous(index[NatToString(next) := name])
  {
    IdsMiss(|index|, next);
    var index' := index[NatToString(next) := name];
    assert index'.Keys == index.Keys + {NatToString(next)};
  }

  /** Shelving `repos` after a contiguous index, counting from the number of keys
      plus one, keeps the index contiguous and adds one key per repository. */
  lemma {:induction false} NumberContiguous(index: map<string, string>, repos: seq<Repo>)
    requires Contiguous(index)
    ensures Contiguous(Number(index, |index| + 1, repos))
    ensures |Number(index, |index| + 1, repos)| == |index| + |repos|
  {
    if repos != [] {
      var n := |repos|;
      var m := Number(index, |index| + 1, repos[..n - 1]);
      NumberContiguous(index, repos[..n - 1]);
      ContiguousExtend(m, repos[n - 1].name, |index| + 1 + n - 1);
    }
  }

  /** ... leaves every earlier entry untouched ... */
  lemma {:induction false} NumberKeepsEarlier(index: map<string, string>, repos: seq<Repo>)
    requires Contiguous(index)
    ensures forall id :: id in index ==> id in Number(index, |index| + 1, repos) && Number(index, |index| + 1, repos)[id] == index[id]
  {
    if repos != [] {
      var n := |repos|;
      var m := Number(index, |index| + 1, repos[..n - 1]);
      NumberKeepsEarlier(index, repos[..n - 1]);
      NumberContiguous(index, repos[..n - 1]);
      ContiguousExtend(m, repos[n - 1].name, |index| + 1 + n - 1);
    }
  }

  /** ... and gives the i-th repository id str(n + 1 + i). */
  lemma NumberGivesNextIds(index: map<string, string>, repos: seq<Repo>)
    ensures forall j :: |index| < j <= |index| + |repos| ==>
              NatToString(j) in Number(index, |index| + 1, repos) &&
              Number(index, |index| + 1, repos)[NatToString(j)] == repos[j - |index| - 1].name
  {
    forall j | |index| < j <= |index| + |repos|
      ensures NatToString(j) in Number(index, |index| + 1, repos) &&
              Number(index, |index| + 1, repos)[NatToString(j)] == repos[j - |index| - 1].name
    {
      NumberGivesId(index, repos, j);
    }
  }

  lemma {:induction false} NumberGivesId(index: map<string, string>, repos: seq<Repo>, j: nat)
    requires |index| < j <= |index| + |repos|
    ensures NatToString(j) in Number(index, |index| + 1, repos)
    ensures Number(index, |index| + 1, repos)[NatToString(j)] == repos[j - |index| - 1].name
  {
    var n := |repos|;
    var init := repos[..n - 1];
    var m := Number(index, |index| + 1, init);
    assert Number(index, |index| + 1, repos) == m[NatToString(|index| + n) := repos[n - 1].name];
    if j < |index| + n {
      NumberGivesId(index, init, j);
      NatToStringDiffers(j, |index| + n);
      assert init[j - |index| - 1] == repos[j - |index| - 1];
    }
  }

  /** A fresh registry's empty index is contiguous. */
  lemma EmptyIsContiguous()
    ensures Contiguous(map[])
  {
  }

  /** A fresh registry hands out "1" first. */
  lemma FirstIdIsOne(repos: seq<Repo>)
    requires repos != []
    ensures var index := Number(map[], 1, repos);
            "1" in index && index["1"] == repos[0].name
  {
    NumberGivesNextIds(map[], repos);
    assert NatToString(1) == "1";
  }

  /** The names shelf after recording `repos`: the new names join the old ones. */
  lemma {:induction false} RecordKeys(names: map<string, string>, repos: seq<Repo>)
    ensures forall n :: n in Record(names, repos) <==> n in names || exists k :: 0 <= k < |repos| && repos[k].name == n
  {
    if repos != [] {
      var init := repos[..|repos| - 1];
      RecordKeys(names, init);
      assert forall k :: 0 <= k < |init| ==> init[k] == repos[k];
    }
  }

  /** A name recorded twice keeps the later path ... */
  lemma {:induction false} RecordLastWins(names: map<string, string>, repos: seq<Repo>, k: nat)
    requires k < |repos|
    requires forall j :: k < j < |repos| ==> repos[j].name != repos[k].name
    ensures repos[k].name in Record(names, repos) && Record(names, repos)[repos[k].name] == repos[k].path
  {
    var n := |repos|;
    var init := repos[..n - 1];
    if k < n - 1 {
      forall j | k < j < n - 1
        ensures init[j].name != init[k].name
      {
        assert init[j] == repos[j] && init[k] == repos[k];
      }
      RecordLastWins(names, init, k);
      assert init[k] == repos[k];
    }
  }

  /** ... and a name no repository took keeps its old path. */
  lemma {:induction false} RecordKeepsUntouched(names: map<string, string>, repos: seq<Repo>, name: string)
    requires name in names
    requires forall k :: 0 <= k < |repos| ==> repos[k].name != name
    ensures name in Record(names, repos) && Record(names, repos)[name] == names[name]
  {
    if repos != [] {
      var init := repos[..|repos| - 1];
      assert forall k :: 0 <= k < |init| ==> init[k] == repos[k];
      RecordKeepsUntouched(names, init, name);
    }
  }

  /** Shelving keeps every id resolvable to a recorded name. */
  lemma {:induction false} ShelveKeepsResolvable(index: map<string, string>, names: map<string, string>, start: nat, repos: seq<Repo>)
    requires Resolvable(index, names)
    ensures Resolvable(Number(index, start, repos), Record(names, repos))
  {
    if repos != [] {
      var init := repos[..|repos| - 1];
      ShelveKeepsResolvable(index, names, start, init);
      RecordKeys(names, init);
      RecordKeys(names, repos);
      assert forall k :: 0 <= k < |init| ==> init[k] == repos[k];
    }
  }

  /** A master scan followed by a simple append on a fresh registry leaves ids
      "1", ..., "m + s" exactly. */
  lemma RegistrationIds(scanned: seq<Repo>, appended: seq<Repo>)
    ensures var index1 := Number(map[], 1, scanned);
            var index2 := Number(index1, |index1| + 1, appended);
            Contiguous(index2)
  {
    var empty: map<string, string> := map[];
    EmptyIsContiguous();
    NumberContiguous(empty, scanned);
    NumberContiguous(Number(empty, 1, scanned), appended);
  }

  /** ... and the scan's repositories keep "1", ..., "m" through the append. */
  lemma RegistrationKeepsScanIds(scanned: seq<Repo>, appended: seq<Repo>, j: nat)
    requires 0 < j <= |scanned|
    ensures var index1 := Number(map[], 1, scanned);
            var index2 := Number(index1, |index1| + 1, appended);
            NatToString(j) in index2 && index2[NatToString(j)] == scanned[j - 1].name
  {
    var empty: map<string, string> := map[];
    EmptyIsContiguous();
    var index1 := Number(empty, 1, scanned);
    NumberContiguous(empty, scanned);
    NumberGivesNextIds(empty, scanned);
    assert NatToString(j) in index1;
    NumberKeepsEarlier(index1, appended);
  }

  // ---------------------------------------------------------------------------
  // The shelves as the registration code updates them

  /** The keys `shelve_git_path` may write into the names shelf. */
  datatype GitKind = GitWindows | GitBash

  function GitKey(kind: GitKind): string
  {
    if kind == GitWindows then "GIT_WINDOWS" else "GIT_BASH"
  }

  /** `NAME_SHELF` and `INDEX_SHELF`. */
  class Shelves {
    var names: map<string, string>
    var index: map<string, string>

    /** Ids are "1".."n" and each names a recorded repository. */
    ghost predicate Valid()
      reads this
    {
      Contiguous(index) && Resolvable(index, names)
    }

    /** `initialize` removes and recreates the shelf directory: both shelves start empty. */
    constructor ()
      ensures names == map[] && index == map[]
      ensures Valid()
    {
      names := map[];
      index := map[];
      new;
      EmptyIsContiguous();
    }

    /** `shelve_git_path`: the git executable's entry when one was found on the
        path, and no write otherwise. */
    method ShelveGitPath(gitPath: Option<(GitKind, string)>)
      modifies this
      ensures names == old(names) + GitEntry(gitPath) && index == old(index)
      ensures old(Valid()) ==> Valid()
    {
      if gitPath.Some? {
        names := names[GitKey(gitPath.value.0) := gitPath.value.1];
      } else {
        assert names + map[] == names;
      }
    }

    /** The shelving loop both passes share: each accepted repository takes the
        next id, a skipped entry takes none, and the first failure ends the loop
        with what was shelved before it kept. */
    method ShelveVerdicts(vs: seq<Verdict>) returns (error: Option<Error>)
      modifies this
      ensures var scan := Collect(vs);
              && error == scan.error
              && names == Record(old(names), scan.repos)
              && index == Number(old(index), |old(index)| + 1, scan.repos)
    {
      ghost var names0, index0 := names, index;
      ghost var repos: seq<Repo> := [];
      var i := |index| + 1;
      var k := 0;
      while k < |vs|
        invariant 0 <= k <= |vs|
        invariant Collect(vs[..k]) == Scan(repos, None)
        invariant names == Record(names0, repos)
        invariant index == Number(index0, |index0| + 1, repos)
        invariant i == |index0| + 1 + |repos|
      {
        match vs[k] {
          case Fail(e) =>
            StepFail(vs, k, repos, e);
            return Some(e);
          case Skip =>
            StepSkip(vs, k, repos);
          case Accept(r) =>
            StepAccept(vs, k, repos, r);
            RecordSnoc(names0, repos, r);
            NumberSnoc(index0, |index0| + 1, repos, r);
            names := names[r.name := r.path];
            index := index[NatToString(i) := r.name];
            i := i + 1;
            repos := repos + [r];
        }
        k := k + 1;
      }
      assert vs[..k] == vs;
      return None;
    }

    /** `shelve_master_directory` / the master loop of `initialize`. */
    method ShelveMaster(fs: FileSystem, variant: Variant, platform: Platform, master: Option<string>,
                        rules: Option<seq<string>>) returns (error: Option<Error>)
      modifies this
      ensures var scan := MasterPass(fs, variant, platform, master, rules);
              && error == scan.error
              && names == Record(old(names), scan.repos)
              && index == Number(old(index), |old(index)| + 1, scan.repos)
    {
      if master.None? || master.value == "" {
        return None;
      }
      var listing := ListDir(fs, master.value);
      if listing.Err? {
        return Some(listing.error);
      }
      var folders := SubdirNames(fs, master.value, listing.value, Separator(platform));
      error := ShelveVerdicts(MasterVerdicts(fs, variant, platform, master.value, rules, folders));
    }

    /** `shelve_simple_directory` / the simple loop of `initialize`: a directory
        that is not a repository is skipped without taking an id; one that cannot
        be listed stops the loop with what was shelved so far kept. */
    method ShelveSimple(fs: FileSystem, platform: Platform, dirs: Option<seq<string>>) returns (error: Option<Error>)
      modifies this
      ensures var scan := SimplePass(fs, platform, dirs);
              && error == scan.error
              && names == Record(old(names), scan.repos)
              && index == Number(old(index), |old(index)| + 1, scan.repos)
    {
      if dirs.None? || dirs.value == [] {
        return None;
      }
      error := ShelveVerdicts(SimpleVerdicts(fs, platform, dirs.value));
    }
  }

  /** Both registration passes keep the shelves valid, whether they finish or stop
      early. */
  lemma ShelvingKeepsValid(index: map<string, string>, names: map<string, string>, repos: seq<Repo>)
    requires Contiguous(index) && Resolvable(index, names)
    ensures Contiguous(Number(index, |index| + 1, repos))
    ensures Resolvable(Number(index, |index| + 1, repos), Record(names, repos))
    ensures |Number(index, |index| + 1, repos)| == |index| + |repos|
  {
    NumberContiguous(index, repos);
    ShelveKeepsResolvable(index, names, |index| + 1, repos);
  }

  /** ... and so does a first pass over fresh shelves, numbering from "1". */
  lemma ShelvingFromEmpty(names: map<string, string>, repos: seq<Repo>)
    ensures Contiguous(Number(map[], 1, repos)) && |Number(map[], 1, repos)| == |repos|
    ensures Resolvable(Number(map[], 1, repos), Record(names, repos))
  {
    var empty: map<string, string> := map[];
    EmptyIsContiguous();
    assert |empty| + 1 == 1;
    ShelvingKeepsValid(empty, names, repos);
  }

  /** What `shelve_git_path` writes: the git executable's entry when one was
      found, nothing otherwise. */
  function GitEntry(gitPath: Option<(GitKind, string)>): map<string, string>
  {
    if gitPath.Some? then map[GitKey(gitPath.value.0) := gitPath.value.1] else map[]
  }

  /** `initialize` in pygit/pygit.py: fresh shelves, the git executable entry when
      one was found, the master scan, then the simple directories. An exception
      in the scan ends the run. */
  method Initialize(fs: FileSystem, platform: Platform, gitPath: Option<(GitKind, string)>,
                    master: Option<string>, rules: Option<seq<string>>, simple: Option<seq<string>>)
    returns (shelves: Shelves, error: Option<Error>)
    ensures fresh(shelves) && shelves.Valid()
    ensures var scanned := MasterPass(fs, Script, platform, master, rules);
            var appended := SimplePass(fs, platform, simple);
            var g := GitEntry(gitPath);
            && (scanned.error.Some? ==>
                  && error == scanned.error
                  && shelves.names == Record(g, scanned.repos)
                  && shelves.index == Number(map[], 1, scanned.repos))
            && (scanned.error.None? ==>
                  && error == appended.error
                  && shelves.names == Record(Record(g, scanned.repos), appended.repos)
                  && shelves.index == Number(Number(map[], 1, scanned.repos), |scanned.repos| + 1, appended.repos))
  {
    shelves := new Shelves();
    shelves.ShelveGitPath(gitPath);
    ghost var scanned := MasterPass(fs, Script, platform, master, rules);
    assert shelves.names == GitEntry(gitPath) by {
      assert map[] + GitEntry(gitPath) == GitEntry(gitPath);
    }
    assert |shelves.index| + 1 == 1;
    error := shelves.ShelveMaster(fs, Script, platform, master, rules);
    ghost var index1, names1 := shelves.index, shelves.names;
    ShelvingFromEmpty(GitEntry(gitPath), scanned.repos);
    if error.Some? {
      return;
    }
    ghost var appended := SimplePass(fs, platform, simple);
    error := shelves.ShelveSimple(fs, platform, simple);
    ShelvingKeepsValid(index1, names1, appended.repos);
    SecondPassNumbering(scanned.repos, appended.repos, index1, shelves.index);
  }

  /** The simple pass numbers on from the first pass over fresh shelves. */
  lemma SecondPassNumbering(first: seq<Repo>, second: seq<Repo>, index1: map<string, string>, index2: map<string, string>)
    requires index1 == Number(map[], 1, first) && index2 == Number(index1, |index1| + 1, second)
    ensures index2 == Number(Number(map[], 1, first), |first| + 1, second)
  {
    ShelvingFromEmpty(map[], first);
  }

  // ---------------------------------------------------------------------------
  // Where pygit/pygit.py departs from its packaged twin

  /** A master directory holding one hidden repository and one plain repository. */
  const HiddenFs := FileSystem(map["/m" := [".cache", "proj"], "/m/.cache" := [".git"], "/m/proj" := [".git"]], {})

  /** The script tests the exclusion on the child's full path, which starts with
      the master directory's first character: below an absolute master no folder
      is ever excluded. */
  lemma ScriptExclusionNeverFires(master: string, entry: string, sep: char)
    requires master != [] && master[0] != '.' && master[0] != '_'
    ensures !EnforceExclusion(ChildPath(master, entry, sep))
  {
    assert ChildPath(master, entry, sep)[0] == master[0];
  }

  /** The listing of the example master directory, and its two children. */
  lemma HiddenFsListing()
    ensures ChildPath("/m", ".cache", '/') == "/m/.cache" && ChildPath("/m", "proj", '/') == "/m/proj"
    ensures ListDir(HiddenFs, "/m") == Ok([".cache", "proj"])
    ensures SubdirNames(HiddenFs, "/m", [".cache", "proj"], '/') == [".cache", "proj"]
  {
    assert ChildPath("/m", ".cache", '/') == "/m/.cache";
    assert ChildPath("/m", "proj", '/') == "/m/proj";
    assert [".cache", "proj"][1..] == ["proj"];
  }

  /** Collecting two verdicts. */
  lemma CollectTwo(vs: seq<Verdict>)
    requires |vs| == 2
    ensures Collect(vs) == Then(Then(Scan([], None), vs[0]), vs[1])
  {
    assert vs[..1][..0] == [] && vs[..1][0] == vs[0];
    assert Collect(vs[..1]) == Then(Scan([], None), vs[0]);
    assert vs[..2] == vs;
  }

  /** The example master's scan, verdict by verdict. */
  lemma HiddenFsPass(variant: Variant, rules: Option<seq<string>>)
    ensures MasterPass(HiddenFs, variant, Linux, Some("/m"), rules)
         == Then(Then(Scan([], None), MasterVerdict(HiddenFs, variant, Linux, "/m", rules, ".cache")),
                 MasterVerdict(HiddenFs, variant, Linux, "/m", rules, "proj"))
  {
    HiddenFsListing();
    CollectTwo(MasterVerdicts(HiddenFs, variant, Linux, "/m", rules, [".cache", "proj"]));
  }

  /** On Linux a child directory holding ".git" is admitted under its entry name. */
  lemma LinuxAdmit(fs: FileSystem, dir: string, entry: string, fallback: Option<string>)
    requires '/' !in entry
    requires ChildPath(dir, entry, '/') in fs.dirs && ".git" in fs.dirs[ChildPath(dir, entry, '/')]
    ensures Admit(fs, Linux, ChildPath(dir, entry, '/'), fallback) == Accept(Repo(entry, ChildPath(dir, entry, '/')))
  {
    LastSegmentOfChild(dir, '/', entry);
  }

  /** The script accepts both children of the example master. */
  lemma ScriptHiddenVerdict()
    ensures MasterVerdict(HiddenFs, Script, Linux, "/m", None, ".cache") == Accept(Repo(".cache", "/m/.cache"))
  {
    HiddenFsListing();
    ScriptExclusionNeverFires("/m", ".cache", '/');
    assert '/' !in ".cache";
    assert ".git" in HiddenFs.dirs["/m/.cache"];
    LinuxAdmit(HiddenFs, "/m", ".cache", None);
  }

  lemma ScriptPlainVerdict()
    ensures MasterVerdict(HiddenFs, Script, Linux, "/m", None, "proj") == Accept(Repo("proj", "/m/proj"))
  {
    HiddenFsListing();
    ScriptExclusionNeverFires("/m", "proj", '/');
    assert '/' !in "proj";
    assert ".git" in HiddenFs.dirs["/m/proj"];
    LinuxAdmit(HiddenFs, "/m", "proj", None);
  }

  /** ... so the hidden folder is shelved like any other. */
  lemma ScriptExclusionMissesHiddenFolder()
    ensures MasterPass(HiddenFs, Script, Linux, Some("/m"), None)
         == Scan([Repo(".cache", "/m/.cache"), Repo("proj", "/m/proj")], None)
  {
    ScriptHiddenVerdict();
    ScriptPlainVerdict();
    HiddenFsPass(Script, None);
    TwoAccepts(Repo(".cache", "/m/.cache"), Repo("proj", "/m/proj"));
  }

  /** Two accepted repositories in a row are registered in that order. */
  lemma TwoAccepts(a: Repo, b: Repo)
    ensures Then(Then(Scan([], None), Accept(a)), Accept(b)) == Scan([a, b], None)
  {
    assert [] + [a] + [b] == [a, b];
  }

  /** The package skips the hidden folder and accepts the other. */
  lemma PackageHiddenVerdicts()
    ensures MasterVerdict(HiddenFs, Package, Linux, "/m", None, ".cache") == Skip
    ensures MasterVerdict(HiddenFs, Package, Linux, "/m", None, "proj") == Accept(Repo("proj", "/m/proj"))
  {
    HiddenFsListing();
    assert '/' !in ".cache" && '/' !in "proj";
    MasterVerdictExactly(HiddenFs, Package, Linux, "/m", None, ".cache");
    MasterVerdictExactly(HiddenFs, Package, Linux, "/m", None, "proj");
    assert EnforceExclusion(".cache") && !EnforceExclusion("proj");
    assert ".git" in HiddenFs.dirs["/m/proj"];
  }

  /** The package tests the entry name, and skips the hidden folder. */
  lemma PackageExclusionSkipsHiddenFolder()
    ensures MasterPass(HiddenFs, Package, Linux, Some("/m"), None) == Scan([Repo("proj", "/m/proj")], None)
  {
    PackageHiddenVerdicts();
    HiddenFsPass(Package, None);
  }

  /** In general the package never registers a folder whose name starts with "."
      or "_" ... */
  lemma PackageSkipsExcluded(fs: FileSystem, platform: Platform, master: string, rules: Option<seq<string>>)
    requires platform != OtherPlatform && master != "" && master in fs.dirs
    requires forall e :: e in fs.dirs[master] ==> Separator(platform) !in e
    ensures forall r :: r in MasterPass(fs, Package, platform, Some(master), rules).repos ==> !EnforceExclusion(r.name)
  {
    MasterPassExactly(fs, Package, platform, master, rules);
  }

  /** ... while the script, below a master not starting with "." or "_", registers
      every subdirectory holding ".git" that matches no rule, whatever its name. */
  lemma ScriptRegistersAnyName(fs: FileSystem, platform: Platform, master: string, rules: Option<seq<string>>, e: string)
    requires platform != OtherPlatform && master != "" && master in fs.dirs
    requires master[0] != '.' && master[0] != '_'
    requires forall x :: x in fs.dirs[master] ==> Separator(platform) !in x
    requires e in fs.dirs[master] && ChildPath(master, e, Separator(platform)) in fs.dirs
    requires ".git" in fs.dirs[ChildPath(master, e, Separator(platform))]
    requires !MatchRule(rules, ChildPath(master, e, Separator(platform)))
    ensures Repo(e, ChildPath(master, e, Separator(platform))) in MasterPass(fs, Script, platform, Some(master), rules).repos
  {
    ScriptExclusionNeverFires(master, e, Separator(platform));
    MasterPassExactly(fs, Script, platform, master, rules);
  }
}
