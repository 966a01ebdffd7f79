/** The JSON-file registry of pygit/api.py (with pygit/utils.py) and of its
    twin pygit/gitty.py: discovery of repositories and git executables, the
    name → path file, the id → name file, and `set_all`, which rebuilds them. */
module ApiStore {
  import opened Results
  import opened Strings
  import opened FileSystems

  // ---------------------------------------------------------------------------
  // Python dicts

  /** A dict with string keys, as `json` writes and reads it back: its keys in
      insertion order and its entries. */
  datatype Dict = Dict(keys: seq<string>, values: map<string, string>)

  /** The keys are distinct and are exactly the keys of the entries. */
  ghost predicate WellFormed(d: Dict)
  {
    && (forall i, j :: 0 <= i < j < |d.keys| ==> d.keys[i] != d.keys[j])
    && (forall key :: key in d.values <==> key in d.keys)
  }

  const EmptyDict := Dict([], map[])

  /** `d[key] = value`: a new key goes last; a key already present keeps its
      place and takes the new value. */
  function Assign(d: Dict, key: string, value: string): Dict
  {
    if key in d.values then Dict(d.keys, d.values[key := value])
    else Dict(d.keys + [key], d.values[key := value])
  }

  lemma AssignKeepsWellFormed(d: Dict, key: string, value: string)
    requires WellFormed(d)
    ensures WellFormed(Assign(d, key, value))
  {
  }

  /** `d.get(key, None)`. */
  function Get(d: Dict, key: string): (r: Option<string>)
    ensures r.Some? <==> key in d.values
    ensures r.Some? ==> r.value == d.values[key]
  {
    if key in d.values then Some(d.values[key]) else None
  }

  // ---------------------------------------------------------------------------
  // `get_repos_and_git` (utils.py) / `git_repo_path_and_exec_path` (gitty.py)

  const FileWin := "git-cmd.exe"
  const FileBash := "git-bash.exe"

  /** The repositories among the walked directories, in walking order: the
      comprehension filtered by `is_git_repo`, which cannot raise on a directory
      the walk has just visited. */
  function GitRepoDirs(fs: FileSystem, dirs: seq<string>): (r: seq<string>)
    requires forall k :: 0 <= k < |dirs| ==> dirs[k] in fs.dirs
    ensures forall d :: d in r <==> d in dirs && ".git" in fs.dirs[d]
  {
    if dirs == [] then []
    else
      var last := dirs[|dirs| - 1];
      GitRepoDirs(fs, dirs[..|dirs| - 1]) + (if ".git" in fs.dirs[last] then [last] else [])
  }

  /** The name a repository gets: the last "\\"-separated segment of its path. */
  function RepoName(path: string): string
  {
    LastSegment(path, '\\')
  }

  /** The names, aligned with the paths: each a trailing segment of its path with no
      backslash in it, and the whole path when the path has no backslash (so a
      "/"-separated path is its own name). */
  function RepoNames(repos: seq<string>): (names: seq<string>)
    ensures |names| == |repos|
    ensures forall k :: 0 <= k < |names| ==>
              && names[k] == RepoName(repos[k])
              && '\\' !in names[k]
              && names[k] == repos[k][|repos[k]| - |names[k]|..]
              && ('\\' !in repos[k] ==> names[k] == repos[k])
  {
    seq(|repos|, k requires 0 <= k < |repos| => RepoName(repos[k]))
  }

  /** `os.walk` lists `file` among the files of `root`: an entry that is not a directory. */
  predicate Holds(fs: FileSystem, root: string, file: string, sep: char)
  {
    root in fs.dirs && file in fs.dirs[root] && ChildPath(root, file, sep) !in fs.dirs
  }

  /** Where the executable loop leaves `file`: in the last walked root holding it. */
  function LastHolding(fs: FileSystem, roots: seq<string>, file: string, sep: char): Option<string>
  {
    if roots == [] then None
    else if Holds(fs, roots[|roots| - 1], file, sep) then Some(ChildPath(roots[|roots| - 1], file, sep))
    else LastHolding(fs, roots[..|roots| - 1], file, sep)
  }

  /** No root holds the file exactly when none is found; otherwise the path found
      is the file inside a root holding it with no later root holding it. */
  lemma {:induction false} LastHoldingIsLast(fs: FileSystem, roots: seq<string>, file: string, sep: char)
    ensures LastHolding(fs, roots, file, sep).None? <==> forall i :: 0 <= i < |roots| ==> !Holds(fs, roots[i], file, sep)
    ensures LastHolding(fs, roots, file, sep).Some? ==>
              exists j :: 0 <= j < |roots| && Holds(fs, roots[j], file, sep)
                          && LastHolding(fs, roots, file, sep).value == ChildPath(roots[j], file, sep)
                          && forall i :: j < i < |roots| ==> !Holds(fs, roots[i], file, sep)
  {
    if roots != [] {
      var n := |roots|;
      var init := roots[..n - 1];
      LastHoldingIsLast(fs, init, file, sep);
      if !Holds(fs, roots[n - 1], file, sep) {
        assert forall i :: 0 <= i < n - 1 ==> roots[i] == init[i];
        if LastHolding(fs, init, file, sep).Some? {
          var j :| 0 <= j < n - 1 && Holds(fs, init[j], file, sep)
                   && LastHolding(fs, init, file, sep).value == ChildPath(init[j], file, sep)
                   && forall i :: j < i < n - 1 ==> !Holds(fs, init[i], file, sep);
          assert roots[j] == init[j];
        }
      }
    }
  }

  /** The executable loop: every walked root holding `git-cmd.exe` overwrites
      `execs["win"]`, every one holding `git-bash.exe` overwrites `execs["bash"]`. */
  method FindExecs(fs: FileSystem, roots: seq<string>, sep: char) returns (execs: map<string, string>)
    ensures execs.Keys <= {"win", "bash"}
    ensures "win" in execs <==> LastHolding(fs, roots, FileWin, sep).Some?
    ensures "win" in execs ==> execs["win"] == LastHolding(fs, roots, FileWin, sep).value
    ensures "bash" in execs <==> LastHolding(fs, roots, FileBash, sep).Some?
    ensures "bash" in execs ==> execs["bash"] == LastHolding(fs, roots, FileBash, sep).value
  {
    execs := map[];
    var k := 0;
    while k < |roots|
      invariant 0 <= k <= |roots|
      invariant execs.Keys <= {"win", "bash"}
      invariant "win" in execs <==> LastHolding(fs, roots[..k], FileWin, sep).Some?
      invariant "win" in execs ==> execs["win"] == LastHolding(fs, roots[..k], FileWin, sep).value
      invariant "bash" in execs <==> LastHolding(fs, roots[..k], FileBash, sep).Some?
      invariant "bash" in execs ==> execs["bash"] == LastHolding(fs, roots[..k], FileBash, sep).value
    {
      assert roots[..k + 1][..k] == roots[..k];
      if Holds(fs, roots[k], FileWin, sep) {
        execs := execs["win" := ChildPath(roots[k], FileWin, sep)];
      }
      if Holds(fs, roots[k], FileBash, sep) {
        execs := execs["bash" := ChildPath(roots[k], FileBash, sep)];
      }
      k := k + 1;
    }
    assert roots[..k] == roots;
  }

  /** Where the two searches start (the search-path file). */
  datatype SearchPaths = SearchPaths(repos: string, execs: string)

  /** `get_repos_and_git`: the repositories under the repository search path, their
      names, and the executables under the executable search path. */
  method GetReposAndGit(fs: FileSystem, platform: Platform, search: SearchPaths)
    returns (repos: seq<string>, names: seq<string>, execs: map<string, string>)
    ensures repos == GitRepoDirs(fs, Walk(fs, search.repos, Separator(platform)))
    ensures names == RepoNames(repos)
    ensures var roots := Walk(fs, search.execs, Separator(platform));
            && execs.Keys <= {"win", "bash"}
            && ("win" in execs <==> LastHolding(fs, roots, FileWin, Separator(platform)).Some?)
            && ("win" in execs ==> execs["win"] == LastHolding(fs, roots, FileWin, Separator(platform)).value)
            && ("bash" in execs <==> LastHolding(fs, roots, FileBash, Separator(platform)).Some?)
            && ("bash" in execs ==> execs["bash"] == LastHolding(fs, roots, FileBash, Separator(platform)).value)
  {
    repos := GitRepoDirs(fs, Walk(fs, search.repos, Separator(platform)));
    names := RepoNames(repos);
    execs := FindExecs(fs, Walk(fs, search.execs, Separator(platform)), Separator(platform));
  }

  // ---------------------------------------------------------------------------
  // `set_input_data`

  /** `zip(names, repos)`: the pairs up to the shorter of the two. */
  function Zip(names: seq<string>, repos: seq<string>): (r: seq<(string, string)>)
    ensures |r| == if |names| <= |repos| then |names| else |repos|
    ensures forall k :: 0 <= k < |r| ==> r[k] == (names[k], repos[k])
  {
    var n := if |names| <= |repos| then |names| else |repos|;
    seq(n, k requires 0 <= k < n => (names[k], repos[k]))
  }

  /** The name → path dict the loop builds from the pairs. */
  function RepoPathOf(pairs: seq<(string, string)>): Dict
  {
    if pairs == [] then EmptyDict
    else Assign(RepoPathOf(pairs[..|pairs| - 1]), pairs[|pairs| - 1].0, pairs[|pairs| - 1].1)
  }

  lemma {:induction false} RepoPathWellFormed(pairs: seq<(string, string)>)
    ensures WellFormed(RepoPathOf(pairs))
  {
    if pairs != [] {
      RepoPathWellFormed(pairs[..|pairs| - 1]);
      AssignKeepsWellFormed(RepoPathOf(pairs[..|pairs| - 1]), pairs[|pairs| - 1].0, pairs[|pairs| - 1].1);
    }
  }

  /** Exactly the names of the pairs are keys. */
  lemma {:induction false} RepoPathNames(pairs: seq<(string, string)>, name: string)
    ensures name in RepoPathOf(pairs).values <==> exists k :: 0 <= k < |pairs| && pairs[k].0 == name
  {
    if pairs != [] {
      var init := pairs[..|pairs| - 1];
      RepoPathNames(init, name);
      if name in RepoPathOf(init).values {
        var k :| 0 <= k < |init| && init[k].0 == name;
        assert pairs[k] == init[k];
      } else if name != pairs[|pairs| - 1].0 {
        forall k | 0 <= k < |pairs| ensures pairs[k].0 != name {
          if k < |init| {
            assert pairs[k] == init[k];
          }
        }
      }
    }
  }

  /** When two repositories share a name, the later one wins: a pair whose name
      does not come again is what the name maps to. */
  lemma {:induction false} RepoPathLastWins(pairs: seq<(string, string)>, k: nat)
    requires k < |pairs|
    requires forall i :: k < i < |pairs| ==> pairs[i].0 != pairs[k].0
    ensures pairs[k].0 in RepoPathOf(pairs).values
    ensures RepoPathOf(pairs).values[pairs[k].0] == pairs[k].1
  {
    var n := |pairs|;
    if k < n - 1 {
      var init := pairs[..n - 1];
      assert init[k] == pairs[k];
      RepoPathLastWins(init, k);
    }
  }

  /** The keys of a dict filled key after key: each key where it first appears. */
  function FirstOccurrences(s: seq<string>): (r: seq<string>)
  {
    if s == [] then []
    else
      var r := FirstOccurrences(s[..|s| - 1]);
      if s[|s| - 1] in r then r else r + [s[|s| - 1]]
  }

  /** The names appear in the dict in the order they are first met. */
  lemma {:induction false} RepoPathKeyOrder(pairs: seq<(string, string)>)
    ensures RepoPathOf(pairs).keys == FirstOccurrences(seq(|pairs|, k requires 0 <= k < |pairs| => pairs[k].0))
  {
    var names := seq(|pairs|, k requires 0 <= k < |pairs| => pairs[k].0);
    if pairs != [] {
      var init := pairs[..|pairs| - 1];
      RepoPathKeyOrder(init);
      RepoPathWellFormed(init);
      assert names[..|names| - 1] == seq(|init|, k requires 0 <= k < |init| => init[k].0);
    }
  }

  /** `set_input_data`'s loop over `zip(names, repos)`. */
  method FillRepoPath(pairs: seq<(string, string)>) returns (d: Dict)
    ensures d == RepoPathOf(pairs)
  {
    d := EmptyDict;
    var k := 0;
    while k < |pairs|
      invariant 0 <= k <= |pairs|
      invariant d == RepoPathOf(pairs[..k])
    {
      assert pairs[..k + 1][..k] == pairs[..k];
      d := Assign(d, pairs[k].0, pairs[k].1);
      k := k + 1;
    }
    assert pairs[..k] == pairs;
  }

  /** `set_input_data(git_type)`: the executable of the chosen kind (a kind that was
      not found raises `KeyError` before anything is written), then the name → path dict. */
  method SetInputData(fs: FileSystem, platform: Platform, search: SearchPaths, gitType: string)
    returns (r: Result<(Dict, string)>)
    ensures var repos := GitRepoDirs(fs, Walk(fs, search.repos, Separator(platform)));
            var found := LastHolding(fs, Walk(fs, search.execs, Separator(platform)),
                                     if gitType == "win" then FileWin else FileBash, Separator(platform));
            && ((gitType == "win" || gitType == "bash") && found.Some? ==>
                  r == Ok((RepoPathOf(Zip(RepoNames(repos), repos)), found.value)))
            && (!(gitType == "win" || gitType == "bash") || found.None? ==> r == Err(KeyError(gitType)))
  {
    var repos, names, execs := GetReposAndGit(fs, platform, search);
    if gitType !in execs {
      return Err(KeyError(gitType));
    }
    var exe := execs[gitType];
    var d := FillRepoPath(Zip(names, repos));
    return Ok((d, exe));
  }

  // ---------------------------------------------------------------------------
  // `set_all`

  /** What `set_all` does about an existing base directory. */
  datatype Plan = LeaveAsIs | Rebuild(newSearchPaths: bool)

  /** A missing base directory is created and new search paths are chosen; when it
      exists, "1" regenerates it, "2" leaves everything unchanged, and any other
      answer keeps the search paths but still rebuilds the data. */
  function SetAllPlan(baseExists: bool, answer: string): (p: Plan)
    ensures p == LeaveAsIs <==> baseExists && answer == "2"
    ensures p.Rebuild? ==> (p.newSearchPaths <==> !baseExists || answer == "1")
  {
    if !baseExists then Rebuild(true)
    else if answer == "1" then Rebuild(true)
    else if answer == "2" then LeaveAsIs
    else Rebuild(false)
  }

  /** `for ind, val in enumerate(repos): ids[ind] = val`, with the integer keys as
      `json` writes them: the decimal text of each index. */
  function IdsOf(names: seq<string>): Dict
  {
    if names == [] then EmptyDict
    else Assign(IdsOf(names[..|names| - 1]), NatToString(|names| - 1), names[|names| - 1])
  }

  /** `key` is the decimal text of an index below `n`. */
  ghost predicate IndexKey(key: string, n: nat)
  {
    exists i :: 0 <= i < n && key == NatToString(i)
  }

  /** Every key is the decimal text of an index below the number of names, so the
      next index is never already a key and each step adds one key. */
  lemma {:induction false} IdsAreIndices(names: seq<string>)
    ensures |IdsOf(names).keys| == |names|
    ensures forall key :: key in IdsOf(names).values ==> IndexKey(key, |names|)
    ensures NatToString(|names|) !in IdsOf(names).values
  {
    if names != [] {
      var n := |names|;
      var init := names[..n - 1];
      IdsAreIndices(init);
      var m := IdsOf(names).values;
      assert m == IdsOf(init).values[NatToString(n - 1) := names[n - 1]];
      forall key | key in m
        ensures IndexKey(key, n)
      {
        if key == NatToString(n - 1) {
          assert 0 <= n - 1 < n;
        } else {
          assert IndexKey(key, n - 1);
          var i :| 0 <= i < n - 1 && key == NatToString(i);
          assert 0 <= i < n;
        }
      }
      forall i | 0 <= i < n
        ensures NatToString(i) != NatToString(n)
      {
        NatToStringDiffers(i, n);
      }
      assert !IndexKey(NatToString(n), n);
    }
  }

  /** The ids are "0" .. "n-1" in order, each mapping to the name at that position. */
  lemma {:induction false} IdsNumberEachName(names: seq<string>, k: nat)
    requires k < |names|
    ensures k < |IdsOf(names).keys| && IdsOf(names).keys[k] == NatToString(k)
    ensures NatToString(k) in IdsOf(names).values && IdsOf(names).values[NatToString(k)] == names[k]
  {
    var n := |names|;
    var init := names[..n - 1];
    IdsAreIndices(init);
    IdsAreIndices(names);
    if k < n - 1 {
      IdsNumberEachName(init, k);
      assert init[k] == names[k];
      NatToStringDiffers(k, n - 1);
    }
  }

  /** The enumerate loop of `set_all`. */
  method NumberIds(names: seq<string>) returns (ids: Dict)
    ensures ids == IdsOf(names)
  {
    ids := EmptyDict;
    var k := 0;
    while k < |names|
      invariant 0 <= k <= |names|
      invariant ids == IdsOf(names[..k])
    {
      assert names[..k + 1][..k] == names[..k];
      ids := Assign(ids, NatToString(k), names[k]);
      k := k + 1;
    }
    assert names[..k] == names;
  }

  const SearchPathsFile := "search_path.json"
  const RepoPathFile := "repo_path.json"
  const ExecPathFile := "exec_path.json"
  const IdsFile := "id_path.json"

  /** The base directory and the files in it (`None`: the file does not exist). */
  datatype BaseDir = BaseDir(present: bool, searchPaths: Option<SearchPaths>, execPath: Option<map<string, string>>,
                             repoPath: Option<Dict>, ids: Option<Dict>)

  /** A base directory that does not exist holds none of the four files. */
  predicate Consistent(base: BaseDir)
  {
    !base.present ==> base.searchPaths.None? && base.execPath.None? && base.repoPath.None? && base.ids.None?
  }

  /** `set_all(git_type)`. Regenerating empties the base directory and records the
      newly chosen search paths; the search-path file must then exist; a git kind
      that was not found raises `KeyError` with nothing more written; otherwise the
      executable, name → path and id → name files are written. */
  method SetAll(fs: FileSystem, platform: Platform, base: BaseDir, answer: string, chosen: SearchPaths, gitType: string)
    returns (after: BaseDir, error: Option<Error>)
    ensures Consistent(base) ==> Consistent(after)
    ensures var plan := SetAllPlan(base.present, answer);
            var start := if plan.Rebuild? && plan.newSearchPaths then BaseDir(true, Some(chosen), None, None, None) else base;
            && (plan == LeaveAsIs ==> after == base && error.None?)
            && (plan.Rebuild? && start.searchPaths.None? ==> after == start && error == Some(FileNotFoundError(SearchPathsFile)))
            && (plan.Rebuild? && start.searchPaths.Some? ==>
                  var search := start.searchPaths.value;
                  var repos := GitRepoDirs(fs, Walk(fs, search.repos, Separator(platform)));
                  var found := LastHolding(fs, Walk(fs, search.execs, Separator(platform)),
                                           if gitType == "win" then FileWin else FileBash, Separator(platform));
                  var d := RepoPathOf(Zip(RepoNames(repos), repos));
                  && ((gitType == "win" || gitType == "bash") && found.Some? ==>
                        error.None? &&
                        after == BaseDir(true, start.searchPaths, Some(map["git" := found.value]), Some(d), Some(IdsOf(d.keys))))
                  && (!(gitType == "win" || gitType == "bash") || found.None? ==>
                        error == Some(KeyError(gitType)) && after == start))
  {
    var plan := SetAllPlan(base.present, answer);
    if plan == LeaveAsIs {
      return base, None;
    }
    after := base;
    if plan.newSearchPaths {
      after := BaseDir(true, Some(chosen), None, None, None);
    }
    if after.searchPaths.None? {
      return after, Some(FileNotFoundError(SearchPathsFile));
    }
    var r := SetInputData(fs, platform, after.searchPaths.value, gitType);
    if r.Err? {
      return after, Some(r.error);
    }
    var (d, exe) := r.value;
    var ids := NumberIds(d.keys);
    return BaseDir(true, after.searchPaths, Some(map["git" := exe]), Some(d), Some(ids)), None;
  }

  /** After a rebuild, every path recorded under a name is a repository found by the
      walk, and its name is the last "\\"-separated segment of that path. */
  lemma {:induction false} RebuiltPathsAreRepos(fs: FileSystem, dirs: seq<string>, name: string)
    requires forall k :: 0 <= k < |dirs| ==> dirs[k] in fs.dirs
    requires name in RepoPathOf(Zip(RepoNames(GitRepoDirs(fs, dirs)), GitRepoDirs(fs, dirs))).values
    ensures var p := RepoPathOf(Zip(RepoNames(GitRepoDirs(fs, dirs)), GitRepoDirs(fs, dirs))).values[name];
            p in dirs && ".git" in fs.dirs[p] && RepoName(p) == name
  {
    var repos := GitRepoDirs(fs, dirs);
    var pairs := Zip(RepoNames(repos), repos);
    PairedValuesCome(pairs, name);
  }

  /** Every value of the dict is the path of a pair carrying its key. */
  lemma {:induction false} PairedValuesCome(pairs: seq<(string, string)>, name: string)
    requires name in RepoPathOf(pairs).values
    ensures exists k :: 0 <= k < |pairs| && pairs[k] == (name, RepoPathOf(pairs).values[name])
  {
    var n := |pairs|;
    var init := pairs[..n - 1];
    if name != pairs[n - 1].0 {
      PairedValuesCome(init, name);
      var k :| 0 <= k < |init| && init[k] == (name, RepoPathOf(init).values[name]);
      assert pairs[k] == init[k];
    } else {
      assert pairs[n - 1] == (name, RepoPathOf(pairs).values[name]);
    }
  }
}
