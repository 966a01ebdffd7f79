/** Reading the JSON-file registry back: `load`, the generators `load_set` and
    `load_all`, and `status_all`, of pygit/api.py and pygit/gitty.py. The two
    drafts differ only in the markers their status check looks for. */
module ApiRuns {
  import opened Results
  import opened Strings
  import opened FileSystems
  import opened Attention
  import opened Reports
  import opened Handle
  import opened Loading
  import opened ApiStore

  /** pygit/api.py takes `need_attention` from pygit/utils.py; pygit/gitty.py has its own. */
  datatype Draft = ApiDraft | GittyDraft

  function DraftMarkers(draft: Draft): seq<string>
  {
    if draft == ApiDraft then UtilsMarkers else GittyMarkers
  }

  // ---------------------------------------------------------------------------
  // `load`

  /** What `load(repo_id)` hands to the handle constructor: the name under the id,
      the path under that name and the git executable, each read with `.get`, so a
      missing entry gives `None` rather than an error. A missing id file is caught
      and leaves `repo_ids` unbound; a missing path or executable file raises. */
  function ApiLookup(base: BaseDir, id: string): (r: Result<(Option<string>, Option<string>, Option<string>)>)
    ensures r.Ok? <==> base.ids.Some? && base.repoPath.Some? && base.execPath.Some?
    ensures base.ids.None? ==> r == Err(UnboundLocalError("repo_ids"))
    ensures r.Ok? ==> r.value.0 == Get(base.ids.value, id)
    ensures r.Ok? && r.value.0.None? ==> r.value.1.None?
    ensures r.Ok? && r.value.0.Some? ==> r.value.1 == Get(base.repoPath.value, r.value.0.value)
    ensures r.Ok? ==> (r.value.2.Some? <==> "git" in base.execPath.value)
  {
    if base.ids.None? then Err(UnboundLocalError("repo_ids"))
    else if base.repoPath.None? then Err(FileNotFoundError(RepoPathFile))
    else if base.execPath.None? then Err(FileNotFoundError(ExecPathFile))
    else
      var name := Get(base.ids.value, id);
      var path := if name.None? then None else Get(base.repoPath.value, name.value);
      var exe := if "git" in base.execPath.value then Some(base.execPath.value["git"]) else None;
      Ok((name, path, exe))
  }

  /** The handle `load(repo_id)` returns, or the exception it raises. */
  function ApiLoadFields(fs: FileSystem, cwd: string, base: BaseDir, id: string): (r: Result<Fields>)
  {
    match ApiLookup(base, id)
    case Err(e) => Err(e)
    case Ok((name, path, exe)) => Bind(fs, cwd, name, path, exe, DefaultMessage)
  }

  /** An unknown id still gives a handle: no name, no path, and the directory the
      process was already in. */
  lemma ApiUnknownIdLoadsNone(fs: FileSystem, cwd: string, base: BaseDir, id: string)
    requires base.ids.Some? && base.repoPath.Some? && base.execPath.Some? && "git" in base.execPath.value
    requires id !in base.ids.value.values
    ensures ApiLoadFields(fs, cwd, base, id) == Ok(Fields(None, cwd, Some(base.execPath.value["git"]), DefaultMessage))
  {
  }

  /** The files a rebuild leaves: ids numbering the keys of a well-formed name → path
      dict whose paths are directories, and the executable of the chosen kind. */
  ghost predicate Rebuilt(fs: FileSystem, base: BaseDir, d: Dict, exe: string)
  {
    && base.ids == Some(IdsOf(d.keys)) && base.repoPath == Some(d) && base.execPath == Some(map["git" := exe])
    && WellFormed(d) && (forall name :: name in d.values ==> d.values[name] in fs.dirs)
  }

  /** `set_all` leaves such files. */
  lemma SetAllRebuilds(fs: FileSystem, dirs: seq<string>, exe: string, search: Option<SearchPaths>)
    requires forall i :: 0 <= i < |dirs| ==> dirs[i] in fs.dirs
    ensures var d := RepoPathOf(Zip(RepoNames(GitRepoDirs(fs, dirs)), GitRepoDirs(fs, dirs)));
            Rebuilt(fs, BaseDir(true, search, Some(map["git" := exe]), Some(d), Some(IdsOf(d.keys))), d, exe)
  {
    var d := RepoPathOf(Zip(RepoNames(GitRepoDirs(fs, dirs)), GitRepoDirs(fs, dirs)));
    RepoPathWellFormed(Zip(RepoNames(GitRepoDirs(fs, dirs)), GitRepoDirs(fs, dirs)));
    forall name | name in d.values
      ensures d.values[name] in fs.dirs
    {
      RebuiltPathsAreRepos(fs, dirs, name);
    }
  }

  /** After a rebuild, the id "k" opens the k-th name of the name → path file in its
      recorded directory, with the executable found for the chosen git kind. */
  lemma ApiKnownIdLoadsRepo(fs: FileSystem, cwd: string, base: BaseDir, d: Dict, exe: string, k: nat)
    requires Rebuilt(fs, base, d, exe) && k < |d.keys|
    ensures d.keys[k] in d.values
    ensures ApiLoadFields(fs, cwd, base, NatToString(k)) == Ok(Fields(Some(d.keys[k]), d.values[d.keys[k]], Some(exe), DefaultMessage))
  {
    assert d.keys[k] in d.values;
    IdsNumberEachName(d.keys, k);
  }

  method ApiLoad(env: Env, base: BaseDir, id: string) returns (r: Result<Commands>)
    modifies env
    ensures var f := ApiLoadFields(env.fs, old(env.cwd), base, id);
            && (f.Err? ==> r == Err(f.error) && env.cwd == old(env.cwd))
            && (f.Ok? ==> r.Ok? && fresh(r.value) && r.value.State() == f.value && env.cwd == f.value.dir)
    ensures env.calls == old(env.calls)
  {
    var found := ApiLookup(base, id);
    if found.Err? {
      return Err(found.error);
    }
    var (name, path, exe) := found.value;
    r := Open(env, name, path, exe, DefaultMessage);
  }

  // ---------------------------------------------------------------------------
  // `load_set` and `load_all`

  /** `load` applied to each id in turn, each from the directory the previous handle
      entered; the first exception ends the generator after what it yielded. */
  function ApiLoadAll(fs: FileSystem, cwd: string, base: BaseDir, ids: seq<string>): (b: Loaded)
    ensures |b.handles| <= |ids|
    ensures b.error.None? ==> |b.handles| == |ids|
  {
    if ids == [] then Loaded([], None, cwd)
    else
      var b := ApiLoadAll(fs, cwd, base, ids[..|ids| - 1]);
      if b.error.Some? then b
      else
        match ApiLoadFields(fs, b.cwd, base, ids[|ids| - 1])
        case Err(e) => Loaded(b.handles, Some(e), b.cwd)
        case Ok(f) => Loaded(b.handles + [f], None, f.dir)
  }

  /** Once the generator has raised, the remaining ids are never loaded. */
  lemma {:induction false} ApiLoadAllKeepsError(fs: FileSystem, cwd: string, base: BaseDir, ids: seq<string>, k: nat)
    requires k <= |ids| && ApiLoadAll(fs, cwd, base, ids[..k]).error.Some?
    ensures ApiLoadAll(fs, cwd, base, ids) == ApiLoadAll(fs, cwd, base, ids[..k])
    decreases |ids|
  {
    if k < |ids| {
      assert ids[..|ids| - 1][..k] == ids[..k];
      ApiLoadAllKeepsError(fs, cwd, base, ids[..|ids| - 1], k);
    } else {
      assert ids[..k] == ids;
    }
  }

  /** A failing `load` ends the batch: with every id before it loaded, the batch
      reports that failure with the handles already yielded. */
  lemma ApiLoadStops(fs: FileSystem, cwd0: string, base: BaseDir, ids: seq<string>, k: nat,
                     loaded: seq<Fields>, cwd: string)
    requires k < |ids|
    requires ApiLoadAll(fs, cwd0, base, ids[..k]) == Loaded(loaded, None, cwd)
    requires ApiLoadFields(fs, cwd, base, ids[k]).Err?
    ensures ApiLoadAll(fs, cwd0, base, ids) == Loaded(loaded, Some(ApiLoadFields(fs, cwd, base, ids[k]).error), cwd)
  {
    assert ids[..k + 1][..k] == ids[..k];
    ApiLoadAllKeepsError(fs, cwd0, base, ids, k + 1);
  }

  /** The next `load` of a batch that has not raised yet. */
  method ApiLoadNext(env: Env, base: BaseDir, ghost cwd0: string, ids: seq<string>, k: nat, ghost loaded: seq<Fields>)
    returns (r: Result<Commands>)
    requires k < |ids|
    requires ApiLoadAll(env.fs, cwd0, base, ids[..k]) == Loaded(loaded, None, env.cwd)
    modifies env
    ensures env.calls == old(env.calls)
    ensures r.Err? ==> ApiLoadAll(env.fs, cwd0, base, ids) == Loaded(loaded, Some(r.error), env.cwd)
    ensures r.Ok? ==> fresh(r.value) && env.cwd == r.value.dir &&
                      ApiLoadAll(env.fs, cwd0, base, ids[..k + 1]) == Loaded(loaded + [r.value.State()], None, env.cwd)
  {
    assert ids[..k + 1][..k] == ids[..k];
    if ApiLoadFields(env.fs, env.cwd, base, ids[k]).Err? {
      ApiLoadStops(env.fs, cwd0, base, ids, k, loaded, env.cwd);
    }
    r := ApiLoad(env, base, ids[k]);
  }

  /** `load_set(*args)` run to its end: one handle per argument, in argument order,
      until a `load` raises. */
  method ApiLoadSet(env: Env, base: BaseDir, ids: seq<string>) returns (handles: seq<Commands>, error: Option<Error>)
    modifies env
    ensures var b := ApiLoadAll(env.fs, old(env.cwd), base, ids);
            && error == b.error && env.cwd == b.cwd
            && |handles| == |b.handles|
            && (forall k :: 0 <= k < |handles| ==> handles[k].State() == b.handles[k])
    ensures env.calls == old(env.calls)
  {
    ghost var cwd0 := env.cwd;
    ghost var loaded: seq<Fields> := [];
    handles := [];
    var k := 0;
    while k < |ids|
      invariant 0 <= k <= |ids|
      invariant env.calls == old(env.calls)
      invariant ApiLoadAll(env.fs, cwd0, base, ids[..k]) == Loaded(loaded, None, env.cwd)
      invariant |handles| == |loaded|
      invariant forall i :: 0 <= i < |handles| ==> handles[i].State() == loaded[i]
    {
      var r := ApiLoadNext(env, base, cwd0, ids, k, loaded);
      if r.Err? {
        return handles, Some(r.error);
      }
      handles := handles + [r.value];
      loaded := loaded + [r.value.State()];
      k := k + 1;
    }
    assert ids[..k] == ids;
    return handles, None;
  }

  /** The ids `load_all` walks through: the keys of the id file in their order; a
      missing id file leaves `repo_ids` unbound before anything is yielded. */
  function AllIds(base: BaseDir): (r: Result<seq<string>>)
    ensures r.Ok? <==> base.ids.Some?
    ensures r.Ok? ==> r.value == base.ids.value.keys
  {
    if base.ids.None? then Err(UnboundLocalError("repo_ids")) else Ok(base.ids.value.keys)
  }

  /** `load_all()` run to its end: `load_set` over the id file's keys. */
  method ApiLoadEvery(env: Env, base: BaseDir) returns (handles: seq<Commands>, error: Option<Error>)
    modifies env
    ensures base.ids.None? ==> handles == [] && error == Some(UnboundLocalError("repo_ids")) && env.cwd == old(env.cwd)
    ensures base.ids.Some? ==>
              var b := ApiLoadAll(env.fs, old(env.cwd), base, base.ids.value.keys);
              && error == b.error && env.cwd == b.cwd
              && |handles| == |b.handles|
              && (forall k :: 0 <= k < |handles| ==> handles[k].State() == b.handles[k])
    ensures env.calls == old(env.calls)
  {
    var ids := AllIds(base);
    if ids.Err? {
      return [], Some(ids.error);
    }
    handles, error := ApiLoadSet(env, base, ids.value);
  }

  /** A step of a batch that has not raised yet, when the next `load` succeeds. */
  lemma ApiLoadStepOk(fs: FileSystem, cwd0: string, base: BaseDir, ids: seq<string>, k: nat,
                      loaded: seq<Fields>, cwd: string, f: Fields)
    requires k < |ids|
    requires ApiLoadAll(fs, cwd0, base, ids[..k]) == Loaded(loaded, None, cwd)
    requires ApiLoadFields(fs, cwd, base, ids[k]) == Ok(f)
    ensures ApiLoadAll(fs, cwd0, base, ids[..k + 1]) == Loaded(loaded + [f], None, f.dir)
  {
    assert ids[..k + 1][..k] == ids[..k];
  }

  /** The first n handles a rebuilt name → path file stands for, in its key order. */
  function RebuiltHandles(d: Dict, exe: string, n: nat): (r: seq<Fields>)
    requires WellFormed(d) && n <= |d.keys|
    ensures |r| == n
  {
    if n == 0 then []
    else RebuiltHandles(d, exe, n - 1) + [Fields(Some(d.keys[n - 1]), d.values[d.keys[n - 1]], Some(exe), DefaultMessage)]
  }

  lemma {:induction false} RebuiltHandleAt(d: Dict, exe: string, n: nat, k: nat)
    requires WellFormed(d) && k < n <= |d.keys|
    ensures d.keys[k] in d.values
    ensures RebuiltHandles(d, exe, n)[k] == Fields(Some(d.keys[k]), d.values[d.keys[k]], Some(exe), DefaultMessage)
  {
    if k < n - 1 {
      RebuiltHandleAt(d, exe, n - 1, k);
    }
  }

  /** `load_all` over the first n ids of a rebuilt id file loads the first n handles. */
  lemma {:induction false} ApiLoadRebuiltPrefix(fs: FileSystem, cwd: string, base: BaseDir, d: Dict, exe: string, n: nat)
    requires Rebuilt(fs, base, d, exe) && n <= |d.keys|
    ensures n <= |IdsOf(d.keys).keys|
    ensures var b := ApiLoadAll(fs, cwd, base, IdsOf(d.keys).keys[..n]);
            b.error.None? && b.handles == RebuiltHandles(d, exe, n)
  {
    var keys := IdsOf(d.keys).keys;
    if n == 0 {
      assert keys[..0] == [];
    } else {
      ApiLoadRebuiltPrefix(fs, cwd, base, d, exe, n - 1);
      var b := ApiLoadAll(fs, cwd, base, keys[..n - 1]);
      IdsNumberEachName(d.keys, n - 1);
      ApiKnownIdLoadsRepo(fs, b.cwd, base, d, exe, n - 1);
      var f := Fields(Some(d.keys[n - 1]), d.values[d.keys[n - 1]], Some(exe), DefaultMessage);
      ApiLoadStepOk(fs, cwd, base, keys, n - 1, b.handles, b.cwd, f);
    }
  }

  /** After a rebuild, `load_all` yields one handle per recorded name, in the order
      of the name → path file, each in its repository's directory, and never raises. */
  lemma ApiLoadAllAfterRebuild(fs: FileSystem, cwd: string, base: BaseDir, d: Dict, exe: string, n: nat)
    requires Rebuilt(fs, base, d, exe) && n <= |d.keys|
    ensures n <= |IdsOf(d.keys).keys|
    ensures var b := ApiLoadAll(fs, cwd, base, IdsOf(d.keys).keys[..n]);
            && b.error.None? && |b.handles| == n
            && forall k :: 0 <= k < n ==>
                 d.keys[k] in d.values && b.handles[k] == Fields(Some(d.keys[k]), d.values[d.keys[k]], Some(exe), DefaultMessage)
  {
    ApiLoadRebuiltPrefix(fs, cwd, base, d, exe, n);
    forall k | 0 <= k < n
      ensures d.keys[k] in d.values
      ensures RebuiltHandles(d, exe, n)[k] == Fields(Some(d.keys[k]), d.values[d.keys[k]], Some(exe), DefaultMessage)
    {
      RebuiltHandleAt(d, exe, n, k);
    }
  }

  // ---------------------------------------------------------------------------
  // `status_all`

  /** The file `status_all` writes to, named after the time stamp. */
  function StatusPath(draft: Draft, stamp: string): string
  {
    if draft == ApiDraft then "REPO_STATUS_" + stamp + ".txt" else "REPO_STATUS_@_" + stamp + ".txt"
  }

  /** `s * n`: every character of it comes from `s`, so "**" * 25 is a rule of 50 stars. */
  function Repeat(s: string, n: nat): (r: string)
    ensures |r| == |s| * n
    ensures forall i :: 0 <= i < |r| ==> r[i] in s
  {
    if n == 0 then "" else Repeat(s, n - 1) + s
  }

  function ApiHeader(stamp: string): string
  {
    "Repository status as at " + stamp + "\n\n"
  }

  /** The heading and the status written for one repository. */
  function ApiBlock(e: Entry): string
  {
    "*** " + e.name + " ***\n" + e.status + "\n\n\n"
  }

  function ApiBlocks(report: seq<Entry>): (r: seq<string>)
    ensures |r| == |report|
    ensures forall k :: 0 <= k < |r| ==> r[k] == ApiBlock(report[k])
  {
    if report == [] then [] else ApiBlocks(report[..|report| - 1]) + [ApiBlock(report[|report| - 1])]
  }

  /** The rule and the flagged names, one per line. */
  function ApiAttentionPart(markers: seq<string>, report: seq<Entry>): string
  {
    Repeat("**", 25) + "\nThe following repos need attention\n\n" + ApiAttention(Flagged(markers, report))
  }

  /** The status file: the header, each repository's block as its status comes in,
      and, only once `load_all` has run to its end, the attention list. */
  function ApiStatusFile(stamp: string, markers: seq<string>, report: seq<Entry>, complete: bool): string
  {
    ApiHeader(stamp) + Concat(ApiBlocks(report)) + (if complete then ApiAttentionPart(markers, report) else "")
  }

  /** A completed run lists every flagged repository, in visiting order. */
  lemma ApiStatusListsFlagged(stamp: string, markers: seq<string>, report: seq<Entry>, k: nat)
    requires k < |Flagged(markers, report)|
    ensures Contains(ApiStatusFile(stamp, markers, report, true), Flagged(markers, report)[k])
  {
    var names := Flagged(markers, report);
    JoinContainsEach("\n", names, k);
    ContainsInConcat(Repeat("**", 25) + "\nThe following repos need attention\n\n", ApiAttention(names), names[k]);
    ContainsInConcat(ApiHeader(stamp) + Concat(ApiBlocks(report)), ApiAttentionPart(markers, report), names[k]);
  }

  /** Every repository visited, even in a run cut short, has its block in the file. */
  lemma ApiStatusHasEveryBlock(stamp: string, markers: seq<string>, report: seq<Entry>, complete: bool, j: nat)
    requires j < |report|
    ensures Contains(ApiStatusFile(stamp, markers, report, complete), ApiBlock(report[j]))
  {
    ConcatContainsEach(ApiBlocks(report), j);
    ContainsInSandwich(ApiHeader(stamp), Concat(ApiBlocks(report)),
                       if complete then ApiAttentionPart(markers, report) else "", ApiBlock(report[j]));
  }

  /** The next handle of a status run: load it, then ask for its status. */
  method ApiStatusNext(env: Env, base: BaseDir, ghost cwd0: string, ghost calls0: seq<GitCall>,
                       ids: seq<string>, k: nat, ghost loaded: seq<Fields>)
    returns (r: Result<Entry>, ghost f: Fields)
    requires k < |ids|
    requires ApiLoadAll(env.fs, cwd0, base, ids[..k]) == Loaded(loaded, None, env.cwd)
    requires env.calls == calls0 + Session(loaded, StatusCmds)
    modifies env
    ensures r.Err? ==> ApiLoadAll(env.fs, cwd0, base, ids) == Loaded(loaded, Some(r.error), env.cwd)
    ensures r.Err? ==> env.calls == old(env.calls)
    ensures r.Ok? ==> ApiLoadAll(env.fs, cwd0, base, ids[..k + 1]) == Loaded(loaded + [f], None, env.cwd)
    ensures r.Ok? ==> env.calls == calls0 + Session(loaded + [f], StatusCmds)
    ensures r.Ok? ==> Entries(loaded + [f], Replies(env.git, calls0, loaded + [f], StatusCmds))
                      == Entries(loaded, Replies(env.git, calls0, loaded, StatusCmds)) + [r.value]
  {
    var h := ApiLoadNext(env, base, cwd0, ids, k, loaded);
    if h.Err? {
      return Err(h.error), Fields(None, "", None, "");
    }
    var c := h.value;
    f := c.State();
    var status := StatusIn(env, c, calls0, loaded);
    EntriesSnoc(loaded, Replies(env.git, calls0, loaded, StatusCmds), f, status);
    r := Ok(Entry(Show(c.name), status));
  }

  /** The loop of `status_all`: each handle `load_all` yields fetches and reports
      its status in turn; a failed load ends the run. */
  method ApiStatusEach(env: Env, base: BaseDir, ids: seq<string>) returns (entries: seq<Entry>, error: Option<Error>)
    modifies env
    ensures var b := ApiLoadAll(env.fs, old(env.cwd), base, ids);
            && error == b.error && env.cwd == b.cwd
            && env.calls == old(env.calls) + Session(b.handles, StatusCmds)
            && entries == Entries(b.handles, Replies(env.git, old(env.calls), b.handles, StatusCmds))
  {
    ghost var cwd0, calls0 := env.cwd, env.calls;
    ghost var loaded: seq<Fields> := [];
    entries := [];
    var k := 0;
    while k < |ids|
      invariant 0 <= k <= |ids|
      invariant ApiLoadAll(env.fs, cwd0, base, ids[..k]) == Loaded(loaded, None, env.cwd)
      invariant env.calls == calls0 + Session(loaded, StatusCmds)
      invariant entries == Entries(loaded, Replies(env.git, calls0, loaded, StatusCmds))
    {
      var r;
      ghost var f;
      r, f := ApiStatusNext(env, base, cwd0, calls0, ids, k, loaded);
      if r.Err? {
        return entries, Some(r.error);
      }
      loaded := loaded + [f];
      entries := entries + [r.value];
      k := k + 1;
    }
    assert ids[..k] == ids;
    return entries, None;
  }

  /** `status_all()`: the status file lives in the base directory, so it cannot be
      opened when that is missing; otherwise the header is written, then a block per
      repository `load_all` yields, then, if the generator ran to its end, the rule
      and the names whose status the draft's markers flag. */
  method ApiStatusAll(env: Env, base: BaseDir, draft: Draft, stamp: string)
    returns (file: Option<string>, error: Option<Error>)
    modifies env
    ensures !base.present ==>
              file.None? && error == Some(FileNotFoundError(StatusPath(draft, stamp)))
              && env.cwd == old(env.cwd) && env.calls == old(env.calls)
    ensures base.present && base.ids.None? ==>
              file == Some(ApiHeader(stamp)) && error == Some(UnboundLocalError("repo_ids"))
              && env.cwd == old(env.cwd) && env.calls == old(env.calls)
    ensures base.present && base.ids.Some? ==>
              var b := ApiLoadAll(env.fs, old(env.cwd), base, base.ids.value.keys);
              && error == b.error && env.cwd == b.cwd
              && env.calls == old(env.calls) + Session(b.handles, StatusCmds)
              && file == Some(ApiStatusFile(stamp, DraftMarkers(draft),
                                            Entries(b.handles, Replies(env.git, old(env.calls), b.handles, StatusCmds)),
                                            b.error.None?))
  {
    if !base.present {
      return None, Some(FileNotFoundError(StatusPath(draft, stamp)));
    }
    var ids := AllIds(base);
    if ids.Err? {
      return Some(ApiHeader(stamp)), Some(ids.error);
    }
    var entries;
    entries, error := ApiStatusEach(env, base, ids.value);
    file := Some(ApiStatusFile(stamp, DraftMarkers(draft), entries, error.None?));
  }

  // ---------------------------------------------------------------------------
  // `pull_all` and `push_all`

  /** What `pull_all` / `push_all` print before the first repository. */
  function ApiSyncHeader(op: Sync): string
  {
    if op == PullSync then "Pulling all directories\n\n\n" else "Pushing all directories\n\n\n"
  }

  /** What they print for one repository: the banner line, the handle's report on
      its own line, then an empty line. */
  function ApiSyncBlock(name: string, report: string): (r: string)
    ensures StartsWith(r, "*** " + name + " ***\n" + report)
  {
    "*** " + name + " ***\n" + report + "\n\n"
  }

  /** Everything a run prints, for the repositories it visited. */
  function ApiSyncTranscript(op: Sync, names: seq<string>, reports: seq<string>): string
    requires |names| == |reports|
  {
    ApiSyncHeader(op) + Concat(seq(|names|, k requires 0 <= k < |names| => ApiSyncBlock(names[k], reports[k])))
  }

  /** Each visited repository's banner is printed with its report right after it. */
  lemma ApiSyncShowsEach(op: Sync, names: seq<string>, reports: seq<string>, k: nat)
    requires |names| == |reports| && k < |names|
    ensures Contains(ApiSyncTranscript(op, names, reports), "*** " + names[k] + " ***\n" + reports[k])
  {
    var blocks := seq(|names|, j requires 0 <= j < |names| => ApiSyncBlock(names[j], reports[j]));
    var shown := "*** " + names[k] + " ***\n" + reports[k];
    ConcatContainsEach(blocks, k);
    assert OccursAt(blocks[k], shown, 0);
    ContainsTransitive(Concat(blocks), blocks[k], shown);
    ContainsInConcat(ApiSyncHeader(op), Concat(blocks), shown);
  }

  /** The next handle of a pull or push run: load it, then pull or push in it. */
  method ApiSyncNext(env: Env, base: BaseDir, op: Sync, ghost cwd0: string, ghost calls0: seq<GitCall>,
                     ids: seq<string>, k: nat, ghost loaded: seq<Fields>, visited: seq<string>, reports: seq<string>)
    returns (error: Option<Error>, visited': seq<string>, reports': seq<string>, ghost loaded': seq<Fields>)
    requires k < |ids|
    requires ApiLoadAll(env.fs, cwd0, base, ids[..k]) == Loaded(loaded, None, env.cwd)
    requires env.calls == calls0 + Session(loaded, SyncCmds(op))
    requires visited == Visited(loaded) && ReportsOf(op, reports, Replies(env.git, calls0, loaded, SyncCmds(op)))
    modifies env
    ensures error.Some? ==> ApiLoadAll(env.fs, cwd0, base, ids) == Loaded(loaded', error, env.cwd)
    ensures error.None? ==> ApiLoadAll(env.fs, cwd0, base, ids[..k + 1]) == Loaded(loaded', None, env.cwd)
    ensures env.calls == calls0 + Session(loaded', SyncCmds(op))
    ensures visited' == Visited(loaded') && ReportsOf(op, reports', Replies(env.git, calls0, loaded', SyncCmds(op)))
  {
    var h := ApiLoadNext(env, base, cwd0, ids, k, loaded);
    if h.Err? {
      return Some(h.error), visited, reports, loaded;
    }
    var c := h.value;
    var report := SyncIn(env, c, op, calls0, loaded);
    VisitedSnoc(loaded, c.State());
    return None, visited + [Show(c.name)], reports + [report], loaded + [c.State()];
  }

  /** The loop of `pull_all` / `push_all`: each handle `load_all` yields pulls or
      pushes in turn, from its own directory; a failed load ends the run. */
  method ApiSyncEach(env: Env, base: BaseDir, op: Sync, ids: seq<string>)
    returns (visited: seq<string>, reports: seq<string>, error: Option<Error>)
    modifies env
    ensures var b := ApiLoadAll(env.fs, old(env.cwd), base, ids);
            && error == b.error && env.cwd == b.cwd
            && env.calls == old(env.calls) + Session(b.handles, SyncCmds(op))
            && visited == Visited(b.handles)
            && reports == SyncReports(op, Replies(env.git, old(env.calls), b.handles, SyncCmds(op)))
  {
    ghost var cwd0, calls0 := env.cwd, env.calls;
    ghost var loaded: seq<Fields> := [];
    visited, reports := [], [];
    var k := 0;
    while k < |ids|
      invariant 0 <= k <= |ids|
      invariant ApiLoadAll(env.fs, cwd0, base, ids[..k]) == Loaded(loaded, None, env.cwd)
      invariant env.calls == calls0 + Session(loaded, SyncCmds(op))
      invariant visited == Visited(loaded)
      invariant ReportsOf(op, reports, Replies(env.git, calls0, loaded, SyncCmds(op)))
    {
      error, visited, reports, loaded := ApiSyncNext(env, base, op, cwd0, calls0, ids, k, loaded, visited, reports);
      if error.Some? {
        ReportsAre(op, reports, Replies(env.git, calls0, loaded, SyncCmds(op)));
        return;
      }
      k := k + 1;
    }
    assert ids[..k] == ids;
    ReportsAre(op, reports, Replies(env.git, calls0, loaded, SyncCmds(op)));
    error := None;
  }

  /** `pull_all()` / `push_all()`: the header, then a block per handle `load_all`
      yields; without the id file `load_all` raises before yielding anything. */
  method ApiSyncAll(env: Env, base: BaseDir, op: Sync) returns (out: string, error: Option<Error>)
    modifies env
    ensures base.ids.None? ==>
              out == ApiSyncHeader(op) && error == Some(UnboundLocalError("repo_ids"))
              && env.cwd == old(env.cwd) && env.calls == old(env.calls)
    ensures base.ids.Some? ==>
              var b := ApiLoadAll(env.fs, old(env.cwd), base, base.ids.value.keys);
              && error == b.error && env.cwd == b.cwd
              && env.calls == old(env.calls) + Session(b.handles, SyncCmds(op))
              && out == ApiSyncTranscript(op, Visited(b.handles),
                                          SyncReports(op, Replies(env.git, old(env.calls), b.handles, SyncCmds(op))))
  {
    var ids := AllIds(base);
    if ids.Err? {
      return ApiSyncHeader(op), Some(ids.error);
    }
    var visited, reports;
    visited, reports, error := ApiSyncEach(env, base, op, ids.value);
    out := ApiSyncTranscript(op, visited, reports);
  }
}
