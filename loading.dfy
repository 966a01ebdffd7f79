/** Turning the registry back into handles: `load` (an id or a name), the batch
    loader `load_multiple`, and the batch runs built on it (`pull`, `push`,
    `all_status`) of pygit/pygit.py and build/lib/pygit/main.py. */
module Loading {
  import opened Results
  import opened Strings
  import opened FileSystems
  import opened Attention
  import opened Reports
  import opened Handle
  import opened Registry

  // ---------------------------------------------------------------------------
  // `load`

  const IndexMissing := "That index does not exist."
  const ScriptNameMissing := "That repository name does not exist or is not indexed"
  const PackageNameMissing := "That repository name does not exist"

  function NameMissing(variant: Variant): string
  {
    if variant == Script then ScriptNameMissing else PackageNameMissing
  }

  /** The repository `load(input)` opens, as (name, path): an input `int()`
      accepts is an id, anything else a name. A missing id (or an id whose name
      has no recorded path) and a missing name raise different exceptions. */
  function Lookup(variant: Variant, names: map<string, string>, index: map<string, string>, input: string)
    : Result<(string, string)>
  {
    if ParseInt(input).Some? then
      if input in index && index[input] in names then Ok((index[input], names[index[input]]))
      else Err(Exception(IndexMissing))
    else if input in names then Ok((input, names[input]))
    else Err(Exception(NameMissing(variant)))
  }

  /** The two misses are told apart in both variants. */
  lemma LookupMissesDiffer(variant: Variant)
    ensures IndexMissing != NameMissing(variant)
  {
    if variant == Script {
      assert IndexMissing[5] != ScriptNameMissing[5];
    } else {
      assert IndexMissing[5] != PackageNameMissing[5];
    }
  }

  /** Every id "1".."n" of a registry built by the registration passes opens the
      repository that took it, with its recorded path. */
  lemma LookupById(variant: Variant, names: map<string, string>, index: map<string, string>, j: nat)
    requires Contiguous(index) && Resolvable(index, names)
    requires 1 <= j <= |index|
    ensures NatToString(j) in index
    ensures Lookup(variant, names, index, NatToString(j)) == Ok((index[NatToString(j)], names[index[NatToString(j)]]))
  {
    ParseIntOfNatToString(j);
    IdInContiguous(index, j);
  }

  /** An input without a decimal digit is always a name, never an id. */
  lemma LookupByName(variant: Variant, names: map<string, string>, index: map<string, string>, input: string)
    requires forall i :: 0 <= i < |input| ==> !IsDigit(input[i])
    ensures Lookup(variant, names, index, input) ==
            if input in names then Ok((input, names[input])) else Err(Exception(NameMissing(variant)))
  {
    if ParseInt(input).Some? {
      ParseIntNeedsDigit(input);
    }
  }

  /** After registration, the id each shelved repository took opens it, with the
      path last recorded under its name. */
  lemma LookupShelved(variant: Variant, names: map<string, string>, index: map<string, string>,
                      repos: seq<Repo>, j: nat)
    requires Contiguous(index) && Resolvable(index, names)
    requires |index| < j <= |index| + |repos|
    ensures var names' := Record(names, repos);
            var r := repos[j - |index| - 1];
            r.name in names' &&
            Lookup(variant, names', Number(index, |index| + 1, repos), NatToString(j)) == Ok((r.name, names'[r.name]))
  {
    RecordKeys(names, repos);
    ShelvingKeepsValid(index, names, repos);
    NumberGivesNextIds(index, repos);
    NumberContiguous(index, repos);
    LookupById(variant, Record(names, repos), Number(index, |index| + 1, repos), j);
  }

  /** `load(input)`: look the input up, then build the handle (no git executable,
      default message); the handle constructor may still raise. */
  function LoadFields(variant: Variant, fs: FileSystem, cwd: string, names: map<string, string>,
                      index: map<string, string>, input: string): Result<Fields>
  {
    match Lookup(variant, names, index, input)
    case Err(e) => Err(e)
    case Ok((name, path)) => Bind(fs, cwd, Some(name), Some(path), None, DefaultMessage)
  }

  method Load(env: Env, variant: Variant, names: map<string, string>, index: map<string, string>, input: string)
    returns (r: Result<Commands>)
    modifies env
    ensures var f := LoadFields(variant, env.fs, old(env.cwd), names, index, input);
            && (f.Err? ==> r == Err(f.error) && env.cwd == old(env.cwd))
            && (f.Ok? ==> r.Ok? && fresh(r.value) && r.value.State() == f.value && env.cwd == f.value.dir)
    ensures env.calls == old(env.calls)
  {
    var found := Lookup(variant, names, index, input);
    if found.Err? {
      return Err(found.error);
    }
    var (name, path) := found.value;
    r := Open(env, Some(name), Some(path), None, DefaultMessage);
  }

  // ---------------------------------------------------------------------------
  // `load_multiple`

  /** What a batch has produced: the handles it yielded, the exception that
      stopped it, and the working directory it left the process in. */
  datatype Loaded = Loaded(handles: seq<Fields>, error: Option<Error>, cwd: string)

  /** `load` applied to each token in turn, each from the directory the previous
      handle entered; the first exception ends the batch (it propagates out of
      the generator after the handles already yielded). */
  function LoadAll(variant: Variant, fs: FileSystem, cwd: string, names: map<string, string>,
                   index: map<string, string>, tokens: seq<string>): (b: Loaded)
    ensures |b.handles| <= |tokens|
    ensures b.error.None? ==> |b.handles| == |tokens|
  {
    if tokens == [] then Loaded([], None, cwd)
    else
      var b := LoadAll(variant, fs, cwd, names, index, tokens[..|tokens| - 1]);
      if b.error.Some? then b
      else
        match LoadFields(variant, fs, b.cwd, names, index, tokens[|tokens| - 1])
        case Err(e) => Loaded(b.handles, Some(e), b.cwd)
        case Ok(f) => Loaded(b.handles + [f], None, f.dir)
  }

  lemma LoadAllPrefix(variant: Variant, fs: FileSystem, cwd: string, names: map<string, string>,
                      index: map<string, string>, tokens: seq<string>, k: nat)
    requires k < |tokens|
    ensures var b := LoadAll(variant, fs, cwd, names, index, tokens[..k]);
            LoadAll(variant, fs, cwd, names, index, tokens[..k + 1]) ==
              if b.error.Some? then b
              else match LoadFields(variant, fs, b.cwd, names, index, tokens[k])
                   case Err(e) => Loaded(b.handles, Some(e), b.cwd)
                   case Ok(f) => Loaded(b.handles + [f], None, f.dir)
  {
    assert tokens[..k + 1][..k] == tokens[..k];
  }

  /** One step of a batch that has not raised yet. */
  lemma LoadStep(variant: Variant, fs: FileSystem, cwd0: string, names: map<string, string>,
                 index: map<string, string>, tokens: seq<string>, k: nat, loaded: seq<Fields>, cwd: string)
    requires k < |tokens|
    requires LoadAll(variant, fs, cwd0, names, index, tokens[..k]) == Loaded(loaded, None, cwd)
    ensures var f := LoadFields(variant, fs, cwd, names, index, tokens[k]);
            && (f.Ok? ==> LoadAll(variant, fs, cwd0, names, index, tokens[..k + 1]) == Loaded(loaded + [f.value], None, f.value.dir))
            && (f.Err? ==> LoadAll(variant, fs, cwd0, names, index, tokens) == Loaded(loaded, Some(f.error), cwd))
  {
    LoadAllPrefix(variant, fs, cwd0, names, index, tokens, k);
    if LoadFields(variant, fs, cwd, names, index, tokens[k]).Err? {
      LoadAllKeepsError(variant, fs, cwd0, names, index, tokens, k + 1);
    }
  }

  /** A step of a batch that has not raised yet, when the next `load` succeeds. */
  lemma LoadSnocOk(variant: Variant, fs: FileSystem, cwd0: string, names: map<string, string>,
                   index: map<string, string>, tokens: seq<string>, t: string, loaded: seq<Fields>, cwd: string, f: Fields)
    requires LoadAll(variant, fs, cwd0, names, index, tokens) == Loaded(loaded, None, cwd)
    requires LoadFields(variant, fs, cwd, names, index, t) == Ok(f)
    ensures LoadAll(variant, fs, cwd0, names, index, tokens + [t]) == Loaded(loaded + [f], None, f.dir)
  {
    assert (tokens + [t])[..|tokens|] == tokens;
  }

  /** Once a batch has raised, the remaining tokens are never loaded. */
  lemma {:induction false} LoadAllKeepsError(variant: Variant, fs: FileSystem, cwd: string, names: map<string, string>,
                                             index: map<string, string>, tokens: seq<string>, k: nat)
    requires k <= |tokens| && LoadAll(variant, fs, cwd, names, index, tokens[..k]).error.Some?
    ensures LoadAll(variant, fs, cwd, names, index, tokens) == LoadAll(variant, fs, cwd, names, index, tokens[..k])
    decreases |tokens|
  {
    if k < |tokens| {
      assert tokens[..|tokens| - 1][..k] == tokens[..k];
      LoadAllKeepsError(variant, fs, cwd, names, index, tokens[..|tokens| - 1], k);
    } else {
      assert tokens[..k] == tokens;
    }
  }

  /** The next `load` of a batch that has not raised yet. */
  method LoadNext(env: Env, variant: Variant, names: map<string, string>, index: map<string, string>,
                  ghost cwd0: string, tokens: seq<string>, k: nat, ghost loaded: seq<Fields>)
    returns (r: Result<Commands>)
    requires k < |tokens|
    requires LoadAll(variant, env.fs, cwd0, names, index, tokens[..k]) == Loaded(loaded, None, env.cwd)
    modifies env
    ensures env.calls == old(env.calls)
    ensures r.Err? ==> LoadAll(variant, env.fs, cwd0, names, index, tokens) == Loaded(loaded, Some(r.error), env.cwd)
    ensures r.Ok? ==> fresh(r.value) && env.cwd == r.value.dir &&
                      LoadAll(variant, env.fs, cwd0, names, index, tokens[..k + 1]) == Loaded(loaded + [r.value.State()], None, env.cwd)
  {
    LoadStep(variant, env.fs, cwd0, names, index, tokens, k, loaded, env.cwd);
    r := Load(env, variant, names, index, tokens[k]);
  }

  /** One round of `load_multiple`: the next `load`, and the handle it yields
      appended to those yielded so far. */
  method LoadInto(env: Env, variant: Variant, names: map<string, string>, index: map<string, string>,
                  ghost cwd0: string, tokens: seq<string>, k: nat, handles: seq<Commands>, ghost loaded: seq<Fields>)
    returns (handles': seq<Commands>, error: Option<Error>, ghost loaded': seq<Fields>, ghost reached: nat)
    requires k < |tokens|
    requires LoadAll(variant, env.fs, cwd0, names, index, tokens[..k]) == Loaded(loaded, None, env.cwd)
    requires |handles| == |loaded| && forall i :: 0 <= i < |handles| ==> handles[i].State() == loaded[i]
    modifies env
    ensures env.calls == old(env.calls)
    ensures reached == if error.None? then k + 1 else |tokens|
    ensures reached <= |tokens| && LoadAll(variant, env.fs, cwd0, names, index, tokens[..reached]) == Loaded(loaded', error, env.cwd)
    ensures |handles'| == |loaded'| && forall i :: 0 <= i < |handles'| ==> handles'[i].State() == loaded'[i]
  {
    var r := LoadNext(env, variant, names, index, cwd0, tokens, k, loaded);
    if r.Err? {
      assert tokens[..|tokens|] == tokens;
      return handles, Some(r.error), loaded, |tokens|;
    }
    handles' := handles + [r.value];
    loaded' := loaded + [r.value.State()];
    error, reached := None, k + 1;
  }

  /** `load_multiple` run to its end: every handle it yields, then the exception
      that stopped it, if any. */
  method LoadMultiple(env: Env, variant: Variant, names: map<string, string>, index: map<string, string>,
                      tokens: seq<string>) returns (handles: seq<Commands>, error: Option<Error>)
    modifies env
    ensures var b := LoadAll(variant, env.fs, old(env.cwd), names, index, tokens);
            && error == b.error && env.cwd == b.cwd
            && |handles| == |b.handles|
            && (forall k :: 0 <= k < |handles| ==> handles[k].State() == b.handles[k])
    ensures env.calls == old(env.calls)
  {
    ghost var cwd0 := env.cwd;
    ghost var loaded: seq<Fields> := [];
    handles, error := [], None;
    var k := 0;
    ghost var reached := 0;
    while k < |tokens| && error.None?
      invariant 0 <= k <= |tokens|
      invariant env.calls == old(env.calls)
      invariant reached == if error.None? then k else |tokens|
      invariant LoadAll(variant, env.fs, cwd0, names, index, tokens[..reached]) == Loaded(loaded, error, env.cwd)
      invariant |handles| == |loaded| && forall i :: 0 <= i < |handles| ==> handles[i].State() == loaded[i]
      decreases |tokens| - k, if error.None? then 1 else 0
    {
      handles, error, loaded, reached := LoadInto(env, variant, names, index, cwd0, tokens, k, handles, loaded);
      if error.None? {
        k := k + 1;
      }
    }
    assert tokens[..reached] == tokens;
  }

  // ---------------------------------------------------------------------------
  // Batch runs: git commands issued on each handle a batch yields

  /** The calls a handle method makes, each from the handle's own directory. */
  function CallsOf(f: Fields, cmds: seq<seq<string>>): (r: seq<GitCall>)
    ensures |r| == |cmds|
  {
    if cmds == [] then [] else CallsOf(f, cmds[..|cmds| - 1]) + [GitCall(f.dir, f.gitExec, cmds[|cmds| - 1])]
  }

  // The functions over the handles of a run recurse on a count `n` of leading
  // handles rather than on a slice, so that a run that has just grown by one
  // handle unfolds by plain indexing.

  /** The calls made for the first `n` handles of a run, handle after handle. */
  function SessionOf(handles: seq<Fields>, n: nat, cmds: seq<seq<string>>): (r: seq<GitCall>)
    requires n <= |handles|
    ensures |r| == n * |cmds|
  {
    if n == 0 then [] else SessionOf(handles, n - 1, cmds) + CallsOf(handles[n - 1], cmds)
  }

  /** Every call of a batch run, handle after handle. */
  function Session(handles: seq<Fields>, cmds: seq<seq<string>>): seq<GitCall>
  {
    SessionOf(handles, |handles|, cmds)
  }

  /** What git answered to the last call made for each of the first `n` handles,
      given the calls `calls0` made before the run. */
  function RepliesOf(git: (seq<GitCall>, GitCall) -> string, calls0: seq<GitCall>, handles: seq<Fields>,
                     n: nat, cmds: seq<seq<string>>): (r: seq<string>)
    requires cmds != [] && n <= |handles|
    ensures |r| == n
  {
    if n == 0 then []
    else
      var f := handles[n - 1];
      RepliesOf(git, calls0, handles, n - 1, cmds)
        + [git(calls0 + SessionOf(handles, n - 1, cmds) + CallsOf(f, cmds[..|cmds| - 1]),
               GitCall(f.dir, f.gitExec, cmds[|cmds| - 1]))]
  }

  /** What git answered to the last call made for each handle. */
  function Replies(git: (seq<GitCall>, GitCall) -> string, calls0: seq<GitCall>, handles: seq<Fields>,
                   cmds: seq<seq<string>>): (r: seq<string>)
    requires cmds != []
  {
    RepliesOf(git, calls0, handles, |handles|, cmds)
  }

  lemma {:induction false} SessionOfPrefix(handles: seq<Fields>, f: Fields, n: nat, cmds: seq<seq<string>>)
    requires n <= |handles|
    ensures SessionOf(handles + [f], n, cmds) == SessionOf(handles, n, cmds)
  {
    if n > 0 {
      SessionOfPrefix(handles, f, n - 1, cmds);
      assert (handles + [f])[n - 1] == handles[n - 1];
    }
  }

  lemma {:induction false} RepliesOfPrefix(git: (seq<GitCall>, GitCall) -> string, calls0: seq<GitCall>,
                                           handles: seq<Fields>, f: Fields, n: nat, cmds: seq<seq<string>>)
    requires cmds != [] && n <= |handles|
    ensures RepliesOf(git, calls0, handles + [f], n, cmds) == RepliesOf(git, calls0, handles, n, cmds)
  {
    if n > 0 {
      RepliesOfPrefix(git, calls0, handles, f, n - 1, cmds);
      SessionOfPrefix(handles, f, n - 1, cmds);
      assert (handles + [f])[n - 1] == handles[n - 1];
    }
  }

  lemma SessionSnoc(handles: seq<Fields>, f: Fields, cmds: seq<seq<string>>)
    ensures Session(handles + [f], cmds) == Session(handles, cmds) + CallsOf(f, cmds)
  {
    SessionOfPrefix(handles, f, |handles|, cmds);
    assert (handles + [f])[|handles|] == f;
  }

  lemma RepliesSnoc(git: (seq<GitCall>, GitCall) -> string, calls0: seq<GitCall>, handles: seq<Fields>,
                    f: Fields, cmds: seq<seq<string>>)
    requires cmds != []
    ensures Replies(git, calls0, handles + [f], cmds) ==
            Replies(git, calls0, handles, cmds)
              + [git(calls0 + Session(handles, cmds) + CallsOf(f, cmds[..|cmds| - 1]),
                     GitCall(f.dir, f.gitExec, cmds[|cmds| - 1]))]
  {
    RepliesOfPrefix(git, calls0, handles, f, |handles|, cmds);
    SessionOfPrefix(handles, f, |handles|, cmds);
    assert (handles + [f])[|handles|] == f;
  }

  /** The names the first `n` handles of a run print as `each.name`. */
  function VisitedOf(handles: seq<Fields>, n: nat): (r: seq<string>)
    requires n <= |handles|
    ensures |r| == n
  {
    if n == 0 then [] else VisitedOf(handles, n - 1) + [Show(handles[n - 1].name)]
  }

  /** The names a run visits, as `each.name` prints them. */
  function Visited(handles: seq<Fields>): (r: seq<string>)
  {
    VisitedOf(handles, |handles|)
  }

  /** `pull` or `push`. */
  datatype Sync = PullSync | PushSync

  function SyncCmds(op: Sync): seq<seq<string>>
  {
    if op == PullSync then [["git pull"]] else [["git push"]]
  }

  /** What the handle method returns for git's answer. */
  function SyncReport(op: Sync, output: string): string
  {
    if op == PullSync then PullReport(output) else PushReport(output)
  }

  /** The reports for the first `n` of git's answers. */
  function SyncReportsOf(op: Sync, outputs: seq<string>, n: nat): (r: seq<string>)
    requires n <= |outputs|
    ensures |r| == n
  {
    if n == 0 then [] else SyncReportsOf(op, outputs, n - 1) + [SyncReport(op, outputs[n - 1])]
  }

  /** The reports of a run, one per answer of git. */
  function SyncReports(op: Sync, outputs: seq<string>): (r: seq<string>)
  {
    SyncReportsOf(op, outputs, |outputs|)
  }

  /** `reports` holds, position by position, the report for each of git's answers. */
  ghost predicate ReportsOf(op: Sync, reports: seq<string>, outputs: seq<string>)
  {
    |reports| == |outputs| && forall i :: 0 <= i < |reports| ==> reports[i] == SyncReport(op, outputs[i])
  }

  lemma {:induction false} ReportsAreOf(op: Sync, reports: seq<string>, outputs: seq<string>, n: nat)
    requires ReportsOf(op, reports, outputs) && n <= |outputs|
    ensures SyncReportsOf(op, outputs, n) == reports[..n]
  {
    if n > 0 {
      ReportsAreOf(op, reports, outputs, n - 1);
      assert reports[..n] == reports[..n - 1] + [reports[n - 1]];
    }
  }

  /** The reports collected one by one are the reports of the run. */
  lemma ReportsAre(op: Sync, reports: seq<string>, outputs: seq<string>)
    requires ReportsOf(op, reports, outputs)
    ensures reports == SyncReports(op, outputs)
  {
    ReportsAreOf(op, reports, outputs, |outputs|);
    assert reports[..|reports|] == reports;
  }

  lemma {:induction false} VisitedOfPrefix(handles: seq<Fields>, f: Fields, n: nat)
    requires n <= |handles|
    ensures VisitedOf(handles + [f], n) == VisitedOf(handles, n)
  {
    if n > 0 {
      VisitedOfPrefix(handles, f, n - 1);
      assert (handles + [f])[n - 1] == handles[n - 1];
    }
  }

  lemma VisitedSnoc(handles: seq<Fields>, f: Fields)
    ensures Visited(handles + [f]) == Visited(handles) + [Show(f.name)]
  {
    VisitedOfPrefix(handles, f, |handles|);
    assert (handles + [f])[|handles|] == f;
  }

  /** Pulling or pushing in a handle the run has just loaded. */
  method SyncIn(env: Env, c: Commands, op: Sync, ghost calls0: seq<GitCall>, ghost loaded: seq<Fields>)
    returns (report: string)
    requires env.cwd == c.dir && env.calls == calls0 + Session(loaded, SyncCmds(op))
    modifies env
    ensures env.cwd == old(env.cwd)
    ensures env.calls == calls0 + Session(loaded + [c.State()], SyncCmds(op))
    ensures Replies(env.git, calls0, loaded + [c.State()], SyncCmds(op))
         == Replies(env.git, calls0, loaded, SyncCmds(op)) + [env.git(old(env.calls), env.calls[|env.calls| - 1])]
    ensures report == SyncReport(op, env.git(old(env.calls), env.calls[|env.calls| - 1]))
  {
    ghost var before := env.calls;
    if op == PullSync {
      report := c.Pull(env);
    } else {
      report := c.Push(env);
    }
    SingleCallStep(env.git, calls0, loaded, c.State(), SyncCmds(op), before, env.calls[|env.calls| - 1]);
  }

  /** A handle that makes one git call adds that call to the run, and git's answer
      to it to the replies. */
  lemma SingleCallStep(git: (seq<GitCall>, GitCall) -> string, calls0: seq<GitCall>, loaded: seq<Fields>,
                       f: Fields, cmds: seq<seq<string>>, before: seq<GitCall>, call: GitCall)
    requires |cmds| == 1 && before == calls0 + Session(loaded, cmds) && call == GitCall(f.dir, f.gitExec, cmds[0])
    ensures before + [call] == calls0 + Session(loaded + [f], cmds)
    ensures Replies(git, calls0, loaded + [f], cmds) == Replies(git, calls0, loaded, cmds) + [git(before, call)]
  {
    SessionSnoc(loaded, f, cmds);
    RepliesSnoc(git, calls0, loaded, f, cmds);
    assert cmds[..0] == [];
    assert CallsOf(f, cmds) == [call];
    assert before + CallsOf(f, cmds[..0]) == before;
  }

  /** The exception `Popen` raises when its argument list holds `None`. */
  const NoneArgument := TypeError("expected str, bytes or os.PathLike object, not NoneType")

  /** Whether a handle's `pull` or `push` reaches git. With the shell fallback a
      handle without an executable runs `git pull` through the shell; without it
      the executable always heads `Popen`'s argument list, and a missing one
      raises `TypeError` before anything runs. */
  predicate Launches(fallback: bool, f: Fields)
  {
    fallback || f.gitExec.Some?
  }

  /** How many handles at the head of a run reach git before one raises. */
  function Launched(fallback: bool, handles: seq<Fields>): (n: nat)
    ensures n <= |handles|
    ensures forall i :: 0 <= i < n ==> Launches(fallback, handles[i])
    ensures n < |handles| ==> !Launches(fallback, handles[n])
  {
    if handles == [] || !Launches(fallback, handles[0]) then 0
    else 1 + Launched(fallback, handles[1..])
  }

  lemma ReportsSnoc(op: Sync, reports: seq<string>, outputs: seq<string>, o: string)
    requires ReportsOf(op, reports, outputs)
    ensures ReportsOf(op, reports + [SyncReport(op, o)], outputs + [o])
  {
  }

  lemma LaunchesSnoc(fallback: bool, handles: seq<Fields>, f: Fields)
    requires (forall i :: 0 <= i < |handles| ==> Launches(fallback, handles[i])) && Launches(fallback, f)
    ensures forall i :: 0 <= i < |handles| + 1 ==> Launches(fallback, (handles + [f])[i])
  {
  }

  /** One round of a pull or push run: load the next handle, print its banner, then
      pull or push in it, and add its report to those of the run so far; a handle
      whose call cannot start ends the run after its banner. */
  method SyncNext(env: Env, variant: Variant, fallback: bool, op: Sync, names: map<string, string>,
                  index: map<string, string>, ghost cwd0: string, ghost calls0: seq<GitCall>,
                  tokens: seq<string>, k: nat, visited: seq<string>, reports: seq<string>, ghost loaded: seq<Fields>)
    returns (visited': seq<string>, reports': seq<string>, error: Option<Error>, ghost loaded': seq<Fields>,
             ghost last: Fields, ghost stopped: bool, ghost reached: nat)
    requires k < |tokens|
    requires LoadAll(variant, env.fs, cwd0, names, index, tokens[..k]) == Loaded(loaded, None, env.cwd)
    requires forall i :: 0 <= i < |loaded| ==> Launches(fallback, loaded[i])
    requires env.calls == calls0 + Session(loaded, SyncCmds(op))
    requires visited == Visited(loaded)
    requires ReportsOf(op, reports, Replies(env.git, calls0, loaded, SyncCmds(op)))
    modifies env
    ensures reached == if error.None? || stopped then k + 1 else |tokens|
    ensures reached <= |tokens|
    ensures stopped ==> LoadAll(variant, env.fs, cwd0, names, index, tokens[..reached]) == Loaded(loaded' + [last], None, env.cwd)
    ensures !stopped ==> LoadAll(variant, env.fs, cwd0, names, index, tokens[..reached]) == Loaded(loaded', error, env.cwd)
    ensures stopped ==> error == Some(NoneArgument) && !Launches(fallback, last) && env.cwd == last.dir
    ensures forall i :: 0 <= i < |loaded'| ==> Launches(fallback, loaded'[i])
    ensures env.calls == calls0 + Session(loaded', SyncCmds(op))
    ensures stopped ==> visited' == Visited(loaded' + [last])
    ensures !stopped ==> visited' == Visited(loaded')
    ensures ReportsOf(op, reports', Replies(env.git, calls0, loaded', SyncCmds(op)))
  {
    var h := LoadNext(env, variant, names, index, cwd0, tokens, k, loaded);
    if h.Err? {
      assert tokens[..|tokens|] == tokens;
      return visited, reports, Some(h.error), loaded, Fields(None, "", None, ""), false, |tokens|;
    }
    var c := h.value;
    visited', reports', error, loaded', stopped := SyncHandle(env, fallback, op, c, calls0, loaded, visited, reports);
    last, reached := c.State(), k + 1;
  }

  /** The banner and the call for a handle a run has just loaded: a handle whose
      call cannot start raises instead of adding a report. */
  method SyncHandle(env: Env, fallback: bool, op: Sync, c: Commands, ghost calls0: seq<GitCall>,
                    ghost loaded: seq<Fields>, visited: seq<string>, reports: seq<string>)
    returns (visited': seq<string>, reports': seq<string>, error: Option<Error>, ghost loaded': seq<Fields>,
             ghost stopped: bool)
    requires env.cwd == c.dir && env.calls == calls0 + Session(loaded, SyncCmds(op))
    requires forall i :: 0 <= i < |loaded| ==> Launches(fallback, loaded[i])
    requires visited == Visited(loaded)
    requires ReportsOf(op, reports, Replies(env.git, calls0, loaded, SyncCmds(op)))
    modifies env
    ensures stopped <==> !Launches(fallback, c.State())
    ensures error == if stopped then Some(NoneArgument) else None
    ensures env.cwd == old(env.cwd)
    ensures loaded' == if stopped then loaded else loaded + [c.State()]
    ensures forall i :: 0 <= i < |loaded'| ==> Launches(fallback, loaded'[i])
    ensures env.calls == calls0 + Session(loaded', SyncCmds(op))
    ensures visited' == Visited(loaded + [c.State()])
    ensures ReportsOf(op, reports', Replies(env.git, calls0, loaded', SyncCmds(op)))
  {
    VisitedSnoc(loaded, c.State());
    if !Launches(fallback, c.State()) {
      return visited + [Show(c.name)], reports, Some(NoneArgument), loaded, true;
    }
    ghost var before := env.calls;
    var report := SyncIn(env, c, op, calls0, loaded);
    ReportsSnoc(op, reports, Replies(env.git, calls0, loaded, SyncCmds(op)), env.git(before, env.calls[|env.calls| - 1]));
    LaunchesSnoc(fallback, loaded, c.State());
    visited', reports', error, loaded', stopped := visited + [Show(c.name)], reports + [report], None, loaded + [c.State()], false;
  }

  /** A prefix of a batch that has not raised yet heads the whole batch. */
  lemma {:induction false} LoadAllExtends(variant: Variant, fs: FileSystem, cwd: string, names: map<string, string>,
                                          index: map<string, string>, tokens: seq<string>, j: nat)
    requires j <= |tokens| && LoadAll(variant, fs, cwd, names, index, tokens[..j]).error.None?
    ensures var h := LoadAll(variant, fs, cwd, names, index, tokens).handles;
            j <= |h| && h[..j] == LoadAll(variant, fs, cwd, names, index, tokens[..j]).handles
    decreases |tokens|
  {
    if j < |tokens| {
      var init := tokens[..|tokens| - 1];
      assert init[..j] == tokens[..j];
      LoadAllExtends(variant, fs, cwd, names, index, init, j);
      var b := LoadAll(variant, fs, cwd, names, index, init);
      if b.error.None? {
        match LoadFields(variant, fs, b.cwd, names, index, tokens[|tokens| - 1])
        case Err(_) =>
        case Ok(f) => assert (b.handles + [f])[..j] == b.handles[..j];
      }
    } else {
      assert tokens[..j] == tokens;
    }
  }

  /** A run that stopped at a handle whose call could not start: the handles
      before it head the batch and all reached git, and it comes right after them. */
  lemma RunStopsAt(variant: Variant, fallback: bool, fs: FileSystem, cwd: string, names: map<string, string>,
                   index: map<string, string>, tokens: seq<string>, j: nat, ran: seq<Fields>, last: Fields, cwd': string)
    requires j <= |tokens| && LoadAll(variant, fs, cwd, names, index, tokens[..j]) == Loaded(ran + [last], None, cwd')
    requires (forall i :: 0 <= i < |ran| ==> Launches(fallback, ran[i])) && !Launches(fallback, last)
    ensures var h := LoadAll(variant, fs, cwd, names, index, tokens).handles;
            |ran| < |h| && h[..|ran| + 1] == ran + [last] && h[..|ran|] == ran && Launched(fallback, h) == |ran|
  {
    LoadAllExtends(variant, fs, cwd, names, index, tokens, j);
    var h := LoadAll(variant, fs, cwd, names, index, tokens).handles;
    assert |ran| + 1 <= j;
    assert h[..|ran| + 1] == ran + [last] by {
      assert h[..j][..|ran| + 1] == h[..|ran| + 1];
      assert (ran + [last])[..|ran| + 1] == ran + [last];
    }
    assert h[..|ran|] == ran by {
      assert h[..|ran| + 1][..|ran|] == h[..|ran|];
    }
    assert h[|ran|] == last by {
      assert h[..|ran| + 1][|ran|] == h[|ran|];
    }
    forall i | 0 <= i < |ran|
      ensures Launches(fallback, h[i])
    {
      assert h[..|ran|][i] == h[i];
    }
  }

  /** Where a pull or push loop ends: the handles that reached git head the batch;
      either the batch ran out or raised, or the handle after them could not start. */
  lemma RunEnds(variant: Variant, fallback: bool, fs: FileSystem, cwd0: string, names: map<string, string>,
                index: map<string, string>, tokens: seq<string>, reached: nat, ran: seq<Fields>, last: Fields,
                stopped: bool, error: Option<Error>, cwd: string)
    requires reached <= |tokens| && forall i :: 0 <= i < |ran| ==> Launches(fallback, ran[i])
    requires stopped ==> !Launches(fallback, last) &&
                         LoadAll(variant, fs, cwd0, names, index, tokens[..reached]) == Loaded(ran + [last], None, cwd)
    requires !stopped ==> LoadAll(variant, fs, cwd0, names, index, tokens) == Loaded(ran, error, cwd)
    ensures var b := LoadAll(variant, fs, cwd0, names, index, tokens);
            var n := Launched(fallback, b.handles);
            && b.handles[..n] == ran
            && (stopped ==> n < |b.handles| && b.handles[n] == last && b.handles[..n + 1] == ran + [last])
            && (!stopped ==> n == |b.handles| && b.error == error && b.cwd == cwd)
  {
    if stopped {
      RunStopsAt(variant, fallback, fs, cwd0, names, index, tokens, reached, ran, last, cwd);
      var h := LoadAll(variant, fs, cwd0, names, index, tokens).handles;
      assert h[..|ran| + 1][|ran|] == h[|ran|];
    } else {
      assert ran[..|ran|] == ran;
    }
  }

  /** The loop of `pull` and `push`: each yielded handle prints its banner, then
      pulls or pushes in turn, from its own directory; a failed load ends the run,
      and so does a handle whose call cannot start, right after its banner. */
  method SyncAll(env: Env, variant: Variant, fallback: bool, op: Sync, names: map<string, string>,
                 index: map<string, string>, tokens: seq<string>)
    returns (visited: seq<string>, reports: seq<string>, error: Option<Error>)
    modifies env
    ensures var b := LoadAll(variant, env.fs, old(env.cwd), names, index, tokens);
            var n := Launched(fallback, b.handles);
            && env.calls == old(env.calls) + Session(b.handles[..n], SyncCmds(op))
            && reports == SyncReports(op, Replies(env.git, old(env.calls), b.handles[..n], SyncCmds(op)))
            && (n == |b.handles| ==> error == b.error && env.cwd == b.cwd && visited == Visited(b.handles))
            && (n < |b.handles| ==> error == Some(NoneArgument) && env.cwd == b.handles[n].dir
                                    && visited == Visited(b.handles[..n]) + [Show(b.handles[n].name)])
  {
    ghost var cwd0, calls0 := env.cwd, env.calls;
    ghost var loaded: seq<Fields> := [];
    ghost var last := Fields(None, "", None, "");
    ghost var stopped := false;
    visited, reports, error := [], [], None;
    var k := 0;
    ghost var reached := 0;
    while k < |tokens| && error.None?
      invariant 0 <= k <= |tokens| && reached <= |tokens|
      invariant reached == if error.None? then k else if stopped then k + 1 else |tokens|
      invariant stopped ==> LoadAll(variant, env.fs, cwd0, names, index, tokens[..reached]) == Loaded(loaded + [last], None, env.cwd)
      invariant !stopped ==> LoadAll(variant, env.fs, cwd0, names, index, tokens[..reached]) == Loaded(loaded, error, env.cwd)
      invariant stopped ==> error == Some(NoneArgument) && !Launches(fallback, last) && env.cwd == last.dir
      invariant forall i :: 0 <= i < |loaded| ==> Launches(fallback, loaded[i])
      invariant env.calls == calls0 + Session(loaded, SyncCmds(op))
      invariant stopped ==> visited == Visited(loaded + [last])
      invariant !stopped ==> visited == Visited(loaded)
      invariant ReportsOf(op, reports, Replies(env.git, calls0, loaded, SyncCmds(op)))
      decreases |tokens| - k, if error.None? then 1 else 0
    {
      visited, reports, error, loaded, last, stopped, reached :=
        SyncNext(env, variant, fallback, op, names, index, cwd0, calls0, tokens, k, visited, reports, loaded);
      if error.None? {
        k := k + 1;
      }
    }
    ReportsAre(op, reports, Replies(env.git, calls0, loaded, SyncCmds(op)));
    if !stopped {
      assert tokens[..reached] == tokens;
    }
    RunEnds(variant, fallback, env.fs, cwd0, names, index, tokens, reached, loaded, last, stopped, error, env.cwd);
    if stopped {
      VisitedSnoc(loaded, last);
    }
  }

  // ---------------------------------------------------------------------------
  // What `pull` and `push` print

  /** The order shelve hands back the keys of `m` in: each key exactly once. */
  ghost predicate KeyOrder(keys: seq<string>, m: map<string, string>)
  {
    && (forall i, j :: 0 <= i < j < |keys| ==> keys[i] != keys[j])
    && (forall key :: key in keys <==> key in m)
  }

  /** What a run prints before its first repository. */
  function SyncHeader(variant: Variant, op: Sync): string
  {
    if variant == Script then ""
    else if op == PullSync then "Pull repositories\n\n\n"
    else "Push  directories\n\n\n"
  }

  /** The line `print("***", each.name, "***")` prints. */
  function Banner(name: string): string
  {
    "*** " + name + " ***\n"
  }

  /** What a run prints for one repository: the banner with its name, then the
      handle's report, with the line ends each variant's `print` calls add. */
  function SyncBlock(variant: Variant, op: Sync, name: string, report: string): (r: string)
    ensures StartsWith(r, Banner(name) + report)
  {
    Banner(name) + report
    + (if variant == Script then "\n" else if op == PullSync then "\n\n" else " \n\n")
  }

  function SyncBlocks(variant: Variant, op: Sync, names: seq<string>, reports: seq<string>): (r: seq<string>)
    requires |names| == |reports|
    ensures |r| == |names|
    ensures forall k :: 0 <= k < |r| ==> r[k] == SyncBlock(variant, op, names[k], reports[k])
  {
    if names == [] then []
    else SyncBlocks(variant, op, names[..|names| - 1], reports[..|reports| - 1])
         + [SyncBlock(variant, op, names[|names| - 1], reports[|reports| - 1])]
  }

  /** Everything a run prints for the repositories it visited. */
  function Transcript(variant: Variant, op: Sync, names: seq<string>, reports: seq<string>): string
    requires |names| == |reports|
  {
    SyncHeader(variant, op) + Concat(SyncBlocks(variant, op, names, reports))
  }

  /** Each visited repository's banner is printed with its report right after it. */
  lemma TranscriptShowsEach(variant: Variant, op: Sync, names: seq<string>, reports: seq<string>, k: nat)
    requires |names| == |reports| && k < |names|
    ensures Contains(Transcript(variant, op, names, reports), "*** " + names[k] + " ***\n" + reports[k])
  {
    var blocks := SyncBlocks(variant, op, names, reports);
    var shown := "*** " + names[k] + " ***\n" + reports[k];
    ConcatContainsEach(blocks, k);
    assert OccursAt(blocks[k], shown, 0);
    ContainsTransitive(Concat(blocks), blocks[k], shown);
    ContainsInConcat(SyncHeader(variant, op), Concat(blocks), shown);
  }

  /** `pull`/`push`: pygit/pygit.py runs on the given ids and names, or on every
      name-shelf key with `_all`; build/lib/pygit/main.py ignores its arguments and
      always runs on every name-shelf key. */
  function SyncTokens(variant: Variant, keys: seq<string>, args: seq<string>, all: bool): seq<string>
  {
    if variant == Package || all then keys else args
  }

  /** What a run prints: the header, a block for each of the first `n` handles,
      whose calls reached git, then the bare banner of the handle after them, whose
      call raised, if there is one. */
  function RunTranscript(variant: Variant, op: Sync, handles: seq<Fields>, n: nat, reports: seq<string>): string
    requires n <= |handles| && |reports| == n
  {
    Transcript(variant, op, Visited(handles[..n]), reports) + (if n < |handles| then Banner(Show(handles[n].name)) else "")
  }

  /** The transcript built from the names a run printed and its reports is the run's. */
  lemma PrintedRun(variant: Variant, op: Sync, handles: seq<Fields>, n: nat, visited: seq<string>, reports: seq<string>)
    requires n <= |handles| && |reports| == n
    requires n == |handles| ==> visited == Visited(handles)
    requires n < |handles| ==> visited == Visited(handles[..n]) + [Show(handles[n].name)]
    ensures |reports| <= |visited|
    ensures Transcript(variant, op, visited[..|reports|], reports)
            + (if |reports| < |visited| then Banner(visited[|reports|]) else "")
         == RunTranscript(variant, op, handles, n, reports)
  {
    if n < |handles| {
      assert visited[..n] == Visited(handles[..n]);
    } else {
      assert handles[..n] == handles && visited[..n] == visited;
    }
  }

  /** `pull` or `push`: the transcript printed and the exception that ended the run,
      if any. pygit/pygit.py falls back to the shell for a handle without an
      executable; build/lib/pygit/main.py does not. */
  method SyncRun(env: Env, variant: Variant, op: Sync, names: map<string, string>, index: map<string, string>,
                 keys: seq<string>, args: seq<string>, all: bool) returns (out: string, error: Option<Error>)
    requires (variant == Package || all) ==> KeyOrder(keys, names)
    modifies env
    ensures var b := LoadAll(variant, env.fs, old(env.cwd), names, index, SyncTokens(variant, keys, args, all));
            var n := Launched(variant == Script, b.handles);
            && env.calls == old(env.calls) + Session(b.handles[..n], SyncCmds(op))
            && out == RunTranscript(variant, op, b.handles, n, SyncReports(op, Replies(env.git, old(env.calls), b.handles[..n], SyncCmds(op))))
            && (n == |b.handles| ==> error == b.error && env.cwd == b.cwd)
            && (n < |b.handles| ==> error == Some(NoneArgument) && env.cwd == b.handles[n].dir)
  {
    var visited, reports;
    ghost var cwd0 := env.cwd;
    visited, reports, error := SyncAll(env, variant, variant == Script, op, names, index, SyncTokens(variant, keys, args, all));
    ghost var handles := LoadAll(variant, env.fs, cwd0, names, index, SyncTokens(variant, keys, args, all)).handles;
    PrintedRun(variant, op, handles, Launched(variant == Script, handles), visited, reports);
    out := Transcript(variant, op, visited[..|reports|], reports)
           + (if |reports| < |visited| then Banner(visited[|reports|]) else "");
  }

  /** `pull` or `push` as build/lib/pygit/main.py evidently meant them: like its own
      `fetch` and `status`, a handle without an executable runs git through the
      shell, so every handle the batch yields pulls or pushes. */
  method SyncRunFallback(env: Env, variant: Variant, op: Sync, names: map<string, string>, index: map<string, string>,
                         keys: seq<string>, args: seq<string>, all: bool) returns (out: string, error: Option<Error>)
    requires (variant == Package || all) ==> KeyOrder(keys, names)
    modifies env
    ensures var b := LoadAll(variant, env.fs, old(env.cwd), names, index, SyncTokens(variant, keys, args, all));
            && error == b.error && env.cwd == b.cwd
            && env.calls == old(env.calls) + Session(b.handles, SyncCmds(op))
            && out == Transcript(variant, op, Visited(b.handles), SyncReports(op, Replies(env.git, old(env.calls), b.handles, SyncCmds(op))))
  {
    var visited, reports;
    ghost var cwd0 := env.cwd;
    visited, reports, error := SyncAll(env, variant, true, op, names, index, SyncTokens(variant, keys, args, all));
    ghost var handles := LoadAll(variant, env.fs, cwd0, names, index, SyncTokens(variant, keys, args, all)).handles;
    assert handles[..|handles|] == handles;
    out := Transcript(variant, op, visited, reports);
  }

  /** Every handle a batch yields was built without an executable. */
  lemma {:induction false} LoadAllWithoutExecutable(variant: Variant, fs: FileSystem, cwd: string,
                                                    names: map<string, string>, index: map<string, string>,
                                                    tokens: seq<string>)
    ensures forall f :: f in LoadAll(variant, fs, cwd, names, index, tokens).handles ==> f.gitExec.None?
    decreases |tokens|
  {
    if tokens != [] {
      LoadAllWithoutExecutable(variant, fs, cwd, names, index, tokens[..|tokens| - 1]);
      var b := LoadAll(variant, fs, cwd, names, index, tokens[..|tokens| - 1]);
      if b.error.None? {
        var found := Lookup(variant, names, index, tokens[|tokens| - 1]);
        if found.Ok? {
          var g := Bind(fs, b.cwd, Some(found.value.0), Some(found.value.1), None, DefaultMessage);
          assert LoadFields(variant, fs, b.cwd, names, index, tokens[|tokens| - 1]) == g;
        }
      }
    }
  }

  /** As written: build/lib/pygit/main.py's `pull` and `push` hand `[None, "git pull"]`
      (or `"git push"`) to `Popen` for every handle `load` builds, so no repository
      is ever pulled or pushed; a batch that yields a handle ends in `TypeError`
      right after that handle's banner. */
  lemma PackageSyncReachesNoRepository(fs: FileSystem, cwd: string, names: map<string, string>,
                                       index: map<string, string>, tokens: seq<string>)
    ensures var h := LoadAll(Package, fs, cwd, names, index, tokens).handles;
            Launched(false, h) == 0 && (h != [] ==> !Launches(false, h[0]))
  {
    LoadAllWithoutExecutable(Package, fs, cwd, names, index, tokens);
    var h := LoadAll(Package, fs, cwd, names, index, tokens).handles;
    if h != [] {
      assert h[0] in h;
    }
  }

  const ProjFs := FileSystem(map["/m/proj" := [".git"]], {})
  const ProjNames := map["proj" := "/m/proj"]

  /** The name shelf {"proj": "/m/proj"} loads one handle, without an executable. */
  lemma ProjLoads(cwd: string)
    ensures LoadAll(Package, ProjFs, cwd, ProjNames, map[], ["proj"]).handles
            == [Fields(Some("proj"), "/m/proj", None, DefaultMessage)]
  {
    LookupByName(Package, ProjNames, map[], "proj");
    BindDirectory(ProjFs, cwd, Some("proj"), Some("/m/proj"), None, DefaultMessage);
    assert ["proj"][..0] == [];
  }

  /** As written, for the name shelf {"proj": "/m/proj"}: the package's `pull` prints
      its header and the banner of "proj", then raises `TypeError`; git is never called. */
  lemma PackagePullStopsAfterBanner(cwd: string)
    ensures KeyOrder(["proj"], ProjNames)
    ensures var h := LoadAll(Package, ProjFs, cwd, ProjNames, map[], ["proj"]).handles;
            && h == [Fields(Some("proj"), "/m/proj", None, DefaultMessage)]
            && Launched(false, h) == 0
            && RunTranscript(Package, PullSync, h, 0, []) == "Pull repositories\n\n\n*** proj ***\n"
  {
    assert forall key :: key in ["proj"] <==> key in ProjNames;
    ProjLoads(cwd);
    var h := LoadAll(Package, ProjFs, cwd, ProjNames, map[], ["proj"]).handles;
    assert h[..0] == [];
    assert Visited([]) == [] && SyncBlocks(Package, PullSync, [], []) == [];
    assert Transcript(Package, PullSync, [], []) == "Pull repositories\n\n\n";
    assert Show(h[0].name) == "proj";
  }

  // ---------------------------------------------------------------------------
  // `all_status`

  const StatusCmds: seq<seq<string>> := [["git fetch"], ["git status"]]

  /** The entries of the first `n` handles: each one's printed name with git's status answer. */
  function EntriesOf(handles: seq<Fields>, outputs: seq<string>, n: nat): (r: seq<Entry>)
    requires n <= |handles| && n <= |outputs|
    ensures |r| == n
  {
    if n == 0 then [] else EntriesOf(handles, outputs, n - 1) + [Entry(Show(handles[n - 1].name), outputs[n - 1])]
  }

  /** The entries of a status run: each handle's printed name with git's status answer. */
  function Entries(handles: seq<Fields>, outputs: seq<string>): (r: seq<Entry>)
    requires |handles| == |outputs|
  {
    EntriesOf(handles, outputs, |handles|)
  }

  lemma {:induction false} EntriesOfPrefix(handles: seq<Fields>, outputs: seq<string>, f: Fields, o: string, n: nat)
    requires n <= |handles| && n <= |outputs|
    ensures EntriesOf(handles + [f], outputs + [o], n) == EntriesOf(handles, outputs, n)
  {
    if n > 0 {
      EntriesOfPrefix(handles, outputs, f, o, n - 1);
      assert (handles + [f])[n - 1] == handles[n - 1];
      assert (outputs + [o])[n - 1] == outputs[n - 1];
    }
  }

  lemma EntriesSnoc(handles: seq<Fields>, outputs: seq<string>, f: Fields, o: string)
    requires |handles| == |outputs|
    ensures Entries(handles + [f], outputs + [o]) == Entries(handles, outputs) + [Entry(Show(f.name), o)]
  {
    EntriesOfPrefix(handles, outputs, f, o, |handles|);
    assert (handles + [f])[|handles|] == f;
    assert (outputs + [o])[|outputs|] == o;
  }

  /** The calls of a status: a fetch, then `git status`, both from the handle's directory. */
  lemma StatusCalls(f: Fields)
    ensures StatusCmds[|StatusCmds| - 1] == ["git status"]
    ensures CallsOf(f, StatusCmds[..|StatusCmds| - 1]) == [GitCall(f.dir, f.gitExec, ["git fetch"])]
    ensures CallsOf(f, StatusCmds) == [GitCall(f.dir, f.gitExec, ["git fetch"]), GitCall(f.dir, f.gitExec, ["git status"])]
  {
    assert StatusCmds[..1] == [["git fetch"]];
    assert StatusCmds[..1][..0] == [];
  }

  /** Asking for the status in a handle the run has just loaded: a fetch, then the status. */
  method StatusIn(env: Env, c: Commands, ghost calls0: seq<GitCall>, ghost loaded: seq<Fields>)
    returns (status: string)
    requires env.cwd == c.dir && env.calls == calls0 + Session(loaded, StatusCmds)
    modifies env
    ensures env.cwd == old(env.cwd)
    ensures env.calls == calls0 + Session(loaded + [c.State()], StatusCmds)
    ensures Replies(env.git, calls0, loaded + [c.State()], StatusCmds)
         == Replies(env.git, calls0, loaded, StatusCmds) + [status]
  {
    SessionSnoc(loaded, c.State(), StatusCmds);
    RepliesSnoc(env.git, calls0, loaded, c.State(), StatusCmds);
    StatusCalls(c.State());
    status := c.Status(env);
  }

  /** One round of a status run: load the next handle, ask for its status, and
      add its entry to those of the run so far. */
  method StatusNext(env: Env, variant: Variant, names: map<string, string>, index: map<string, string>,
                    ghost cwd0: string, ghost calls0: seq<GitCall>, tokens: seq<string>, k: nat,
                    entries: seq<Entry>, ghost loaded: seq<Fields>)
    returns (entries': seq<Entry>, error: Option<Error>, ghost loaded': seq<Fields>, ghost reached: nat)
    requires k < |tokens|
    requires LoadAll(variant, env.fs, cwd0, names, index, tokens[..k]) == Loaded(loaded, None, env.cwd)
    requires env.calls == calls0 + Session(loaded, StatusCmds)
    requires entries == Entries(loaded, Replies(env.git, calls0, loaded, StatusCmds))
    modifies env
    ensures reached == if error.None? then k + 1 else |tokens|
    ensures reached <= |tokens| && LoadAll(variant, env.fs, cwd0, names, index, tokens[..reached]) == Loaded(loaded', error, env.cwd)
    ensures env.calls == calls0 + Session(loaded', StatusCmds)
    ensures entries' == Entries(loaded', Replies(env.git, calls0, loaded', StatusCmds))
  {
    var h := LoadNext(env, variant, names, index, cwd0, tokens, k, loaded);
    if h.Err? {
      assert tokens[..|tokens|] == tokens;
      return entries, Some(h.error), loaded, |tokens|;
    }
    var c := h.value;
    var status := StatusIn(env, c, calls0, loaded);
    EntriesSnoc(loaded, Replies(env.git, calls0, loaded, StatusCmds), c.State(), status);
    entries', error, loaded', reached := entries + [Entry(Show(c.name), status)], None, loaded + [c.State()], k + 1;
  }

  /** The loop of `all_status`: each yielded handle fetches and reports its status
      in turn; a failed load ends the run. */
  method StatusAll(env: Env, variant: Variant, names: map<string, string>, index: map<string, string>,
                   tokens: seq<string>) returns (entries: seq<Entry>, error: Option<Error>)
    modifies env
    ensures var b := LoadAll(variant, env.fs, old(env.cwd), names, index, tokens);
            && error == b.error && env.cwd == b.cwd
            && env.calls == old(env.calls) + Session(b.handles, StatusCmds)
            && entries == Entries(b.handles, Replies(env.git, old(env.calls), b.handles, StatusCmds))
  {
    ghost var cwd0, calls0 := env.cwd, env.calls;
    ghost var loaded: seq<Fields> := [];
    entries, error := [], None;
    var k := 0;
    ghost var reached := 0;
    while k < |tokens| && error.None?
      invariant 0 <= k <= |tokens|
      invariant reached == if error.None? then k else |tokens|
      invariant LoadAll(variant, env.fs, cwd0, names, index, tokens[..reached]) == Loaded(loaded, error, env.cwd)
      invariant env.calls == calls0 + Session(loaded, StatusCmds)
      invariant entries == Entries(loaded, Replies(env.git, calls0, loaded, StatusCmds))
      decreases |tokens| - k, if error.None? then 1 else 0
    {
      entries, error, loaded, reached := StatusNext(env, variant, names, index, cwd0, calls0, tokens, k, entries, loaded);
      if error.None? {
        k := k + 1;
      }
    }
    assert tokens[..reached] == tokens;
  }

  /** pygit/pygit.py `all_status`: enter the status directory, write the header, run
      the status of every name-shelf key, then write the attention list and the
      sections and go back to the base directory. A failed load propagates out of
      the `with` block, leaving only the header in the file; no file is written when
      the status directory cannot be entered. */
  method ScriptAllStatus(env: Env, names: map<string, string>, index: map<string, string>, keys: seq<string>,
                         stamp: string, statusDir: string, baseDir: string)
    returns (file: Option<string>, error: Option<Error>)
    requires KeyOrder(keys, names)
    modifies env
    ensures ListDir(env.fs, statusDir).Err? ==>
              file.None? && error == Some(ListDir(env.fs, statusDir).error)
              && env.cwd == old(env.cwd) && env.calls == old(env.calls)
    ensures ListDir(env.fs, statusDir).Ok? ==>
              var b := LoadAll(Script, env.fs, statusDir, names, index, keys);
              && env.calls == old(env.calls) + Session(b.handles, StatusCmds)
              && (b.error.Some? ==> file == Some(StatusHeader(stamp)) && error == b.error && env.cwd == b.cwd)
              && (b.error.None? ==>
                    file == Some(ScriptStatusFile(stamp, Entries(b.handles, Replies(env.git, old(env.calls), b.handles, StatusCmds))))
                    && (ListDir(env.fs, baseDir).Ok? ==> error.None? && env.cwd == baseDir)
                    && (ListDir(env.fs, baseDir).Err? ==> error == Some(ListDir(env.fs, baseDir).error) && env.cwd == b.cwd))
  {
    error := env.Chdir(statusDir);
    if error.Some? {
      return None, error;
    }
    var entries;
    entries, error := StatusAll(env, Script, names, index, keys);
    if error.Some? {
      return Some(StatusHeader(stamp)), error;
    }
    file := Some(ScriptStatusFile(stamp, entries));
    error := env.Chdir(baseDir);
  }

  /** build/lib/pygit/main.py `all_status`: enter the status directory, then write
      each repository's section as its status comes in; the numbered attention list
      and the return to the base directory follow only a complete run. */
  method PackageAllStatus(env: Env, names: map<string, string>, index: map<string, string>, keys: seq<string>,
                          stamp: string, statusDir: string, baseDir: string)
    returns (file: Option<string>, error: Option<Error>)
    requires KeyOrder(keys, names)
    modifies env
    ensures ListDir(env.fs, statusDir).Err? ==>
              file.None? && error == Some(ListDir(env.fs, statusDir).error)
              && env.cwd == old(env.cwd) && env.calls == old(env.calls)
    ensures ListDir(env.fs, statusDir).Ok? ==>
              var b := LoadAll(Package, env.fs, statusDir, names, index, keys);
              && env.calls == old(env.calls) + Session(b.handles, StatusCmds)
              && file == Some(PackageStatusFile(stamp, Entries(b.handles, Replies(env.git, old(env.calls), b.handles, StatusCmds)), b.error.None?))
              && (b.error.Some? ==> error == b.error && env.cwd == b.cwd)
              && (b.error.None? && ListDir(env.fs, baseDir).Ok? ==> error.None? && env.cwd == baseDir)
              && (b.error.None? && ListDir(env.fs, baseDir).Err? ==> error == Some(ListDir(env.fs, baseDir).error) && env.cwd == b.cwd)
  {
    error := env.Chdir(statusDir);
    if error.Some? {
      return None, error;
    }
    var entries;
    entries, error := StatusAll(env, Package, names, index, keys);
    file := Some(PackageStatusFile(stamp, entries, error.None?));
    if error.None? {
      error := env.Chdir(baseDir);
    }
  }

  // ---------------------------------------------------------------------------
  // Where the `_all` batch departs from the registry it reads

  /** Two repositories, one of them named by digits, registered in that order. */
  const NumericFs := FileSystem(map["/m/proj" := [".git"], "/m/1" := [".git"]], {})
  const NumericNames := map["proj" := "/m/proj", "1" := "/m/1"]
  const NumericIndex := map["1" := "proj", "2" := "1"]
  const NumericKeys := ["proj", "1"]

  /** The registry is one the registration passes build, and the keys are its name-shelf keys. */
  lemma NumericRegistryValid()
    ensures KeyOrder(NumericKeys, NumericNames) && Contiguous(NumericIndex) && Resolvable(NumericIndex, NumericNames)
  {
    NumericContiguous();
    assert NumericKeys[0] == "proj" && NumericKeys[1] == "1";
  }

  /** The example index holds the ids "1" and "2", as two registrations leave it. */
  lemma NumericContiguous()
    ensures Contiguous(NumericIndex)
  {
    var empty: map<string, string> := map[];
    EmptyIsContiguous();
    assert |empty| + 1 == 1 && NatToString(1) == "1";
    ContiguousExtend(empty, "proj", 1);
    var one := empty["1" := "proj"];
    assert |one| + 1 == 2 && NatToString(2) == "2";
    ContiguousExtend(one, "1", 2);
    assert one["2" := "1"] == NumericIndex;
  }

  /** The key "1" opens "proj": it is taken for id "1". */
  lemma DigitsKeyLoadsProj(variant: Variant, cwd: string)
    ensures LoadFields(variant, NumericFs, cwd, NumericNames, NumericIndex, "1")
            == Ok(Fields(Some("proj"), "/m/proj", None, DefaultMessage))
  {
    NumericRegistryValid();
    LookupById(variant, NumericNames, NumericIndex, 1);
    assert NatToString(1) == "1";
    BindDirectory(NumericFs, cwd, Some("proj"), Some("/m/proj"), None, DefaultMessage);
  }


  /** As written: the `_all` batch loads every name-shelf key with `load`, which
      reads a key `int()` accepts as an id. In the valid registry above, holding
      "proj" (id "1") and a repository named "1" (id "2"), the batch reaches the
      key "1" and opens "proj" for it: the repository named "1" is never opened. */
  lemma AllBatchMisloadsNumericName(variant: Variant, cwd: string)
    ensures KeyOrder(NumericKeys, NumericNames) && Contiguous(NumericIndex) && Resolvable(NumericIndex, NumericNames)
    ensures "1" in NumericKeys
    ensures LoadFields(variant, NumericFs, cwd, NumericNames, NumericIndex, "1")
            == Ok(Fields(Some("proj"), "/m/proj", None, DefaultMessage))
  {
    NumericRegistryValid();
    DigitsKeyLoadsProj(variant, cwd);
  }

  /** As written: the key `shelve_git_path` wrote is a name-shelf key like any
      repository name, so the `_all` batch reaches it and `load` opens a handle
      named after the git kind. */
  lemma AllBatchLoadsGitEntry(variant: Variant, fs: FileSystem, cwd: string, names: map<string, string>,
                              index: map<string, string>, keys: seq<string>, kind: GitKind)
    requires KeyOrder(keys, names) && GitKey(kind) in names
    requires names[GitKey(kind)] in fs.dirs || names[GitKey(kind)] !in fs.files
    ensures GitKey(kind) in keys
    ensures LoadFields(variant, fs, cwd, names, index, GitKey(kind))
            == Ok(Fields(Some(GitKey(kind)), EnterDir(fs, cwd, Some(names[GitKey(kind)])).value, None, DefaultMessage))
  {
    var key := GitKey(kind);
    GitKeyHasNoDigit(kind);
    LookupByName(variant, names, index, key);
    assert Lookup(variant, names, index, key) == Ok((key, names[key]));
    BindDirectory(fs, cwd, Some(key), Some(names[key]), None, DefaultMessage);
    assert LoadFields(variant, fs, cwd, names, index, key) == Bind(fs, cwd, Some(key), Some(names[key]), None, DefaultMessage);
  }

  /** The git entries' keys hold no digit. */
  lemma GitKeyHasNoDigit(kind: GitKind)
    ensures forall i :: 0 <= i < |GitKey(kind)| ==> !IsDigit(GitKey(kind)[i])
  {
  }

  /** The ids of a registry of n repositories, in order: "1", ..., str(n). */
  function IdTokens(n: nat): (r: seq<string>)
    ensures |r| == n
    ensures forall k :: 0 <= k < n ==> r[k] == NatToString(k + 1)
  {
    if n == 0 then [] else IdTokens(n - 1) + [NatToString(n)]
  }

  /** Corrected: a batch over the ids "1".."n" of a registry built by the
      registration passes opens each indexed repository once, in id order, under
      its own name and recorded path, and raises nothing. */
  lemma IndexBatchLoadsEachRepo(variant: Variant, fs: FileSystem, cwd: string,
                                names: map<string, string>, index: map<string, string>, n: nat)
    requires Contiguous(index) && Resolvable(index, names)
    requires forall id :: id in index ==> names[index[id]] in fs.dirs
    requires n <= |index|
    ensures LoadAll(variant, fs, cwd, names, index, IdTokens(n)).error.None?
    ensures |LoadAll(variant, fs, cwd, names, index, IdTokens(n)).handles| == n
    ensures forall j :: 1 <= j <= n ==> NatToString(j) in index
    ensures forall k :: 0 <= k < n ==>
              LoadAll(variant, fs, cwd, names, index, IdTokens(n)).handles[k]
              == Fields(Some(index[NatToString(k + 1)]), names[index[NatToString(k + 1)]], None, DefaultMessage)
  {
    IndexBatchPrefix(variant, fs, cwd, names, index, n);
    IndexHandlesOpen(names, index, n);
  }

  /** The handle id str(n) stands for: the name the index gives it and the path
      recorded under that name. */
  function IdHandle(names: map<string, string>, index: map<string, string>, n: nat): Fields
  {
    var id := NatToString(n);
    var name := if id in index then index[id] else "";
    Fields(Some(name), if name in names then names[name] else "", None, DefaultMessage)
  }

  /** The handles ids "1".."n" stand for, in id order. */
  function IndexHandles(names: map<string, string>, index: map<string, string>, n: nat): (r: seq<Fields>)
    ensures |r| == n
  {
    if n == 0 then [] else IndexHandles(names, index, n - 1) + [IdHandle(names, index, n)]
  }

  /** The handles ids "1".."n" stand for open, in id order, the repositories the index names. */
  lemma IndexHandlesOpen(names: map<string, string>, index: map<string, string>, n: nat)
    requires Contiguous(index) && Resolvable(index, names)
    requires n <= |index|
    ensures forall j :: 1 <= j <= n ==> NatToString(j) in index
    ensures forall k :: 0 <= k < n ==>
              IndexHandles(names, index, n)[k]
              == Fields(Some(index[NatToString(k + 1)]), names[index[NatToString(k + 1)]], None, DefaultMessage)
  {
    forall j | 1 <= j <= n {
      IdInContiguous(index, j);
    }
    forall k | 0 <= k < n {
      IndexHandleOpens(names, index, n, k);
    }
  }

  /** The k-th handle of the batch over "1".."n" opens the repository id str(k + 1) names. */
  lemma IndexHandleOpens(names: map<string, string>, index: map<string, string>, n: nat, k: nat)
    requires Contiguous(index) && Resolvable(index, names)
    requires k < n <= |index|
    ensures NatToString(k + 1) in index
    ensures IndexHandles(names, index, n)[k]
            == Fields(Some(index[NatToString(k + 1)]), names[index[NatToString(k + 1)]], None, DefaultMessage)
  {
    IdInContiguous(index, k + 1);
    IndexHandleAt(names, index, n, k);
  }

  lemma {:induction false} IndexHandleAt(names: map<string, string>, index: map<string, string>, n: nat, k: nat)
    requires k < n
    ensures IndexHandles(names, index, n)[k] == IdHandle(names, index, k + 1)
  {
    if k < n - 1 {
      IndexHandleAt(names, index, n - 1, k);
    }
  }

  /** The batch over ids "1".."n" loads exactly those handles. */
  lemma {:induction false} IndexBatchPrefix(variant: Variant, fs: FileSystem, cwd: string,
                                            names: map<string, string>, index: map<string, string>, n: nat)
    requires Contiguous(index) && Resolvable(index, names)
    requires forall id :: id in index ==> names[index[id]] in fs.dirs
    requires n <= |index|
    ensures var b := LoadAll(variant, fs, cwd, names, index, IdTokens(n));
            b.error.None? && b.handles == IndexHandles(names, index, n)
  {
    if n > 0 {
      IndexBatchPrefix(variant, fs, cwd, names, index, n - 1);
      var b := LoadAll(variant, fs, cwd, names, index, IdTokens(n - 1));
      var id := NatToString(n);
      IdStepLoads(variant, fs, b.cwd, names, index, n);
      var f := Fields(Some(index[id]), names[index[id]], None, DefaultMessage);
      assert f == IdHandle(names, index, n);
      LoadSnocOk(variant, fs, cwd, names, index, IdTokens(n - 1), id, b.handles, b.cwd, f);
    }
  }

  /** The id str(n) of a registry of at least n repositories opens the repository that took it. */
  lemma IdStepLoads(variant: Variant, fs: FileSystem, cwd: string, names: map<string, string>,
                    index: map<string, string>, n: nat)
    requires Contiguous(index) && Resolvable(index, names)
    requires forall id :: id in index ==> names[index[id]] in fs.dirs
    requires 1 <= n <= |index|
    ensures NatToString(n) in index
    ensures LoadFields(variant, fs, cwd, names, index, NatToString(n))
            == Ok(Fields(Some(index[NatToString(n)]), names[index[NatToString(n)]], None, DefaultMessage))
  {
    var id := NatToString(n);
    LookupById(variant, names, index, n);
    BindDirectory(fs, cwd, Some(index[id]), Some(names[index[id]]), None, DefaultMessage);
  }
}
