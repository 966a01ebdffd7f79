/** The per-repository handle (`Commands`): the fields it is built with, the
    working-directory change its constructor makes, and the git invocations of
    its methods. git itself is an oracle: the process environment records every
    call and answers it with a fixed function of the calls made so far. */
module Handle {
  import opened Results
  import opened Strings
  import opened FileSystems

  /** One git process: the working directory it ran in, the executable handed to
      it and its argument list. */
  datatype GitCall = GitCall(cwd: string, exec: Option<string>, args: seq<string>)

  /** The process the handles live in: its working directory, the filesystem it
      sees, and git, which answers each call given every earlier one. */
  class Env {
    var cwd: string
    const fs: FileSystem
    const git: (seq<GitCall>, GitCall) -> string
    var calls: seq<GitCall>

    constructor (fs: FileSystem, cwd: string, git: (seq<GitCall>, GitCall) -> string)
      ensures this.fs == fs && this.cwd == cwd && this.git == git && calls == []
    {
      this.fs := fs;
      this.cwd := cwd;
      this.git := git;
      calls := [];
    }

    /** `os.chdir(target)` inside the handle constructor, which catches
        `FileNotFoundError` and the `TypeError` of a `None` target. */
    method ChangeDir(target: Option<string>) returns (r: Result<string>)
      modifies this
      ensures r == EnterDir(fs, old(cwd), target)
      ensures cwd == (if r.Ok? then r.value else old(cwd))
      ensures calls == old(calls)
    {
      r := EnterDir(fs, cwd, target);
      if r.Ok? {
        cwd := r.value;
      }
    }

    /** A plain `os.chdir(target)`, which raises what `os.listdir(target)` would. */
    method Chdir(target: string) returns (error: Option<Error>)
      modifies this
      ensures var l := ListDir(fs, target);
              && (l.Ok? ==> error.None? && cwd == target)
              && (l.Err? ==> error == Some(l.error) && cwd == old(cwd))
      ensures calls == old(calls)
    {
      var l := ListDir(fs, target);
      if l.Ok? {
        cwd := target;
        error := None;
      } else {
        error := Some(l.error);
      }
    }

    /** Starts git in the current directory and waits for what it prints. */
    method Run(exec: Option<string>, args: seq<string>) returns (output: string)
      modifies this
      ensures cwd == old(cwd)
      ensures calls == old(calls) + [GitCall(cwd, exec, args)]
      ensures output == git(old(calls), GitCall(cwd, exec, args))
    {
      output := git(calls, GitCall(cwd, exec, args));
      calls := calls + [GitCall(cwd, exec, args)];
    }
  }

  /** The working directory after the constructor's `os.chdir(target)` and
      `os.getcwd()`, or the exception that escapes it. */
  function EnterDir(fs: FileSystem, cwd: string, target: Option<string>): (r: Result<string>)
    ensures r.Err? <==> target.Some? && target.value !in fs.dirs && target.value in fs.files
    ensures r.Err? ==> r.error == NotADirectoryError(target.value)
    ensures target.Some? && target.value in fs.dirs ==> r == Ok(target.value)
    ensures r.Ok? ==> r.value == cwd || (target == Some(r.value) && r.value in fs.dirs)
  {
    match target
    case None => Ok(cwd)
    case Some(p) =>
      if p in fs.dirs then Ok(p)
      else if p in fs.files then Err(NotADirectoryError(p))
      else Ok(cwd)
  }

  /** The commit message a handle is built with unless the caller gives one. */
  const DefaultMessage := "minor changes"

  /** The state of a handle. */
  datatype Fields = Fields(name: Option<string>, dir: string, gitExec: Option<string>, message: string)

  /** The fields `Commands(name, target, gitExec, message)` ends up with when the
      process was in `cwd`, or the exception the constructor lets escape. */
  function Bind(fs: FileSystem, cwd: string, name: Option<string>, target: Option<string>,
                gitExec: Option<string>, message: string): (r: Result<Fields>)
    ensures r.Err? <==> EnterDir(fs, cwd, target).Err?
    ensures r.Ok? ==> r.value.name == name && r.value.gitExec == gitExec && r.value.message == message
    ensures r.Ok? ==> r.value.dir == EnterDir(fs, cwd, target).value
  {
    match EnterDir(fs, cwd, target)
    case Ok(d) => Ok(Fields(name, d, gitExec, message))
    case Err(e) => Err(e)
  }

  /** A handle's directory is the target when that is a directory; a missing or
      `None` target leaves it at the directory the process was already in. */
  lemma BindDirectory(fs: FileSystem, cwd: string, name: Option<string>, target: Option<string>,
                      gitExec: Option<string>, message: string)
    requires target.None? || target.value !in fs.files || target.value in fs.dirs
    ensures Bind(fs, cwd, name, target, gitExec, message).Ok?
    ensures target.Some? && target.value in fs.dirs ==> Bind(fs, cwd, name, target, gitExec, message).value.dir == target.value
    ensures target.None? || target.value !in fs.dirs ==> Bind(fs, cwd, name, target, gitExec, message).value.dir == cwd
  {
  }

  /** Building the same handle again from where the first one left the process
      gives an equal handle. */
  lemma BindAgainIsEqual(fs: FileSystem, cwd: string, name: Option<string>, target: Option<string>,
                         gitExec: Option<string>, message: string)
    requires Bind(fs, cwd, name, target, gitExec, message).Ok?
    ensures var f := Bind(fs, cwd, name, target, gitExec, message).value;
            Bind(fs, f.dir, name, target, gitExec, message) == Ok(f)
  {
  }

  /** `commit`'s choice: the text entered at the prompt, or the handle's message
      when nothing was entered. */
  function CommitMessage(message: string, entered: string): (m: string)
    ensures entered != "" ==> m == entered
    ensures entered == "" ==> m == message
  {
    if entered == "" then message else entered
  }

  /** With the default message, a commit never goes out with an empty message. */
  lemma CommitMessageNeverEmpty(entered: string)
    ensures CommitMessage(DefaultMessage, entered) != ""
  {
  }

  /** `add_all`'s file list: the whitespace-separated tokens joined by "` ". */
  function AddArgument(files: string): string
  {
    JoinWith("` ", SplitWs(files))
  }

  /** Every token but the last followed by a backtick. */
  function Ticked(tokens: seq<string>): (r: seq<string>)
    ensures |r| == |tokens|
    ensures forall k :: 0 <= k < |r| - 1 ==> r[k] == tokens[k] + "`"
    ensures |r| > 0 ==> r[|r| - 1] == tokens[|tokens| - 1]
  {
    if |tokens| <= 1 then tokens else [tokens[0] + "`"] + Ticked(tokens[1..])
  }

  lemma {:induction false} JoinTicked(tokens: seq<string>)
    ensures JoinWith("` ", tokens) == JoinWith(" ", Ticked(tokens))
  {
    if |tokens| > 1 {
      var rest := JoinWith("` ", tokens[1..]);
      JoinTicked(tokens[1..]);
      var ticked := Ticked(tokens);
      assert ticked == [tokens[0] + "`"] + Ticked(tokens[1..]);
      assert ticked[1..] == Ticked(tokens[1..]);
      JoinUnfold("` ", tokens);
      JoinUnfold(" ", ticked);
      assert "` " == "`" + " ";
      assert tokens[0] + ("` " + rest) == (tokens[0] + "`") + (" " + rest);
    }
  }

  /** The file list git receives splits back into the tokens given, each one but
      the last carrying a backtick. */
  lemma AddArgumentTokens(files: string)
    ensures SplitWs(AddArgument(files)) == Ticked(SplitWs(files))
  {
    var tokens := SplitWs(files);
    JoinTicked(tokens);
    var ticked := Ticked(tokens);
    forall k | 0 <= k < |ticked|
      ensures ticked[k] != [] && NoSpace(ticked[k])
    {
      if k < |ticked| - 1 {
        TickedToken(tokens[k]);
      }
    }
    SplitJoinRoundTrip(ticked);
  }

  /** A token with a backtick appended is still a token. */
  lemma TickedToken(token: string)
    requires token != [] && NoSpace(token)
    ensures NoSpace(token + "`")
  {
    var t := token + "`";
    forall i | 0 <= i < |t|
      ensures !IsSpace(t[i])
    {
      if i < |token| {
        assert t[i] == token[i];
      }
    }
  }

  /** The default file list is `.`, so `add_all()` stages everything. */
  lemma AddArgumentDefault()
    ensures "git add " + AddArgument(".") == "git add ."
  {
    assert !IsSpace('.') && NoSpace(".");
    SplitJoinRoundTrip(["."]);
    assert JoinWith(" ", ["."]) == ".";
  }

  /** `push`'s result: "Push completed." then git's output. */
  function PushReport(output: string): string
  {
    "Push completed." + output
  }

  /** `pull`'s result: "Pull completed." and a newline, then git's output. */
  function PullReport(output: string): string
  {
    "Pull completed.\n" + output
  }

  /** Both reports lead with their fixed banner and carry git's output
      unchanged after it, so the output can be read back from the report. */
  lemma ReportsCarryOutput(output: string)
    ensures StartsWith(PushReport(output), "Push completed.")
    ensures PushReport(output)[|"Push completed."|..] == output
    ensures StartsWith(PullReport(output), "Pull completed.\n")
    ensures PullReport(output)[|"Pull completed.\n"|..] == output
  {
  }

  /** Python's `"{}".format(x)` for a name that may be `None`. */
  function Show(name: Option<string>): string
  {
    if name.Some? then name.value else "None"
  }

  /** A handle on one repository (pygit/commands.py `Commands`). Its attributes
      are set by `__init__` and never reassigned, so they are constants here. */
  class Commands {
    const name: Option<string>
    const dir: string
    const gitExec: Option<string>
    const message: string

    function State(): Fields
    {
      Fields(name, dir, gitExec, message)
    }

    /** `__init__`: record the arguments, enter the directory and keep the
        directory the process is in afterwards. */
    constructor (env: Env, repoName: Option<string>, repoDir: Option<string>, gitExec: Option<string>, message: string)
      requires EnterDir(env.fs, env.cwd, repoDir).Ok?
      modifies env
      ensures Ok(State()) == Bind(env.fs, old(env.cwd), repoName, repoDir, gitExec, message)
      ensures env.cwd == dir
      ensures env.calls == old(env.calls)
    {
      var _ := env.ChangeDir(repoDir);
      name := repoName;
      dir := env.cwd;
      this.gitExec := gitExec;
      this.message := message;
    }

    /** `__eq__`: two handles are equal when all their fields are. */
    predicate Equals(other: Commands)
      ensures Equals(other) <==> name == other.name && dir == other.dir && gitExec == other.gitExec && message == other.message
    {
      State() == other.State()
    }

    /** `__str__` in pygit/commands.py: the name, ": ", then the directory. */
    function ToString(): (r: string)
      ensures StartsWith(r, Show(name) + ": ") && r[|Show(name) + ": "|..] == dir
    {
      Show(name) + ": " + dir
    }

    /** `__str__` in pygit/pygit.py: the same behind a "Commands: " prefix. */
    function ScriptToString(): (r: string)
      ensures StartsWith(r, "Commands: ") && r[|"Commands: "|..] == ToString()
    {
      "Commands: " + ToString()
    }

    method Fetch(env: Env)
      modifies env
      ensures env.cwd == old(env.cwd)
      ensures env.calls == old(env.calls) + [GitCall(env.cwd, gitExec, ["git fetch"])]
    {
      var _ := env.Run(gitExec, ["git fetch"]);
    }

    /** `status`: always a fetch first, then `git status`, whose output it returns. */
    method Status(env: Env) returns (output: string)
      modifies env
      ensures env.cwd == old(env.cwd)
      ensures env.calls == old(env.calls) + [GitCall(env.cwd, gitExec, ["git fetch"]), GitCall(env.cwd, gitExec, ["git status"])]
      ensures output == env.git(old(env.calls) + [GitCall(env.cwd, gitExec, ["git fetch"])],
                                GitCall(env.cwd, gitExec, ["git status"]))
    {
      Fetch(env);
      output := env.Run(gitExec, ["git status"]);
    }

    method AddAll(env: Env, files: string) returns (output: string)
      modifies env
      ensures env.cwd == old(env.cwd)
      ensures env.calls == old(env.calls) + [GitCall(env.cwd, gitExec, ["git add " + AddArgument(files)])]
      ensures output == env.git(old(env.calls), env.calls[|env.calls| - 1])
    {
      output := env.Run(gitExec, ["git add " + AddArgument(files)]);
    }

    /** `commit`, given the text entered at the prompt. */
    method Commit(env: Env, entered: string) returns (output: string)
      modifies env
      ensures env.cwd == old(env.cwd)
      ensures env.calls == old(env.calls) + [GitCall(env.cwd, gitExec, ["git", "commit", "-m", CommitMessage(message, entered)])]
      ensures output == env.git(old(env.calls), env.calls[|env.calls| - 1])
    {
      output := env.Run(gitExec, ["git", "commit", "-m", CommitMessage(message, entered)]);
    }

    /** `add_commit`: stage everything, then commit; both outputs are dropped. */
    method AddCommit(env: Env, entered: string)
      modifies env
      ensures env.cwd == old(env.cwd)
      ensures env.calls == old(env.calls) + [GitCall(env.cwd, gitExec, ["git add ."]),
                                            GitCall(env.cwd, gitExec, ["git", "commit", "-m", CommitMessage(message, entered)])]
    {
      AddArgumentDefault();
      var _ := AddAll(env, ".");
      var _ := Commit(env, entered);
    }

    method Push(env: Env) returns (report: string)
      modifies env
      ensures env.cwd == old(env.cwd)
      ensures env.calls == old(env.calls) + [GitCall(env.cwd, gitExec, ["git push"])]
      ensures report == PushReport(env.git(old(env.calls), env.calls[|env.calls| - 1]))
    {
      var output := env.Run(gitExec, ["git push"]);
      report := PushReport(output);
    }

    method Pull(env: Env) returns (report: string)
      modifies env
      ensures env.cwd == old(env.cwd)
      ensures env.calls == old(env.calls) + [GitCall(env.cwd, gitExec, ["git pull"])]
      ensures report == PullReport(env.git(old(env.calls), env.calls[|env.calls| - 1]))
    {
      var output := env.Run(gitExec, ["git pull"]);
      report := PullReport(output);
    }

    /** `reset(number)`; the source's default number is "1". */
    method Reset(env: Env, number: string) returns (output: string)
      modifies env
      ensures env.cwd == old(env.cwd)
      ensures env.calls == old(env.calls) + [GitCall(env.cwd, gitExec, ["git reset HEAD~", number])]
      ensures output == env.git(old(env.calls), env.calls[|env.calls| - 1])
    {
      output := env.Run(gitExec, ["git reset HEAD~", number]);
    }
  }

  /** A handle, or the exception its constructor raises. */
  method Open(env: Env, repoName: Option<string>, repoDir: Option<string>, gitExec: Option<string>, message: string)
    returns (r: Result<Commands>)
    modifies env
    ensures var b := Bind(env.fs, old(env.cwd), repoName, repoDir, gitExec, message);
            && (b.Err? ==> r == Err(b.error) && env.cwd == old(env.cwd))
            && (b.Ok? ==> r.Ok? && fresh(r.value) && r.value.State() == b.value && env.cwd == b.value.dir)
    ensures env.calls == old(env.calls)
  {
    var entered := EnterDir(env.fs, env.cwd, repoDir);
    if entered.Err? {
      r := Err(entered.error);
    } else {
      var c := new Commands(env, repoName, repoDir, gitExec, message);
      r := Ok(c);
    }
  }
}
