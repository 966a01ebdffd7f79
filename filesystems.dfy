/** The filesystem snapshot the registration passes look at, and the three ways
    the source inspects it: `os.listdir`, "is this a git repository" and `os.walk`. */
module FileSystems {
  import opened Results
  import opened Strings

  /** A snapshot: every directory with its entry names in listing order, and the
      paths that exist but are not directories. */
  datatype FileSystem = FileSystem(dirs: map<string, seq<string>>, files: set<string>)

  /** `sys.platform` as the source distinguishes it. */
  datatype Platform = Linux | Win32 | OtherPlatform

  /** The separator `os.path.join` and `pathlib` put between a directory and an entry. */
  function Separator(p: Platform): char
  {
    if p == Win32 then '\\' else '/'
  }

  /** The path of `entry` inside `dir`. */
  function ChildPath(dir: string, entry: string, sep: char): string
  {
    dir + [sep] + entry
  }

  /** `os.listdir(d)`: the entry names, or the error it raises. */
  function ListDir(fs: FileSystem, d: string): (r: Result<seq<string>>)
    ensures r.Ok? <==> d in fs.dirs
    ensures r.Ok? ==> r.value == fs.dirs[d]
    ensures r.Err? && d in fs.files ==> r.error == NotADirectoryError(d)
    ensures r.Err? && d !in fs.files ==> r.error == FileNotFoundError(d)
  {
    if d in fs.dirs then Ok(fs.dirs[d])
    else if d in fs.files then Err(NotADirectoryError(d))
    else Err(FileNotFoundError(d))
  }

  /** `is_git_repo(d)`: `'.git' in os.listdir(d)`. */
  function IsGitRepo(fs: FileSystem, d: string): (r: Result<bool>)
  {
    match ListDir(fs, d)
    case Ok(entries) => Ok(".git" in entries)
    case Err(e) => Err(e)
  }

  /** A directory is a repository exactly when `.git` is one of its entries;
      a path that is not a directory makes the check raise. */
  lemma IsGitRepoExactly(fs: FileSystem, d: string)
    ensures d in fs.dirs ==> IsGitRepo(fs, d) == Ok(".git" in fs.dirs[d])
    ensures d !in fs.dirs ==> IsGitRepo(fs, d).Err?
  {
  }

  /** Only the presence of `.git` matters: two directories whose listings agree on
      it are classified alike, whatever else they hold. */
  lemma IsGitRepoIgnoresOtherEntries(fs1: FileSystem, d1: string, fs2: FileSystem, d2: string)
    requires d1 in fs1.dirs && d2 in fs2.dirs
    requires (".git" in fs1.dirs[d1]) == (".git" in fs2.dirs[d2])
    ensures IsGitRepo(fs1, d1) == IsGitRepo(fs2, d2)
  {
  }

  /** The entries of `names` that are directories inside `dir`, in order
      (the `isdir` filter over a listing). */
  function SubdirNames(fs: FileSystem, dir: string, names: seq<string>, sep: char): (r: seq<string>)
    ensures forall k :: 0 <= k < |r| ==> r[k] in names && ChildPath(dir, r[k], sep) in fs.dirs
    ensures forall n :: n in names && ChildPath(dir, n, sep) in fs.dirs ==> n in r
  {
    if names == [] then []
    else
      var rest := SubdirNames(fs, dir, names[1..], sep);
      if ChildPath(dir, names[0], sep) in fs.dirs then [names[0]] + rest else rest
  }

  /** The directories at least as long as `d`: it shrinks at each step down the tree. */
  function LongerDirs(fs: FileSystem, d: string): set<string>
  {
    set k | k in fs.dirs && |k| >= |d|
  }

  /** The directories `os.walk(top)` visits, in its (top-down, listing) order.
      A `top` that cannot be listed yields nothing, as `os.walk` does. */
  function Walk(fs: FileSystem, top: string, sep: char): (r: seq<string>)
    ensures forall k :: 0 <= k < |r| ==> r[k] in fs.dirs && top <= r[k]
    ensures top in fs.dirs ==> |r| > 0 && r[0] == top
    ensures top !in fs.dirs ==> r == []
    decreases LongerDirs(fs, top), 1, 0
  {
    if top !in fs.dirs then []
    else [top] + WalkAll(fs, top, SubdirNames(fs, top, fs.dirs[top], sep), sep)
  }

  /** The walks of the subdirectories `names` of `top`, one after the other. */
  function WalkAll(fs: FileSystem, top: string, names: seq<string>, sep: char): (r: seq<string>)
    requires top in fs.dirs
    ensures forall k :: 0 <= k < |r| ==> r[k] in fs.dirs && top <= r[k]
    decreases LongerDirs(fs, top), 0, |names|
  {
    if names == [] then []
    else
      var child := ChildPath(top, names[0], sep);
      assert top in LongerDirs(fs, top) && top !in LongerDirs(fs, child);
      var first := Walk(fs, child, sep);
      assert forall k :: 0 <= k < |first| ==> top <= child <= first[k];
      first + WalkAll(fs, top, names[1..], sep)
  }

  /** `os.walk` misses no directory below one it visits: every subdirectory
      listed in a visited directory is visited too, so the walk reaches every
      directory at any depth below `top`. */
  lemma {:induction false} WalkClosed(fs: FileSystem, top: string, sep: char, d: string, n: string)
    requires d in Walk(fs, top, sep) && d in fs.dirs && n in fs.dirs[d] && ChildPath(d, n, sep) in fs.dirs
    ensures ChildPath(d, n, sep) in Walk(fs, top, sep)
    decreases LongerDirs(fs, top), 1
  {
    var names := SubdirNames(fs, top, fs.dirs[top], sep);
    if d == top {
      WalkAllHasChild(fs, top, names, sep, n);
    } else {
      WalkAllClosed(fs, top, names, sep, d, n);
    }
  }

  /** The walks of `names` start with each of those subdirectories. */
  lemma {:induction false} WalkAllHasChild(fs: FileSystem, top: string, names: seq<string>, sep: char, n: string)
    requires top in fs.dirs && n in names && ChildPath(top, n, sep) in fs.dirs
    ensures ChildPath(top, n, sep) in WalkAll(fs, top, names, sep)
    decreases |names|
  {
    var first := Walk(fs, ChildPath(top, names[0], sep), sep);
    assert WalkAll(fs, top, names, sep) == first + WalkAll(fs, top, names[1..], sep);
    if names[0] == n {
      assert first[0] == ChildPath(top, n, sep);
    } else {
      WalkAllHasChild(fs, top, names[1..], sep, n);
    }
  }

  lemma {:induction false} WalkAllClosed(fs: FileSystem, top: string, names: seq<string>, sep: char, d: string, n: string)
    requires top in fs.dirs && d in WalkAll(fs, top, names, sep) && d in fs.dirs
    requires n in fs.dirs[d] && ChildPath(d, n, sep) in fs.dirs
    ensures ChildPath(d, n, sep) in WalkAll(fs, top, names, sep)
    decreases LongerDirs(fs, top), 0, |names|
  {
    var child := ChildPath(top, names[0], sep);
    assert top in LongerDirs(fs, top) && top !in LongerDirs(fs, child);
    var first := Walk(fs, child, sep);
    assert WalkAll(fs, top, names, sep) == first + WalkAll(fs, top, names[1..], sep);
    if d in first {
      WalkClosed(fs, child, sep, d, n);
    } else {
      WalkAllClosed(fs, top, names[1..], sep, d, n);
    }
  }
}
