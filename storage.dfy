/** The earlier registry of pygit/main.py: one shelf holding a `last_index`
    counter and, under each id str(n) from 0 on, the pair [name, path] of a
    repository. Registration walks a master directory at every depth and then
    appends single directories, each repository found taking the next id. */
module Storage {
  import opened Results
  import opened Strings
  import opened FileSystems
  import opened Registry

  /** What the shelf holds under a key: the counter as text, the git-support
      flag, or a repository's [name, path]. */
  datatype Stored = Text(text: string) | Flag(flag: bool) | Pair(name: string, path: string)

  const LastIndexKey := "last_index"

  /** `storage[str(last_index)] = [name, path]; last_index += 1` over the repositories found, from `start`. */
  function Store(data: map<string, Stored>, start: nat, repos: seq<Repo>): map<string, Stored>
  {
    if repos == [] then data
    else Store(data, start, repos[..|repos| - 1])[NatToString(start + |repos| - 1) := Pair(repos[|repos| - 1].name, repos[|repos| - 1].path)]
  }

  lemma StoreSnoc(data: map<string, Stored>, start: nat, repos: seq<Repo>, r: Repo)
    ensures Store(data, start, repos + [r]) == Store(data, start, repos)[NatToString(start + |repos|) := Pair(r.name, r.path)]
  {
    assert (repos + [r])[..|repos|] == repos;
  }

  /** The i-th repository found is stored under str(start + i) as its [name, path]. */
  lemma {:induction false} StoreGivesIds(data: map<string, Stored>, start: nat, repos: seq<Repo>, i: nat)
    requires i < |repos|
    ensures NatToString(start + i) in Store(data, start, repos)
    ensures Store(data, start, repos)[NatToString(start + i)] == Pair(repos[i].name, repos[i].path)
  {
    var n := |repos|;
    var init := repos[..n - 1];
    assert repos == init + [repos[n - 1]];
    StoreSnoc(data, start, init, repos[n - 1]);
    if i < n - 1 {
      StoreGivesIds(data, start, init, i);
      assert init[i] == repos[i];
      NatToStringDiffers(start + i, start + n - 1);
    }
  }

  /** A key that is not all digits is none of the ids handed out, so a pass keeps
      what it held: the counter and the git entries survive. */
  lemma {:induction false} StoreKeepsOthers(data: map<string, Stored>, start: nat, repos: seq<Repo>, key: string)
    requires !AllDigits(key)
    ensures key in Store(data, start, repos) <==> key in data
    ensures key in data ==> Store(data, start, repos)[key] == data[key]
  {
    if repos != [] {
      StoreKeepsOthers(data, start, repos[..|repos| - 1], key);
      assert NatToString(start + |repos| - 1) != key;
    }
  }

  /** The counter's key is not all digits, so no id is ever the counter's key. */
  lemma CounterKeyIsNoId()
    ensures !AllDigits(LastIndexKey)
  {
    assert !IsDigit(LastIndexKey[0]);
  }

  /** ... so storing repositories leaves the counter as it was. */
  lemma StoreKeepsCounter(data: map<string, Stored>, start: nat, repos: seq<Repo>)
    ensures LastIndexKey in Store(data, start, repos) <==> LastIndexKey in data
    ensures LastIndexKey in data ==> Store(data, start, repos)[LastIndexKey] == data[LastIndexKey]
  {
    CounterKeyIsNoId();
    StoreKeepsOthers(data, start, repos, LastIndexKey);
  }

  /** The directories the master pass looks at: every directory `os.walk` visits
      under the master, the master itself first. */
  function MasterCandidates(fs: FileSystem, platform: Platform, master: string): (r: seq<string>)
    ensures forall k :: 0 <= k < |r| ==> r[k] in fs.dirs && master <= r[k]
    ensures master in fs.dirs ==> |r| > 0 && r[0] == master
    ensures forall d, n :: d in r && d in fs.dirs && n in fs.dirs[d] && ChildPath(d, n, Separator(platform)) in fs.dirs
              ==> ChildPath(d, n, Separator(platform)) in r
  {
    var sep := Separator(platform);
    assert forall d, n :: d in Walk(fs, master, sep) && d in fs.dirs && n in fs.dirs[d] && ChildPath(d, n, sep) in fs.dirs
              ==> ChildPath(d, n, sep) in Walk(fs, master, sep) by {
      forall d, n | d in Walk(fs, master, sep) && d in fs.dirs && n in fs.dirs[d] && ChildPath(d, n, sep) in fs.dirs
        ensures ChildPath(d, n, sep) in Walk(fs, master, sep)
      {
        WalkClosed(fs, master, sep, d, n);
      }
    }
    Walk(fs, master, sep)
  }

  /** The master pass of `initialize`: no master (or an empty one) scans nothing;
      otherwise each walked directory is a candidate, named by its last segment. */
  function StorageMasterPass(fs: FileSystem, platform: Platform, master: Option<string>): Scan
  {
    if master.None? || master.value == "" then Scan([], None)
    else Collect(SimpleVerdicts(fs, platform, MasterCandidates(fs, platform, master.value)))
  }

  /** The simple pass of `initialize`. */
  function StorageSimplePass(fs: FileSystem, platform: Platform, dirs: Option<seq<string>>): Scan
  {
    if dirs.None? || dirs.value == [] then Scan([], None)
    else Collect(SimpleVerdicts(fs, platform, dirs.value))
  }

  /** The master pass finds exactly the repositories among the walked directories,
      in walking order, each named by the last segment of its path. */
  lemma {:induction false} WalkFindsRepos(fs: FileSystem, platform: Platform, dirs: seq<string>)
    requires platform != OtherPlatform
    requires forall k :: 0 <= k < |dirs| ==> dirs[k] in fs.dirs
    ensures var s := Collect(SimpleVerdicts(fs, platform, dirs));
            && s.error.None?
            && s.repos == FoundRepos(fs, platform, dirs)
  {
    if dirs != [] {
      var n := |dirs|;
      var init, last := dirs[..n - 1], dirs[n - 1];
      var vs := SimpleVerdicts(fs, platform, dirs);
      WalkFindsRepos(fs, platform, init);
      SimpleVerdictsPrefix(fs, platform, dirs);
      AdmitListed(fs, platform, last);
    }
  }

  lemma SimpleVerdictsPrefix(fs: FileSystem, platform: Platform, dirs: seq<string>)
    requires dirs != []
    ensures SimpleVerdicts(fs, platform, dirs)[..|dirs| - 1] == SimpleVerdicts(fs, platform, dirs[..|dirs| - 1])
  {
  }

  /** A listed directory is admitted, under the last segment of its path, exactly
      when it holds ".git". */
  lemma AdmitListed(fs: FileSystem, platform: Platform, d: string)
    requires platform != OtherPlatform && d in fs.dirs
    ensures Admit(fs, platform, d, None)
         == if ".git" in fs.dirs[d] then Accept(Repo(LastSegment(d, Separator(platform)), d)) else Skip
  {
    assert ListDir(fs, d) == Ok(fs.dirs[d]);
    assert IsGitRepo(fs, d) == Ok(".git" in fs.dirs[d]);
    assert RepoName(platform, d, None) == Some(LastSegment(d, Separator(platform)));
  }

  /** The repositories among `dirs`, in order, each named by the last segment of its path. */
  function FoundRepos(fs: FileSystem, platform: Platform, dirs: seq<string>): (r: seq<Repo>)
    requires platform != OtherPlatform
    requires forall k :: 0 <= k < |dirs| ==> dirs[k] in fs.dirs
    ensures |r| <= |dirs|
  {
    if dirs == [] then []
    else
      var last := dirs[|dirs| - 1];
      FoundRepos(fs, platform, dirs[..|dirs| - 1])
      + (if ".git" in fs.dirs[last] then [Repo(LastSegment(last, Separator(platform)), last)] else [])
  }

  /** Each repository found is one of the directories, holds ".git", and is named
      by the last segment of its path. */
  lemma {:induction false} FoundReposAreRepos(fs: FileSystem, platform: Platform, dirs: seq<string>, k: nat)
    requires platform != OtherPlatform
    requires forall i :: 0 <= i < |dirs| ==> dirs[i] in fs.dirs
    requires k < |FoundRepos(fs, platform, dirs)|
    ensures var r := FoundRepos(fs, platform, dirs)[k];
            r.path in dirs && ".git" in fs.dirs[r.path] && r.name == LastSegment(r.path, Separator(platform))
  {
    var n := |dirs|;
    var init := dirs[..n - 1];
    var found := FoundRepos(fs, platform, init);
    if k < |found| {
      FoundReposAreRepos(fs, platform, init, k);
      assert FoundRepos(fs, platform, dirs)[k] == found[k];
    }
  }

  /** The one `storage` shelf. `count` is the value its counter text stands for. */
  class Shelf {
    var data: map<string, Stored>
    ghost var count: nat

    /** The counter is stored as the decimal text of a natural number. */
    ghost predicate Valid()
      reads this
    {
      LastIndexKey in data && data[LastIndexKey] == Text(NatToString(count))
    }

    /** `int(storage['last_index'])`: the counter text reads back as the number it stands for. */
    method LastIndex() returns (n: int)
      requires Valid()
      ensures n == count
    {
      ParseIntOfNatToString(count);
      n := ParseInt(data[LastIndexKey].text).value;
    }

    /** `initialize` removes and recreates the storage directory and sets the counter to "0". */
    constructor ()
      ensures data == map[LastIndexKey := Text("0")]
      ensures Valid() && count == 0
    {
      data := map[LastIndexKey := Text("0")];
      count := 0;
      new;
      assert NatToString(0) == "0";
    }

    /** `storage['last_index'] = str(n)`. */
    method SetCounter(n: nat)
      modifies this
      ensures data == old(data)[LastIndexKey := Text(NatToString(n))] && count == n
      ensures Valid()
    {
      data := data[LastIndexKey := Text(NatToString(n))];
      count := n;
    }

    /** The loop both passes share: each repository found is stored under the next
        id and the counter is written back once the loop ends; a failure ends the
        pass with the ids already written kept and the counter as it was. */
    method StoreVerdicts(vs: seq<Verdict>) returns (error: Option<Error>)
      requires Valid()
      modifies this
      ensures var scan := Collect(vs);
              && error == scan.error
              && (scan.error.Some? ==> data == Store(old(data), old(count), scan.repos) && count == old(count))
              && (scan.error.None? ==>
                    && count == old(count) + |scan.repos|
                    && data == Store(old(data), old(count), scan.repos)[LastIndexKey := Text(NatToString(count))])
      ensures Valid()
    {
      ghost var data0 := data;
      var start := LastIndex();
      var last;
      error, last := StoreEach(vs, start);
      StoreKeepsCounter(data0, count, Collect(vs).repos);
      if error.None? {
        SetCounter(last);
      }
    }

    /** The loop itself: the repositories found are stored under consecutive ids
        from `start`, the counter's value; the counter is left as it was. */
    method StoreEach(vs: seq<Verdict>, start: nat) returns (error: Option<Error>, last: nat)
      requires start == count
      modifies this
      ensures var scan := Collect(vs);
              && error == scan.error
              && data == Store(old(data), old(count), scan.repos)
              && last == old(count) + |scan.repos|
      ensures count == old(count)
    {
      ghost var data0 := data;
      ghost var repos: seq<Repo> := [];
      last := start;
      var k := 0;
      while k < |vs|
        invariant 0 <= k <= |vs|
        invariant Collect(vs[..k]) == Scan(repos, None)
        invariant data == Store(data0, start, repos)
        invariant last == start + |repos| && count == start
      {
        match vs[k] {
          case Fail(e) =>
            StepFail(vs, k, repos, e);
            return Some(e), last;
          case Skip =>
            StepSkip(vs, k, repos);
          case Accept(r) =>
            StepAccept(vs, k, repos, r);
            StoreSnoc(data0, start, repos, r);
            data := data[NatToString(last) := Pair(r.name, r.path)];
            last := last + 1;
            repos := repos + [r];
        }
        k := k + 1;
      }
      assert vs[..k] == vs;
      return None, last;
    }

    /** The master pass: every directory under the master, the master included, is
        examined; each repository is stored under the next id. */
    method ScanMaster(fs: FileSystem, platform: Platform, master: Option<string>) returns (error: Option<Error>)
      requires Valid()
      modifies this
      ensures var scan := StorageMasterPass(fs, platform, master);
              && error == scan.error
              && (scan.error.Some? ==> data == Store(old(data), old(count), scan.repos) && count == old(count))
              && (scan.error.None? && (master.None? || master.value == "") ==> data == old(data) && count == old(count))
              && (scan.error.None? && master.Some? && master.value != "" ==>
                    && count == old(count) + |scan.repos|
                    && data == Store(old(data), old(count), scan.repos)[LastIndexKey := Text(NatToString(count))])
      ensures Valid()
    {
      if master.None? || master.value == "" {
        return None;
      }
      error := StoreVerdicts(SimpleVerdicts(fs, platform, MasterCandidates(fs, platform, master.value)));
    }

    /** The simple pass: a directory that is not a repository is skipped without
        taking an id; one that cannot be listed ends the pass. */
    method AddSimple(fs: FileSystem, platform: Platform, dirs: Option<seq<string>>) returns (error: Option<Error>)
      requires Valid()
      modifies this
      ensures var scan := StorageSimplePass(fs, platform, dirs);
              && error == scan.error
              && (scan.error.Some? ==> data == Store(old(data), old(count), scan.repos) && count == old(count))
              && (scan.error.None? && (dirs.None? || dirs.value == []) ==> data == old(data) && count == old(count))
              && (scan.error.None? && dirs.Some? && dirs.value != [] ==>
                    && count == old(count) + |scan.repos|
                    && data == Store(old(data), old(count), scan.repos)[LastIndexKey := Text(NatToString(count))])
      ensures Valid()
    {
      if dirs.None? || dirs.value == [] {
        return None;
      }
      error := StoreVerdicts(SimpleVerdicts(fs, platform, dirs.value));
    }
  }

  /** The master pass never fails on a platform with a separator: it finds exactly
      the repositories among the walked directories, in walking order, each named
      by the last segment of its path. */
  lemma MasterPassFindsRepos(fs: FileSystem, platform: Platform, master: string)
    requires platform != OtherPlatform && master != ""
    ensures StorageMasterPass(fs, platform, Some(master)) == Scan(FoundRepos(fs, platform, MasterCandidates(fs, platform, master)), None)
  {
    WalkFindsRepos(fs, platform, MasterCandidates(fs, platform, master));
  }

  /** Every directory among `dirs` that holds ".git" is found, named by its last segment. */
  lemma {:induction false} FoundReposHas(fs: FileSystem, platform: Platform, dirs: seq<string>, d: string)
    requires platform != OtherPlatform
    requires forall k :: 0 <= k < |dirs| ==> dirs[k] in fs.dirs
    requires d in dirs && ".git" in fs.dirs[d]
    ensures Repo(LastSegment(d, Separator(platform)), d) in FoundRepos(fs, platform, dirs)
  {
    var n := |dirs|;
    var init := dirs[..n - 1];
    if d != dirs[n - 1] {
      assert dirs == init + [dirs[n - 1]];
      FoundReposHas(fs, platform, init, d);
    }
  }

  /** ... so the master pass finds every repository nested below the master at any
      depth, as long as each directory on the way down is listed in its parent. */
  lemma MasterPassFindsNested(fs: FileSystem, platform: Platform, master: string, d: string, n: string)
    requires platform != OtherPlatform && master != ""
    requires d in MasterCandidates(fs, platform, master) && d in fs.dirs && n in fs.dirs[d]
    requires ChildPath(d, n, Separator(platform)) in fs.dirs && ".git" in fs.dirs[ChildPath(d, n, Separator(platform))]
    ensures var child := ChildPath(d, n, Separator(platform));
            Repo(LastSegment(child, Separator(platform)), child) in StorageMasterPass(fs, platform, Some(master)).repos
  {
    var cands := MasterCandidates(fs, platform, master);
    MasterPassFindsRepos(fs, platform, master);
    FoundReposHas(fs, platform, cands, ChildPath(d, n, Separator(platform)));
  }

  /** The shelf's data after a pass over `scan` that started with the counter at
      `start`: the repositories stored from `start` on and, unless the pass raised,
      the counter written back. */
  function Passed(data: map<string, Stored>, start: nat, scan: Scan): map<string, Stored>
  {
    if scan.error.Some? then Store(data, start, scan.repos)
    else Store(data, start, scan.repos)[LastIndexKey := Text(NatToString(start + |scan.repos|))]
  }

  /** The shelf `initialize` starts from. */
  const FreshData: map<string, Stored> := map[LastIndexKey := Text("0")]

  /** Store writes only ids from `start` on, so lower ids keep their values. */
  lemma {:induction false} StoreKeepsLowerIds(data: map<string, Stored>, start: nat, repos: seq<Repo>, j: nat)
    requires j < start
    ensures NatToString(j) in Store(data, start, repos) <==> NatToString(j) in data
    ensures NatToString(j) in data ==> Store(data, start, repos)[NatToString(j)] == data[NatToString(j)]
  {
    if repos != [] {
      StoreKeepsLowerIds(data, start, repos[..|repos| - 1], j);
      NatToStringDiffers(j, start + |repos| - 1);
    }
  }

  /** After the two passes of `initialize`, the i-th repository found (the master
      pass's first, then the simple pass's) is stored under str(i), from 0 on;
      this holds for the ids written before a failure of the simple pass too. */
  lemma StoredPairs(scanned: seq<Repo>, appended: Scan, i: nat)
    requires i < |scanned| + |appended.repos|
    ensures var data := Passed(Passed(FreshData, 0, Scan(scanned, None)), |scanned|, appended);
            var r := (scanned + appended.repos)[i];
            NatToString(i) in data && data[NatToString(i)] == Pair(r.name, r.path)
  {
    var data1 := Passed(FreshData, 0, Scan(scanned, None));
    var stored := Store(data1, |scanned|, appended.repos);
    assert NatToString(i) != LastIndexKey by {
      CounterKeyIsNoId();
    }
    if i < |scanned| {
      StoreGivesIds(FreshData, 0, scanned, i);
      StoreKeepsLowerIds(data1, |scanned|, appended.repos, i);
    } else {
      StoreGivesIds(data1, |scanned|, appended.repos, i - |scanned|);
    }
  }

  /** `initialize` in pygit/main.py: a fresh shelf with the counter at "0", the
      master pass, then the simple pass continuing the numbering where the master
      pass left it. An exception in the master pass ends the run. */
  method InitializeStorage(fs: FileSystem, platform: Platform, master: Option<string>, simple: Option<seq<string>>)
    returns (shelf: Shelf, error: Option<Error>)
    ensures fresh(shelf) && shelf.Valid()
    ensures var scanned := StorageMasterPass(fs, platform, master);
            var appended := StorageSimplePass(fs, platform, simple);
            var afterScan := Passed(FreshData, 0, scanned);
            && (scanned.error.Some? ==> error == scanned.error && shelf.count == 0 && shelf.data == afterScan)
            && (scanned.error.None? ==> error == appended.error && shelf.data == Passed(afterScan, |scanned.repos|, appended))
            && (scanned.error.None? && appended.error.Some? ==> shelf.count == |scanned.repos|)
            && (scanned.error.None? && appended.error.None? ==> shelf.count == |scanned.repos| + |appended.repos|)
  {
    shelf := new Shelf();
    assert NatToString(0) == "0";
    error := shelf.ScanMaster(fs, platform, master);
    ghost var data1 := shelf.data;
    if error.Some? {
      return;
    }
    assert data1 == Passed(FreshData, 0, StorageMasterPass(fs, platform, master)) by {
      if master.None? || master.value == "" {
        assert FreshData[LastIndexKey := Text(NatToString(0))] == FreshData;
      }
    }
    error := shelf.AddSimple(fs, platform, simple);
    assert shelf.data == Passed(data1, |StorageMasterPass(fs, platform, master).repos|, StorageSimplePass(fs, platform, simple)) by {
      if simple.None? || simple.value == [] {
        assert data1[LastIndexKey := data1[LastIndexKey]] == data1;
      }
    }
  }
}
