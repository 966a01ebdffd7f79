# pygit registry model

pygit keeps a registry of local git repositories so that git commands can be run on
several of them at once. This project models that registry and the logic around it,
in each of the variants the repository carries:

- **Registration** (pygit/pygit.py, build/lib/pygit/initialize.py).
  - There are two shelves: `INDEX_SHELF`, mapping id to name, and `NAME_SHELF`, mapping name to path.
  - They are filled by a scan of a master directory, with exclusion and rule filters, and then by an append of single directories.
  - Each accepted repository takes the next consecutive decimal id. Rejected folders take none (module `Registry`, class `Registry.Shelves`).
- **The storage shelf** of pygit/main.py.
  - It holds a `last_index` counter and, from id 0 on, the `[name, path]` pair of every repository found.
  - Registration walks the master directory at every depth (module `Storage`, class `Storage.Shelf`).
- **Lookup and batch loading** (`load`, `load_multiple`).
  - A string `int()` accepts is looked up as an id; anything else is looked up as a name.
  - The batch runs `pull`, `push` and `all_status` are built on the loader (module `Loading`).
- **The JSON-file registry** of pygit/api.py, pygit/utils.py and pygit/gitty.py.
  - Discovery: repositories and git executables.
  - The name-to-path and id-to-name dicts, and `set_all`'s regeneration choice.
  - `load`, whose `dict.get` lookups yield `None` instead of raising.
  - `load_set`, `load_all` and `status_all` (modules `ApiStore` and `ApiRuns`).
- **The "needs attention" classifiers**, one marker list per variant (module `Attention`).
- **The status reports** built from the flagged names (module `Reports`).
- **The per-repository handle `Commands`** (pygit/commands.py, module `Handle`).
  - Its constructor's working-directory fallback.
  - The git calls of its methods, and `add_all`'s argument string.
  - `commit`'s message choice and the push/pull result prefixes.

The filesystem is a snapshot: a map from each directory to its entry names, in listing
order, plus the set of paths that are plain files. The process is an `Env` object. It holds:

- the working directory;
- a log of the git calls made;
- git itself, as an oracle that answers each call from the calls made before it.

git's output is therefore an uninterpreted string. The Python exceptions that reach a
caller are values of `Results.Error`. The shelves and JSON files are in-memory maps.

## Model

| member | source | states |
|---|---|---|
| Attention.NeedsAttention | pygit/pygit.py:63-68 | a status is flagged exactly when some entry of the marker list is a substring of it |
| Attention.ScriptNeedsAttention | pygit/pygit.py:63-68 | flagged iff the text contains "not staged", "behind", "ahead" or "Untracked" |
| Attention.PackageNeedsAttention | build/lib/pygit/initialize.py:106-111 | flagged iff the text contains "not staged", "behind", "ahead" or "Untracked" |
| Attention.StorageNeedsAttention | pygit/main.py:70-75 | flagged iff the text contains "staged", "behind" or "ahead" |
| Attention.UtilsNeedsAttention | pygit/utils.py:19-24 | flagged iff the text contains "Changes not staged for commit", "Your branch is behind" or "Your branch is ahead" |
| Attention.GittyNeedsAttention | pygit/gitty.py:40-45 | flagged iff the text contains "not staged", "is behind" or "is ahead" |
| Attention.PackageAgreesWithScript | build/lib/pygit/initialize.py:106-111 | the packaged classifier and the script's agree on every text |
| Attention.UtilsFlagsImplyScriptFlags | pygit/utils.py:19-24 | every text the utilities classifier flags is flagged by the script's |
| Attention.GittyFlagsImplyScriptFlags | pygit/gitty.py:40-45 | every text the gitty classifier flags is flagged by the script's |
| Attention.ScriptFlagsImplyStorageFlags | pygit/main.py:70-75 | a text the script flags is flagged by pygit/main.py too, unless it was flagged for "Untracked" alone |
| Attention.UntrackedFlaggedByScript | pygit/pygit.py:65 | a status reporting only untracked files is flagged by the script and by the package |
| Attention.UntrackedNotFlaggedByStorage | pygit/main.py:72 | ... but not by pygit/main.py |
| Attention.UntrackedNotFlaggedByUtils | pygit/utils.py:21 | ... nor by pygit/utils.py |
| Attention.UntrackedNotFlaggedByGitty | pygit/gitty.py:42 | ... nor by pygit/gitty.py |
| Attention.CleanStatusNotFlaggedByScript | pygit/pygit.py:63-68 | the clean "nothing to commit, working tree clean" status is not flagged |
| Attention.CleanStatusNotFlaggedByStorage | pygit/main.py:70-75 | the clean status is not flagged |
| Attention.CleanStatusNotFlaggedByUtils | pygit/utils.py:19-24 | the clean status is not flagged |
| Attention.CleanStatusNotFlaggedByGitty | pygit/gitty.py:40-45 | the clean status is not flagged |
| Strings.ContainsAny | pygit/pygit.py:66 | `any([each in s for each in subs])` is true iff some listed string occurs in `s` |
| Strings.LastSegment | pygit/pygit.py:199-201 | `s.split(sep)[-1]` is a suffix of `s` without `sep`, preceded by `sep` unless it is all of `s` |
| Strings.LastSegmentOfChild | pygit/pygit.py:177-179 | the last segment of `dir + sep + entry` is `entry` when `entry` has no separator |
| Strings.SplitWs | pygit/commands.py:54 | `str.split()` yields non-empty tokens without whitespace |
| Strings.SplitWsLeadingSpaces | pygit/commands.py:54 | leading whitespace does not change what `str.split()` yields |
| Strings.SplitJoinRoundTrip | pygit/commands.py:54 | splitting a space-joined list of tokens gives the tokens back |
| Strings.JoinContainsEach | pygit/pygit.py:519 | every part shows in `sep.join(parts)` |
| Strings.ConcatContainsEach | build/lib/pygit/main.py:245-249 | every piece written to a file shows in the file |
| Strings.NatToString | pygit/pygit.py:184 | `str(n)` is a non-empty run of digits with no leading zero except "0" itself |
| Strings.DecimalOfNatToString | pygit/pygit.py:184 | reading back the digits `str(n)` wrote gives `n` |
| Strings.NatToStringInjective | pygit/pygit.py:184 | distinct counters give distinct keys |
| Strings.ParseIntNeedsDigit | pygit/pygit.py:442 | `int()` accepts no string without a decimal digit |
| Strings.ParseIntOfNatToString | pygit/pygit.py:442-444 | `int(str(n)) == n`: every id the registry writes is read back as an id |
| FileSystems.ListDir | pygit/pygit.py:76 | `os.listdir` gives a directory's entries, NotADirectoryError on a file and FileNotFoundError otherwise |
| FileSystems.IsGitRepoExactly | pygit/pygit.py:71-79 | a directory is a repository iff ".git" is among its entries; a non-directory makes the test raise |
| FileSystems.IsGitRepoIgnoresOtherEntries | build/lib/pygit/initialize.py:96-104 | two directories that agree on ".git" are classified alike, whatever else they hold |
| FileSystems.SubdirNames | build/lib/pygit/initialize.py:182-185 | the `isdir` filter keeps exactly the listed entries that are directories |
| FileSystems.Walk | pygit/main.py:146 | `os.walk(top)` visits `top` first and only existing directories under `top`; a missing `top` yields nothing |
| FileSystems.WalkClosed | pygit/main.py:146 | every subdirectory listed in a directory the walk visits is visited too, so the walk reaches every directory at any depth below `top` |
| Registry.EnforceExclusion | pygit/pygit.py:136-143 | true iff the string starts with "." or "_" |
| Registry.MatchRule | pygit/pygit.py:146-152 | false for no rules or an empty list; otherwise true iff some rule is a substring of the path |
| Registry.ChildNameIsEntry | pygit/pygit.py:174-179 | a scanned child is shelved under its own entry name |
| Registry.Admit | pygit/pygit.py:196-207 | a candidate is accepted only if it is a directory holding ".git", and skipped only if it is a directory without it |
| Registry.MasterVerdict | pygit/pygit.py:167-185 | an accepted child is not excluded and matches no rule; its path is the master joined with the entry, a directory holding ".git" |
| Registry.MasterVerdictExactly | build/lib/pygit/initialize.py:187-215 | on Linux or Windows a listed subdirectory is accepted under its entry name iff it is not excluded, matches no rule and holds ".git"; otherwise it is skipped |
| Registry.MasterPassExactly | pygit/pygit.py:155-185 | once the master can be listed, the scan never raises and registers exactly the subdirectories that are not excluded, match no rule and hold ".git", each under its entry name |
| Registry.CollectKeepsError | pygit/pygit.py:194-207 | once a registration loop has raised, the remaining candidates change nothing |
| Registry.CollectAccepted | pygit/pygit.py:194-207 | without a failure, exactly the accepted candidates are shelved |
| Registry.CollectStopsAtFirstFailure | pygit/pygit.py:194-207 | the first failure is the loop's exception, and only the repositories accepted before it are shelved |
| Registry.ContiguousExtend | pygit/pygit.py:184-185 | the next id after contiguous ids is new, and taking it keeps the ids contiguous |
| Registry.NumberContiguous | pygit/pygit.py:161-185 | numbering from the key count plus one keeps ids "1".."n" contiguous and adds one key per repository |
| Registry.NumberKeepsEarlier | pygit/pygit.py:193-203 | shelving leaves every earlier index entry untouched |
| Registry.NumberGivesNextIds | pygit/pygit.py:161-185 | the i-th shelved repository gets id str(n + 1 + i) |
| Registry.NumberGivesId | pygit/pygit.py:184 | a given id in the new range names the repository that took it |
| Registry.FirstIdIsOne | build/lib/pygit/initialize.py:180 | on fresh shelves the first repository gets id "1" |
| Registry.RecordKeys | pygit/pygit.py:183 | the names shelf afterwards holds the old names plus those of the shelved repositories |
| Registry.RecordLastWins | pygit/pygit.py:202 | a name shelved twice keeps the later path |
| Registry.RecordKeepsUntouched | pygit/pygit.py:202 | a name no repository took keeps its path |
| Registry.ShelveKeepsResolvable | pygit/pygit.py:183-184 | every id keeps naming a recorded repository |
| Registry.RegistrationIds | pygit/pygit.py:247-248 | a master scan followed by a simple append on fresh shelves leaves exactly the ids "1".."m+s" |
| Registry.RegistrationKeepsScanIds | pygit/pygit.py:247-248 | the scan's repositories keep their ids through the append |
| Registry.Shelves.constructor | pygit/pygit.py:235-241 | the shelf directory is recreated, so both shelves start empty |
| Registry.Shelves.ShelveGitPath | pygit/pygit.py:108-124 | `shelve_git_path`: the entry of the git executable found on the path is added to the names shelf, nothing is written when none was found, and the index is unchanged |
| Registry.Shelves.ShelveVerdicts | pygit/pygit.py:194-207 | the shelves become the old ones with the accepted repositories recorded and numbered on; a failure ends the loop with earlier writes kept |
| Registry.Shelves.ShelveMaster | pygit/pygit.py:155-185 | `shelve_master_directory`: the shelves after the scan of the master's subdirectories in listing order |
| Registry.Shelves.ShelveSimple | pygit/pygit.py:190-207 | `shelve_simple_directory`: non-repositories are skipped without taking an id |
| Registry.ShelvingKeepsValid | pygit/pygit.py:161-207 | either pass keeps the ids contiguous and resolvable, adding one id per repository |
| Registry.ShelvingFromEmpty | build/lib/pygit/initialize.py:131-138 | a first pass on fresh shelves numbers from "1" and leaves them valid |
| Registry.Initialize | pygit/pygit.py:231-248 | `initialize`: the names shelf is the git entry (when one was found) with the scan's repositories and then the simple directories recorded on it; the ids number the scan's repositories from "1" and the simple ones after them; a scan exception ends the run with what was shelved before it |
| Registry.ScriptExclusionNeverFires | pygit/pygit.py:169 | below a master not starting with "." or "_", the script's exclusion test never fires |
| Registry.ScriptExclusionMissesHiddenFolder | pygit/pygit.py:162-185 | the script registers a hidden repository folder like any other |
| Registry.PackageExclusionSkipsHiddenFolder | build/lib/pygit/initialize.py:187-192 | the package skips the hidden folder and registers the other |
| Registry.PackageSkipsExcluded | build/lib/pygit/initialize.py:187-192 | for every filesystem and rule list, the package never registers a folder whose name starts with "." or "_" |
| Registry.ScriptRegistersAnyName | pygit/pygit.py:162-185 | below a master not starting with "." or "_", the script registers every listed repository that matches no rule, whatever its name |
| Storage.StoreGivesIds | pygit/main.py:155-156 | the i-th repository found is stored under str(start + i) as its [name, path] |
| Storage.StoreKeepsOthers | pygit/main.py:155 | a key that is not all digits (the counter, the git entries) keeps its value |
| Storage.StoreKeepsCounter | pygit/main.py:155 | storing repositories never overwrites `last_index` |
| Storage.MasterCandidates | pygit/main.py:146 | the master pass visits the master first, only directories below it, and every subdirectory listed in a directory it visits |
| Storage.WalkFindsRepos | pygit/main.py:146-156 | the master pass finds exactly the walked directories holding ".git", in walking order, named by their last segment |
| Storage.AdmitListed | pygit/main.py:148-153 | a listed directory is admitted under its last segment iff it holds ".git" |
| Storage.FoundRepos | pygit/main.py:146-153 | the repositories found never outnumber the walked directories |
| Storage.FoundReposAreRepos | pygit/main.py:148-155 | every repository found is a walked directory holding ".git", named by the last segment of its path |
| Storage.MasterPassFindsRepos | pygit/main.py:140-157 | the master pass never raises and finds exactly the walked directories holding ".git", in walking order |
| Storage.FoundReposHas | pygit/main.py:148-156 | every walked directory holding ".git" is found, named by its last segment |
| Storage.MasterPassFindsNested | pygit/main.py:146-156 | every repository nested at any depth below the master is found, named by its last segment |
| Storage.Shelf.LastIndex | pygit/main.py:141 | `int(storage['last_index'])` reads back the counter's value |
| Storage.Shelf.constructor | pygit/main.py:93-100 | the storage is recreated holding only `last_index = "0"` |
| Storage.Shelf.SetCounter | pygit/main.py:157 | writes the counter's text |
| Storage.Shelf.StoreVerdicts | pygit/main.py:146-157 | repositories are stored under consecutive ids from the counter, then the counter advances by the number stored; a failure leaves it as it was |
| Storage.Shelf.StoreEach | pygit/main.py:146-156 | the loop stores the repositories found under consecutive ids and returns the next id |
| Storage.Shelf.ScanMaster | pygit/main.py:140-157 | no master leaves the shelf unchanged; otherwise each walked repository takes the next id |
| Storage.Shelf.AddSimple | pygit/main.py:160-174 | a non-repository is skipped without advancing `last_index` |
| Storage.InitializeStorage | pygit/main.py:93-175 | the shelf is the fresh one after the master pass and then the simple pass, each storing its repositories from the counter on and writing the counter back unless it raised; the counter ends at the number of repositories stored |
| Storage.StoredPairs | pygit/main.py:155-156 | after both passes the i-th repository found is stored under str(i), from 0 on, as its [name, path], also when the simple pass raised |
| Handle.Env.ChangeDir | pygit/commands.py:31-35 | the constructor's `chdir` enters the target when it is a directory, and otherwise leaves the cwd unchanged or raises NotADirectoryError |
| Handle.Env.Chdir | pygit/pygit.py:496 | a plain `os.chdir` enters a directory and raises what listing the target would |
| Handle.Env.Run | pygit/commands.py:47-50 | a git call is logged with the cwd, and its output is git's answer given every earlier call |
| Handle.EnterDir | pygit/commands.py:31-35 | the cwd after `chdir` then `getcwd`: the target if it is a directory, the old cwd if it is missing or `None`; a file raises |
| Handle.Bind | pygit/commands.py:25-35 | name, executable and message are the arguments; `dir` is the cwd after the directory change |
| Handle.BindDirectory | pygit/commands.py:31-35 | a handle's `dir` is the target when it is a directory and the previous cwd when it is missing or `None`, with no exception |
| Handle.BindAgainIsEqual | build/lib/pygit/main.py:34-50 | building the same handle again from where the first left the process gives an equal handle |
| Handle.CommitMessage | pygit/commands.py:66-69 | the entered text when non-empty, otherwise the handle's message |
| Handle.CommitMessageNeverEmpty | pygit/commands.py:25 | with the default "minor changes", a commit message is never empty |
| Handle.AddArgumentTokens | pygit/commands.py:52-55 | the file list splits back into the given tokens, each but the last followed by a backtick |
| Handle.AddArgumentDefault | pygit/commands.py:52-55 | the default `add_all()` runs "git add ." |
| Handle.ReportsCarryOutput | pygit/commands.py:82-94 | push's result is "Push completed." and pull's is "Pull completed.\n", each followed by git's output unchanged |
| Handle.Commands.constructor | pygit/commands.py:25-35 | the fields are the arguments, `dir` is the process cwd afterwards, and no git call is made |
| Handle.Commands.Equals | build/lib/pygit/main.py:34-38 | two handles are equal iff all their fields are |
| Handle.Commands.ToString | pygit/commands.py:116-117 | `str(handle)` is the name, ": ", then the directory |
| Handle.Commands.ScriptToString | pygit/pygit.py:290-291 | the same behind "Commands: " |
| Handle.Commands.Fetch | pygit/commands.py:37-42 | one `git fetch` from the handle's directory |
| Handle.Commands.Status | pygit/commands.py:44-50 | a fetch always precedes `git status`, whose answer is returned |
| Handle.Commands.AddAll | pygit/commands.py:52-60 | one `git add` call with the backticked file list |
| Handle.Commands.Commit | pygit/commands.py:62-75 | one `git commit -m` call with the chosen message |
| Handle.Commands.AddCommit | pygit/commands.py:77-80 | "git add ." then the commit |
| Handle.Commands.Push | pygit/commands.py:82-87 | one `git push`; the result is the push banner followed by git's answer |
| Handle.Commands.Pull | pygit/commands.py:89-94 | one `git pull`; the result is the pull banner followed by git's answer |
| Handle.Commands.Reset | pygit/commands.py:96-101 | one `git reset HEAD~ <number>` call |
| Handle.Open | pygit/commands.py:25-35 | a new handle with the bound fields, or the exception the constructor lets escape, with the cwd unchanged |
| Reports.Flagged | pygit/pygit.py:506-513 | every flagged name is a visited name, at most one per repository |
| Reports.FlaggedExactly | pygit/pygit.py:506-513 | a name is listed iff some visited repository with that name was flagged |
| Reports.FlaggedOfConcat | pygit/pygit.py:506-513 | flagging keeps the visiting order |
| Reports.ScriptAttention | pygit/pygit.py:513 | the attention text is empty iff no name is flagged, and otherwise ends with a newline |
| Reports.ScriptAttentionOfConcat | pygit/pygit.py:513 | the attention text grows line by line in visiting order |
| Reports.ScriptAttentionHasLine | pygit/pygit.py:513 | every flagged name has its own "1. <name>" line |
| Reports.Sections | pygit/pygit.py:510 | `messages` holds one section per visited repository, in order |
| Reports.ScriptStatusListsFlagged | pygit/pygit.py:503-519 | the status file lists "1. <name>" for every flagged repository |
| Reports.ScriptStatusHasEverySection | pygit/pygit.py:518-519 | the status file holds every visited repository's section |
| Reports.Numbered | build/lib/pygit/main.py:258 | the k-th flagged name is written "k+1. name" |
| Reports.PackageSections | build/lib/pygit/main.py:245-249 | one heading-and-status section per visited repository, in order |
| Reports.PackageStatusNumbersFlagged | build/lib/pygit/main.py:251-260 | a completed run numbers the flagged names 1, 2, ... in visiting order |
| Reports.PackageStatusHasEverySection | build/lib/pygit/main.py:241-249 | every visited repository's section is in the file, even when the run was cut short |
| Loading.LookupMissesDiffer | pygit/pygit.py:446-452 | a missing id and a missing name raise different messages |
| Loading.LookupById | pygit/pygit.py:441-445 | every id "1".."n" of a registered index opens its repository with the recorded path |
| Loading.LookupByName | pygit/pygit.py:448-452 | an input without a digit is a name: it opens that repository or raises the name-missing exception |
| Loading.LookupShelved | pygit/pygit.py:441-445 | after registration, the id a repository took opens it |
| Loading.Load | pygit/pygit.py:435-452 | the handle bound from the lookup, or the lookup's or constructor's exception |
| Loading.LoadAll | pygit/pygit.py:457-476 | at most one handle per token, and exactly one each when nothing raised |
| Loading.LoadStep | pygit/pygit.py:474-476 | a successful `load` appends its handle; a failing one ends the batch with that exception |
| Loading.LoadAllKeepsError | pygit/pygit.py:457-476 | once the generator raised, the remaining tokens are never loaded |
| Loading.LoadMultiple | pygit/pygit.py:457-476 | `load_multiple` yields the handles of the batch in token order, then its exception if any |
| Loading.Launched | build/lib/pygit/main.py:115-125 | the number of leading handles whose pull or push can start: every handle before it can, and the handle at that position cannot |
| Loading.LoadAllExtends | pygit/pygit.py:457-476 | a prefix of a batch that has not raised yet heads the whole batch |
| Loading.SyncHandle | build/lib/pygit/main.py:207-211 | after a loaded handle's banner, a handle whose call cannot start raises TypeError and adds no call and no report; any other handle adds its one call and git's answer |
| Loading.SyncAll | build/lib/pygit/main.py:205-218 | the handles at the head of the batch whose calls can start pull or push from their own directories, in order, with git's answers as reports; a failed load ends the run; a handle whose call cannot start ends it with TypeError, in its directory, after its banner |
| Loading.SyncIn | pygit/pygit.py:481-482 | a just-loaded handle makes one pull or push call from its directory and reports git's answer behind the banner, leaving the cwd unchanged |
| Loading.SyncBlock | pygit/pygit.py:481-482 | a repository's printout starts with "*** name ***" and its report |
| Loading.TranscriptShowsEach | pygit/pygit.py:479-488 | every visited repository's banner is printed with its report right after it |
| Loading.SyncRun | build/lib/pygit/main.py:205-218 | the package ignores its arguments and loads every name-shelf key, and the script loads its arguments, or every key with `_all`; the script falls back to the shell for each handle, while the package stops with TypeError at the first handle after printing its header and that handle's banner |
| Loading.LoadAllWithoutExecutable | build/lib/pygit/main.py:164-181 | every handle `load` builds has no git executable |
| Loading.PackageSyncReachesNoRepository | build/lib/pygit/main.py:115-125 | for every name shelf, the package's `pull` and `push` reach git for no handle |
| Loading.PackagePullStopsAfterBanner | build/lib/pygit/main.py:205-211 | for the name shelf {"proj": "/m/proj"}, the package's `pull` prints its header and "*** proj ***", then raises TypeError without calling git |
| Loading.SyncRunFallback | build/lib/pygit/main.py:205-218 | with the shell fallback, every handle the batch yields pulls or pushes once from its directory, and the transcript shows each one's banner with git's answer; a failed load ends the run |
| Loading.StatusCalls | pygit/commands.py:44-47 | a status is a fetch, then `git status`, both from the handle's directory |
| Loading.StatusIn | pygit/pygit.py:508 | asking a just-loaded handle for its status adds its two calls and git's answer to the run |
| Loading.StatusAll | pygit/pygit.py:506-513 | one entry (name, status) per yielded handle, in load order; a failed load ends the run |
| Loading.ScriptAllStatus | pygit/pygit.py:491-523 | the status file of every name-shelf key; a failed load leaves only the header; a status directory that cannot be entered writes nothing |
| Loading.PackageAllStatus | build/lib/pygit/main.py:220-262 | sections are written as statuses come in; the numbered attention list only follows a complete run |
| Loading.AllBatchMisloadsNumericName | pygit/pygit.py:470-473 | in a valid registry, the `_all` batch's key "1" opens the repository with id "1", not the one named "1" |
| Loading.AllBatchLoadsGitEntry | pygit/pygit.py:470-473 | the git-executable entry is a name-shelf key, so the `_all` batch opens it as a repository |
| Loading.IndexBatchLoadsEachRepo | pygit/pygit.py:457-476 | a batch over the ids "1".."n" opens each registered repository once, in id order, and never raises |
| ApiStore.Get | pygit/api.py:70 | `d.get(key, None)` is the value iff the key is present, and `None` otherwise |
| ApiStore.GitRepoDirs | pygit/utils.py:55 | exactly the walked directories holding ".git" |
| ApiStore.RepoNames | pygit/utils.py:56 | names align with paths; each is the last "\\" segment, and a path with no backslash is its own name |
| ApiStore.LastHoldingIsLast | pygit/utils.py:60-66 | the executable found is in a walked root holding it with no later root holding it; none is found iff no root holds it |
| ApiStore.FindExecs | pygit/utils.py:59-66 | `execs["win"]` and `execs["bash"]` are the files in the last roots holding them, and absent when none do |
| ApiStore.GetReposAndGit | pygit/utils.py:48-67 | the repositories under the repository search path, their names, and the executables under the executable search path |
| ApiStore.Zip | pygit/utils.py:88 | the pairs up to the shorter list |
| ApiStore.RepoPathWellFormed | pygit/utils.py:88-89 | the filled dict has distinct keys matching its entries |
| ApiStore.RepoPathNames | pygit/utils.py:88-89 | exactly the paired names are keys |
| ApiStore.RepoPathLastWins | pygit/utils.py:88-89 | of two repositories sharing a name, the later one wins |
| ApiStore.RepoPathKeyOrder | pygit/utils.py:88-89 | names appear in the dict in the order they are first met |
| ApiStore.FillRepoPath | pygit/utils.py:88-89 | the loop builds the name-to-path dict of the pairs |
| ApiStore.SetInputData | pygit/utils.py:69-92 | the name-to-path dict and the chosen executable, or KeyError for a git kind that was not found |
| ApiStore.SetAllPlan | pygit/api.py:15-38 | "2" on an existing base leaves all as is; "1" or a missing base chooses new search paths; any other answer rebuilds with the old ones |
| ApiStore.IdsAreIndices | pygit/api.py:40-42 | the ids are the decimal texts of 0..n-1, one key per name |
| ApiStore.IdsNumberEachName | pygit/api.py:40-42 | id str(k) is the k-th key and maps to the k-th name |
| ApiStore.NumberIds | pygit/api.py:40-42 | the enumerate loop builds those ids |
| ApiStore.SetAll | pygit/api.py:13-44 | `set_all`: leave, or rebuild the executable, name-to-path and id files; a missing search-path file or a git kind not found raises; files exist only in a base directory that exists |
| ApiStore.RebuiltPathsAreRepos | pygit/utils.py:55-56 | every recorded path is a walked repository whose last "\\" segment is its name |
| ApiRuns.ApiLookup | pygit/api.py:63-80 | the name under the id, the path under that name and the executable, each `None` when missing; a missing id file leaves `repo_ids` unbound |
| ApiRuns.ApiUnknownIdLoadsNone | pygit/api.py:70-80 | an unknown id gives a handle with no name in the directory the process was already in, and raises nothing |
| ApiRuns.SetAllRebuilds | pygit/api.py:38-44 | the files `set_all` writes form a valid registry |
| ApiRuns.ApiKnownIdLoadsRepo | pygit/api.py:63-80 | after a rebuild, id "k" opens the k-th recorded name in its directory with the chosen executable |
| ApiRuns.ApiLoad | pygit/api.py:63-80 | the handle from the lookup, or its exception |
| ApiRuns.ApiLoadAll | pygit/api.py:94-95 | at most one handle per id, and exactly one each when nothing raised |
| ApiRuns.ApiLoadAllKeepsError | pygit/api.py:94-95 | once the generator raised, the remaining ids are never loaded |
| ApiRuns.ApiLoadStops | pygit/api.py:94-95 | a failing `load` ends the batch with the handles already yielded |
| ApiRuns.ApiLoadSet | pygit/api.py:82-95 | `load_set` yields one handle per argument in argument order until a `load` raises |
| ApiRuns.AllIds | pygit/api.py:104-110 | `load_all` walks the id file's keys in order; a missing file leaves `repo_ids` unbound |
| ApiRuns.ApiLoadEvery | pygit/api.py:97-111 | `load_all` is `load_set` over the id file's keys |
| ApiRuns.ApiLoadAllAfterRebuild | pygit/api.py:110-111 | after a rebuild, `load_all` yields one handle per recorded name, in the dict's order, and never raises |
| ApiRuns.Repeat | pygit/api.py:150 | `s * n` has n times the length of s, and every character of it comes from s |
| ApiRuns.ApiStatusListsFlagged | pygit/api.py:148-152 | a completed run lists every flagged name, in visiting order |
| ApiRuns.ApiStatusHasEveryBlock | pygit/api.py:142-147 | every visited repository's block is in the file, even when the run was cut short |
| ApiRuns.ApiStatusEach | pygit/api.py:142-149 | one entry per handle `load_all` yields, each after a fetch and a status; a failed load ends the run |
| ApiRuns.ApiSyncBlock | pygit/api.py:118-120 | a repository's printout starts with "*** name ***" and its report |
| ApiRuns.ApiSyncShowsEach | pygit/api.py:113-120 | every visited repository's banner is printed with its report right after it |
| ApiRuns.ApiSyncEach | pygit/api.py:117-120 | each handle `load_all` yields pulls or pushes from its own directory, in order; the reports are git's answers behind the banner; a failed load ends the run |
| ApiRuns.ApiSyncAll | pygit/api.py:113-129 | `pull_all`/`push_all`: the header, then one block per handle `load_all` yields; without the id file only the header, and `repo_ids` is unbound |
| ApiRuns.ApiStatusAll | pygit/api.py:131-153 | `status_all`: no file without the base directory; otherwise the header, the blocks and, after a complete run, the names the draft's markers flag |

## Left out

- Git-executable discovery is left out, because it depends on the environment:
  - `check_git_support` and the scan of `PATH`;
  - `os.walk` over the given git path.

  `shelve_git_path`'s effect is modelled only as the optional entry `Registry.Initialize` writes.
- After the master pass, pygit/main.py:158 and build/lib/pygit/initialize.py:216-217 close the shelf, so the simple pass that follows writes to a closed shelf. That failure is not modelled; both passes run on the open shelf.
- pygit/pygit.py:171 hands `match_rule` a `Path`, and `rule in path` then raises TypeError. Rules are modelled over the path's string.
- The following parts of pygit/main.py use undefined names and are not modelled: `load`, `load_all`, and the `pull_all`, `push_all` and `status_all` that iterate `load_all` (pygit/main.py:352-381).
- `os.path.abspath` and `Path.resolve` are not applied; paths are taken as given. A path is the exact key of the filesystem snapshot: ".", ".." and repeated or trailing separators are not normalised.
- Tk dialogs (`select_directory`, `set_search_paths`) are not modelled. The chosen search paths are a parameter of `ApiStore.SetAll`.
- The PermissionError printed when the base directory cannot be recreated is not modelled.
- Timestamps are parameters.
- Printing, verbosity, `os.system("cls")` and the notepad process `status_all` starts are not modelled.
- `pull_all` and `push_all` of pygit/gitty.py are not modelled separately. They are the same text as those of pygit/api.py, which `ApiRuns.ApiSyncAll` models.
- Loading.PackageAllStatus does not create the desktop and status directories. build/lib/pygit/main.py:226-233 calls `os.mkdir` on both, ignoring FileExistsError, before it enters the status directory. The filesystem snapshot is fixed, so a status directory that is missing before the call ends the run with FileNotFoundError in the model, where the source creates it and writes the report.
- Registry.MasterVerdict assumes an absolute master directory, as the `--masterDirectory` help asks for a full pathname (pygit/pygit.py:102). For a relative master the script's paths differ: `Path(".").iterdir()` yields bare names, so the exclusion sees "proj" rather than "./proj", and `Path(master) / child` at pygit/pygit.py:168 repeats a relative master. For an absolute master without a trailing separator the model joins the master and the entry as the source does.
- Registry.MasterVerdict and Registry.MasterPassExactly take a master without a trailing separator. `FileSystems.ChildPath` always inserts one separator, while `os.path.join` (build/lib/pygit/initialize.py:193) and `Path(...) / child` (pygit/pygit.py:168) add none after a directory that already ends in one, and the operating system reads "/m/" as "/m". For the master "/m/" the model raises FileNotFoundError where the source registers "/m/proj". The same holds for the walks of `Storage` and `ApiStore`, whose tops are taken as given.
- `create_status_directory` of pygit/pygit.py is not modelled. The status directory is a parameter of `Loading.ScriptAllStatus`.
- git argument lists follow pygit/commands.py for every variant. In pygit/pygit.py they carry extra spaces, such as `" git status"`.
- ApiRuns.ApiLookup and the runs built on it (`ApiRuns.ApiStatusAll`, `ApiRuns.ApiSyncAll`) let a handle without an executable call git. That happens when the exec file has no "git" key. pygit/commands.py:39-98 puts the executable first in `Popen`'s argument list, so such a handle raises TypeError at its first git call. The model assumes the exec file holds "git", as `set_all` always writes it (pygit/utils.py:84-86, `ApiRuns.SetAllRebuilds`).
- The `stage_file` and `need_attention` methods of pygit/pygit.py's `Commands` are not modelled. The latter is `Status` followed by `Attention.ScriptNeedsAttention`.
- The order in which `shelve` returns keys is unspecified. The model accepts any order listing each key once.
- `json` turns integer keys into strings, so ids are strings throughout the model. A `load_set` called with integer ids would find none, and that case is not modelled.
- pygit/api.py imports `get_time_str` from pygit/utils.py, which does not define it. The status file name follows the definition in pygit/paths.py.
- `int()` also accepts non-ASCII decimal digits; the model accepts ASCII digits only.
- A handle whose name is `None` prints as "None".
- Loading.Lookup has no contract of its own. Its behaviour is stated by `Loading.LookupById`, `Loading.LookupByName`, `Loading.LookupMissesDiffer` and `Loading.LookupShelved`.
- Loading.LoadFields likewise has no contract of its own. It is the lookup followed by `Handle.Bind`, whose contract states the result.
- Loading.LoadAll states only the handle counts. How each token is loaded is stated by `Loading.LoadStep` and `Loading.LoadAllKeepsError`.
- ApiRuns.ApiLoadAll states only the handle counts. How each id is loaded is stated by `ApiRuns.ApiLoadStops` and `ApiRuns.ApiLoadAllAfterRebuild`.
- Strings.SplitWs states only the shape of its tokens. That they are the maximal runs, in order, is stated by `Strings.SplitJoinRoundTrip` and `Strings.SplitWsLeadingSpaces`.
- Reports.Flagged states only that its names are visited ones. Exactly which names appear, and in what order, is stated by `Reports.FlaggedExactly` and `Reports.FlaggedOfConcat`.

## Findings

| source | as written | input that shows it | evidently intended | confidence | as-written member | corrected member |
|---|---|---|---|---|---|---|
| pygit/pygit.py:470-473 | `load_multiple(_all=True)` calls `load` on every `NAME_SHELF` key, and `load` reads any key `int()` accepts as an id | a registry holding "proj" (id "1") and a repository named "1" (id "2"): the key "1" opens "proj", and the repository "1" is never opened | one handle per registered repository, from the index ids | not executed | Loading.AllBatchMisloadsNumericName | Loading.IndexBatchLoadsEachRepo |
| pygit/pygit.py:470-473 | the git-executable entries `shelve_git_path` writes are `NAME_SHELF` keys too | a registry with a `GIT_BASH` entry: the `_all` batch opens a handle named "GIT_BASH" in the executable's directory | only registered repositories are opened | not executed | Loading.AllBatchLoadsGitEntry | Loading.IndexBatchLoadsEachRepo |
| build/lib/pygit/main.py:115-125 | `push` and `pull` always put `self.git_exec` first in `Popen`'s argument list, and `load` builds every handle without an executable, so the list holds `None` and `Popen` raises TypeError | the name shelf {"proj": "/m/proj"}: `pull` prints its header and "*** proj ***", then raises TypeError; no repository is pulled | fall back to `git pull` or `git push` through the shell, as the same class's `fetch` and `status` do (build/lib/pygit/main.py:51-67) | not executed | Loading.PackagePullStopsAfterBanner | Loading.SyncRunFallback |
| pygit/pygit.py:162-169 | `enforce_exclusion` tests the child's full path from `iterdir`, which starts with the master's first character | master "/m" holding the repository ".cache": it is registered | skip children whose own name starts with "." or "_" | not executed | Registry.ScriptExclusionMissesHiddenFolder | Registry.PackageSkipsExcluded |

The corrected behaviour of the first two rows is a batch over the index ids "1".."n".
The corrected exclusion of the fourth row is the one the build/lib/pygit/initialize.py
variant applies, which `Registry.MasterVerdict` models for that variant.
`Registry.ScriptRegistersAnyName` states the as-written behaviour for every input, and
`Registry.PackageExclusionSkipsHiddenFolder` shows the corrected one on the same example.
`Registry.Initialize` models pygit/pygit.py, so it applies the script's full-path exclusion test of the fourth row, as written.
For the third row, `Loading.SyncRun` models both variants as written. `Loading.PackageSyncReachesNoRepository` states that the package's runs reach git for no registry at all. `Loading.SyncRunFallback` runs the same loop with the shell fallback the script uses.
