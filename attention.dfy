/** The "needs attention" classifiers: a status text is flagged when it contains
    one of a fixed list of marker substrings. Every variant of the source keeps
    its own list. */
module Attention {
  import opened Strings

  /** pygit/pygit.py: `need_attention`. */
  const ScriptMarkers: seq<string> := ["not staged", "behind", "ahead", "Untracked"]
  /** build/lib/pygit/initialize.py: `need_attention`. */
  const PackageMarkers: seq<string> := ["not staged", "behind", "ahead", "Untracked"]
  /** pygit/main.py: `need_attention`. */
  const StorageMarkers: seq<string> := ["staged", "behind", "ahead"]
  /** pygit/utils.py (used by pygit/api.py): `need_attention`. */
  const UtilsMarkers: seq<string> := ["Changes not staged for commit", "Your branch is behind", "Your branch is ahead"]
  /** pygit/gitty.py: `need_attention`. */
  const GittyMarkers: seq<string> := ["not staged", "is behind", "is ahead"]

  /** A three-marker list flags exactly the texts holding one of the three. */
  lemma ThreeMarkers(status: string, a: string, b: string, c: string)
    ensures ContainsAny(status, [a, b, c]) <==> Contains(status, a) || Contains(status, b) || Contains(status, c)
  {
    var m := [a, b, c];
    assert m[0] == a && m[1] == b && m[2] == c;
  }

  /** A four-marker list flags exactly the texts holding one of the four. */
  lemma FourMarkers(status: string, a: string, b: string, c: string, d: string)
    ensures ContainsAny(status, [a, b, c, d]) <==> Contains(status, a) || Contains(status, b) || Contains(status, c) || Contains(status, d)
  {
    var m := [a, b, c, d];
    assert m[0] == a && m[1] == b && m[2] == c && m[3] == d;
  }

  /** `need_attention(status)` for a marker list. */
  function NeedsAttention(markers: seq<string>, status: string): (r: bool)
    ensures r <==> exists k :: 0 <= k < |markers| && Contains(status, markers[k])
  {
    ContainsAny(status, markers)
  }

  function ScriptNeedsAttention(status: string): (r: bool)
    ensures r <==> || Contains(status, "not staged") || Contains(status, "behind")
                   || Contains(status, "ahead") || Contains(status, "Untracked")
  {
    FourMarkers(status, "not staged", "behind", "ahead", "Untracked");
    NeedsAttention(ScriptMarkers, status)
  }

  function PackageNeedsAttention(status: string): (r: bool)
    ensures r <==> || Contains(status, "not staged") || Contains(status, "behind")
                   || Contains(status, "ahead") || Contains(status, "Untracked")
  {
    FourMarkers(status, "not staged", "behind", "ahead", "Untracked");
    NeedsAttention(PackageMarkers, status)
  }

  function StorageNeedsAttention(status: string): (r: bool)
    ensures r <==> Contains(status, "staged") || Contains(status, "behind") || Contains(status, "ahead")
  {
    ThreeMarkers(status, "staged", "behind", "ahead");
    NeedsAttention(StorageMarkers, status)
  }

  function UtilsNeedsAttention(status: string): (r: bool)
    ensures r <==> || Contains(status, "Changes not staged for commit")
                   || Contains(status, "Your branch is behind") || Contains(status, "Your branch is ahead")
  {
    ThreeMarkers(status, "Changes not staged for commit", "Your branch is behind", "Your branch is ahead");
    NeedsAttention(UtilsMarkers, status)
  }

  function GittyNeedsAttention(status: string): (r: bool)
    ensures r <==> Contains(status, "not staged") || Contains(status, "is behind") || Contains(status, "is ahead")
  {
    ThreeMarkers(status, "not staged", "is behind", "is ahead");
    NeedsAttention(GittyMarkers, status)
  }

  /** The packaged and the script classifier agree on every text. */
  lemma PackageAgreesWithScript(status: string)
    ensures PackageNeedsAttention(status) == ScriptNeedsAttention(status)
  {
  }

  /** Whatever the utilities classifier flags, the script classifier flags too:
      each of its markers contains one of the script's. */
  lemma UtilsFlagsImplyScriptFlags(status: string)
    requires UtilsNeedsAttention(status)
    ensures ScriptNeedsAttention(status)
  {
    assert "Changes " + "not staged" + " for commit" == "Changes not staged for commit";
    assert "Your branch is " + "behind" + "" == "Your branch is behind";
    assert "Your branch is " + "ahead" + "" == "Your branch is ahead";
    ContainsMiddle("Changes ", "not staged", " for commit");
    ContainsMiddle("Your branch is ", "behind", "");
    ContainsMiddle("Your branch is ", "ahead", "");
    if Contains(status, "Changes not staged for commit") {
      ContainsTransitive(status, "Changes not staged for commit", "not staged");
    } else if Contains(status, "Your branch is behind") {
      ContainsTransitive(status, "Your branch is behind", "behind");
    } else {
      ContainsTransitive(status, "Your branch is ahead", "ahead");
    }
  }

  /** Whatever the gitty classifier flags, the script classifier flags too. */
  lemma GittyFlagsImplyScriptFlags(status: string)
    requires GittyNeedsAttention(status)
    ensures ScriptNeedsAttention(status)
  {
    assert "is " + "behind" + "" == "is behind";
    assert "is " + "ahead" + "" == "is ahead";
    ContainsMiddle("is ", "behind", "");
    ContainsMiddle("is ", "ahead", "");
    if Contains(status, "is behind") {
      ContainsTransitive(status, "is behind", "behind");
    } else if Contains(status, "is ahead") {
      ContainsTransitive(status, "is ahead", "ahead");
    }
  }

  /** The storage classifier flags every text the script classifier flags, except
      those flagged for untracked files alone. */
  lemma ScriptFlagsImplyStorageFlags(status: string)
    requires ScriptNeedsAttention(status)
    ensures StorageNeedsAttention(status) || Contains(status, "Untracked")
  {
    assert "not " + "staged" + "" == "not staged";
    ContainsMiddle("not ", "staged", "");
    if Contains(status, "not staged") {
      ContainsTransitive(status, "not staged", "staged");
    }
  }

  /** Untracked files alone are flagged by the script and package classifiers. */
  lemma UntrackedFlaggedByScript()
    ensures ScriptNeedsAttention("Untracked files:")
    ensures PackageNeedsAttention("Untracked files:")
  {
    assert "" + "Untracked" + " files:" == "Untracked files:";
    ContainsMiddle("", "Untracked", " files:");
  }

  /** ... and by none of the other classifiers. */
  lemma UntrackedNotFlaggedByStorage()
    ensures !StorageNeedsAttention("Untracked files:")
  {
    var s := "Untracked files:";
    MissingCharExcludes(s, "staged", 3);
    MissingCharExcludes(s, "behind", 0);
    MissingCharExcludes(s, "ahead", 1);
  }

  lemma UntrackedNotFlaggedByUtils()
    ensures !UtilsNeedsAttention("Untracked files:")
  {
    var s := "Untracked files:";
    MissingCharExcludes(s, "Changes not staged for commit", 0);
    MissingCharExcludes(s, "Your branch is behind", 0);
    MissingCharExcludes(s, "Your branch is ahead", 0);
  }

  lemma UntrackedNotFlaggedByGitty()
    ensures !GittyNeedsAttention("Untracked files:")
  {
    var s := "Untracked files:";
    MissingCharExcludes(s, "not staged", 7);
    MissingCharExcludes(s, "is behind", 3);
    MissingCharExcludes(s, "is ahead", 4);
  }

  /** The last line of a clean `git status`. */
  const CleanStatus := "nothing to commit, working tree clean"

  /** The letters the classifiers below rely on are absent from a clean status. */
  lemma CleanStatusLacks(c: char)
    requires c == 's' || c == 'b' || c == 'd' || c == 'U' || c == 'C' || c == 'Y'
    ensures c !in CleanStatus
  {
  }

  /** A clean status is flagged by no classifier. */
  lemma CleanStatusNotFlaggedByScript()
    ensures !ScriptNeedsAttention(CleanStatus)
  {
    var s := CleanStatus;
    CleanStatusLacks('s');
    MissingCharExcludes(s, "not staged", 4);
    CleanStatusLacks('b');
    MissingCharExcludes(s, "behind", 0);
    CleanStatusLacks('d');
    MissingCharExcludes(s, "ahead", 4);
    CleanStatusLacks('U');
    MissingCharExcludes(s, "Untracked", 0);
  }

  lemma CleanStatusNotFlaggedByStorage()
    ensures !StorageNeedsAttention(CleanStatus)
  {
    var s := CleanStatus;
    CleanStatusLacks('s');
    MissingCharExcludes(s, "staged", 0);
    CleanStatusLacks('b');
    MissingCharExcludes(s, "behind", 0);
    CleanStatusLacks('d');
    MissingCharExcludes(s, "ahead", 4);
  }

  lemma CleanStatusNotFlaggedByUtils()
    ensures !UtilsNeedsAttention(CleanStatus)
  {
    var s := CleanStatus;
    CleanStatusLacks('C');
    MissingCharExcludes(s, "Changes not staged for commit", 0);
    CleanStatusLacks('Y');
    MissingCharExcludes(s, "Your branch is behind", 0);
    CleanStatusLacks('Y');
    MissingCharExcludes(s, "Your branch is ahead", 0);
  }

  lemma CleanStatusNotFlaggedByGitty()
    ensures !GittyNeedsAttention(CleanStatus)
  {
    var s := CleanStatus;
    CleanStatusLacks('s');
    MissingCharExcludes(s, "not staged", 4);
    CleanStatusLacks('s');
    MissingCharExcludes(s, "is behind", 1);
    CleanStatusLacks('s');
    MissingCharExcludes(s, "is ahead", 1);
  }
}
