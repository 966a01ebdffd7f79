/** What a status run over several repositories produces: the repositories that
    need attention, in the order they were visited, and the ways each variant of
    the source lays that list out. */
module Reports {
  import opened Strings
  import opened Attention

  /** One repository visited by a status run: its name and the text `git status` printed. */
  datatype Entry = Entry(name: string, status: string)

  /** The names of the entries whose status carries one of `markers`, in visiting order. */
  function Flagged(markers: seq<string>, report: seq<Entry>): (r: seq<string>)
    ensures |r| <= |report|
    ensures forall k :: 0 <= k < |r| ==> exists j :: 0 <= j < |report| && report[j].name == r[k]
  {
    if report == [] then []
    else
      var last := report[|report| - 1];
      var rest := Flagged(markers, report[..|report| - 1]);
      assert forall k :: 0 <= k < |rest| ==> exists j :: 0 <= j < |report| - 1 && report[j].name == rest[k];
      rest + (if NeedsAttention(markers, last.status) then [last.name] else [])
  }

  /** A name is listed exactly when some entry with that name was flagged. */
  lemma {:induction false} FlaggedExactly(markers: seq<string>, report: seq<Entry>, name: string)
    ensures name in Flagged(markers, report) <==>
            exists j :: 0 <= j < |report| && report[j].name == name && NeedsAttention(markers, report[j].status)
  {
    if report != [] {
      var init := report[..|report| - 1];
      FlaggedExactly(markers, init, name);
      assert forall j :: 0 <= j < |init| ==> init[j] == report[j];
    }
  }

  /** Flagging keeps the visiting order: the flagged names of two runs one after
      the other are those of the first run followed by those of the second. */
  lemma {:induction false} FlaggedOfConcat(markers: seq<string>, a: seq<Entry>, b: seq<Entry>)
    ensures Flagged(markers, a + b) == Flagged(markers, a) + Flagged(markers, b)
  {
    if b != [] {
      var b' := b[..|b| - 1];
      assert (a + b)[..|a + b| - 1] == a + b';
      FlaggedOfConcat(markers, a, b');
    } else {
      assert a + b == a;
    }
  }

  /** pygit/pygit.py: the attention text adds one `1. <name>` line per flagged name. */
  function ScriptAttention(names: seq<string>): (r: string)
    ensures names == [] <==> r == []
    ensures names != [] ==> r[|r| - 1] == '\n'
  {
    if names == [] then ""
    else ScriptAttention(names[..|names| - 1]) + "1. " + names[|names| - 1] + "\n"
  }

  /** The attention text of two lists one after the other is the two texts joined. */
  lemma {:induction false} ScriptAttentionOfConcat(a: seq<string>, b: seq<string>)
    ensures ScriptAttention(a + b) == ScriptAttention(a) + ScriptAttention(b)
  {
    if b != [] {
      var b' := b[..|b| - 1];
      assert (a + b)[..|a + b| - 1] == a + b';
      ScriptAttentionOfConcat(a, b');
    } else {
      assert a + b == a;
    }
  }

  /** pygit/pygit.py: every listed name has its own `1. <name>` line. */
  lemma {:induction false} ScriptAttentionHasLine(names: seq<string>, k: nat)
    requires k < |names|
    ensures Contains(ScriptAttention(names), "1. " + names[k] + "\n")
  {
    var init := names[..|names| - 1];
    var line := "1. " + names[|names| - 1] + "\n";
    assert ScriptAttention(names) == ScriptAttention(init) + line;
    if k == |names| - 1 {
      ContainsSelf(line);
    } else {
      ScriptAttentionHasLine(init, k);
    }
    ContainsInConcat(ScriptAttention(init), line, "1. " + names[k] + "\n");
  }

  /** pygit/pygit.py: the report section written for one repository. */
  function Section(e: Entry): string
  {
    "## " + e.name + "\n\n```cmd\n" + e.status + "```\n"
  }

  /** pygit/pygit.py: the `messages` list, one section per entry in visiting order. */
  function Sections(report: seq<Entry>): (r: seq<string>)
    ensures |r| == |report|
    ensures forall k :: 0 <= k < |r| ==> r[k] == Section(report[k])
  {
    if report == [] then [] else Sections(report[..|report| - 1]) + [Section(report[|report| - 1])]
  }

  /** The first line of a status file, with the time stamp it is named after. */
  function StatusHeader(stamp: string): string
  {
    "# Repository status as at " + stamp + "\n\n"
  }

  /** pygit/pygit.py: the attention part of the status file. */
  function ScriptAttentionPart(report: seq<Entry>): string
  {
    "## REPOS NEEDING ATTENTION\n\n" + ScriptAttention(Flagged(ScriptMarkers, report))
  }

  /** pygit/pygit.py: the rule and the sections joined by newlines. */
  function ScriptMessagesPart(report: seq<Entry>): string
  {
    "\n-------\n\n" + "## STATUS MESSAGES\n\n" + JoinWith("\n", Sections(report))
  }

  /** pygit/pygit.py: the status file `all_status` writes once every repository is in. */
  function ScriptStatusFile(stamp: string, report: seq<Entry>): string
  {
    StatusHeader(stamp) + ScriptAttentionPart(report) + ScriptMessagesPart(report)
  }

  /** The attention part of a finished status file lists a repository whose status is flagged. */
  lemma ScriptStatusListsFlagged(stamp: string, report: seq<Entry>, j: nat)
    requires j < |report| && NeedsAttention(ScriptMarkers, report[j].status)
    ensures Contains(ScriptStatusFile(stamp, report), "1. " + report[j].name + "\n")
  {
    var names := Flagged(ScriptMarkers, report);
    var line := "1. " + report[j].name + "\n";
    FlaggedExactly(ScriptMarkers, report, report[j].name);
    var k :| 0 <= k < |names| && names[k] == report[j].name;
    ScriptAttentionHasLine(names, k);
    ContainsInConcat("## REPOS NEEDING ATTENTION\n\n", ScriptAttention(names), line);
    ContainsInSandwich(StatusHeader(stamp), ScriptAttentionPart(report), ScriptMessagesPart(report), line);
  }

  /** A finished status file holds the section of every repository visited. */
  lemma ScriptStatusHasEverySection(stamp: string, report: seq<Entry>, j: nat)
    requires j < |report|
    ensures Contains(ScriptStatusFile(stamp, report), Section(report[j]))
  {
    JoinContainsEach("\n", Sections(report), j);
    ContainsInConcat("\n-------\n\n" + "## STATUS MESSAGES\n\n", JoinWith("\n", Sections(report)), Section(report[j]));
    ContainsInConcat(StatusHeader(stamp) + ScriptAttentionPart(report), ScriptMessagesPart(report), Section(report[j]));
  }

  /** build/lib/pygit/main.py: the flagged names numbered from 1 in visiting order. */
  function Numbered(names: seq<string>): (r: seq<string>)
    ensures |r| == |names|
    ensures forall k :: 0 <= k < |r| ==> r[k] == NatToString(k + 1) + ". " + names[k]
  {
    if names == [] then []
    else Numbered(names[..|names| - 1]) + [NatToString(|names|) + ". " + names[|names| - 1]]
  }

  /** build/lib/pygit/main.py: the numbered lines joined by newlines. */
  function PackageAttention(names: seq<string>): string
  {
    JoinWith("\n", Numbered(names))
  }

  /** pygit/api.py: the flagged names joined by newlines. */
  function ApiAttention(names: seq<string>): string
  {
    JoinWith("\n", names)
  }

  /** build/lib/pygit/main.py: the heading and text written for one repository. */
  function PackageSection(e: Entry): string
  {
    "## " + e.name + "\n\n" + e.status + "\n"
  }

  function PackageSections(report: seq<Entry>): (r: seq<string>)
    ensures |r| == |report|
    ensures forall k :: 0 <= k < |r| ==> r[k] == PackageSection(report[k])
  {
    if report == [] then [] else PackageSections(report[..|report| - 1]) + [PackageSection(report[|report| - 1])]
  }

  /** build/lib/pygit/main.py: the rule and the numbered attention list. */
  function PackageAttentionPart(report: seq<Entry>): string
  {
    "-------" + "\n## ATTENTION\n" + PackageAttention(Flagged(PackageMarkers, report))
  }

  /** build/lib/pygit/main.py: the status file, section after section as the repositories
      come in; the numbered attention list is added only when the batch completes. */
  function PackageStatusFile(stamp: string, report: seq<Entry>, complete: bool): string
  {
    StatusHeader(stamp) + Concat(PackageSections(report)) + (if complete then PackageAttentionPart(report) else "")
  }

  /** The k-th flagged repository of a completed run is listed under number k + 1. */
  lemma PackageStatusNumbersFlagged(stamp: string, report: seq<Entry>, k: nat)
    requires k < |Flagged(PackageMarkers, report)|
    ensures Contains(PackageStatusFile(stamp, report, true),
                     NatToString(k + 1) + ". " + Flagged(PackageMarkers, report)[k])
  {
    var numbered := Numbered(Flagged(PackageMarkers, report));
    JoinContainsEach("\n", numbered, k);
    ContainsInConcat("-------" + "\n## ATTENTION\n", JoinWith("\n", numbered), numbered[k]);
    ContainsInConcat(StatusHeader(stamp) + Concat(PackageSections(report)), PackageAttentionPart(report), numbered[k]);
  }

  /** Every repository visited, even in a run cut short, has its section in the file. */
  lemma PackageStatusHasEverySection(stamp: string, report: seq<Entry>, complete: bool, j: nat)
    requires j < |report|
    ensures Contains(PackageStatusFile(stamp, report, complete), PackageSection(report[j]))
  {
    ConcatContainsEach(PackageSections(report), j);
    ContainsInSandwich(StatusHeader(stamp), Concat(PackageSections(report)),
                       if complete then PackageAttentionPart(report) else "", PackageSection(report[j]));
  }
}
