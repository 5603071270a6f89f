/**
 * The upgrade/repair reconciliation engine: the two policy sets, the per-file
 * decision, the loop that writes fresh files over a project's NEXUS files, and
 * `appendToGitignore`.
 *
 * The project directory is a map from project-relative path to what a read
 * returns: a path is a key exactly when a regular file exists there, and the
 * value is `None` when reading that file fails.
 */
module Reconcile {
  import opened Text
  import opened Types
  import opened Classifier
  import opened Docs

  type Disk = map<string, Option<string>>

  datatype Mode = Upgrade | Repair

  /** Generated scaffolding an upgrade always overwrites. */
  const AlwaysReplace: set<string> := {
    ".nexus/ai/instructions.md", ".nexus/index.md", ".nexus/manifest.json", ".cursorrules",
    ".windsurfrules", ".clinerules", "AGENTS.md", ".github/copilot-instructions.md"}

  /** Accumulated knowledge an upgrade never overwrites. */
  const AlwaysPreserve: set<string> := {".nexus/docs/knowledge.md"}

  lemma PolicySetsDisjoint()
    ensures forall p | p in AlwaysReplace :: p !in AlwaysPreserve
  {
  }

  /** Which of the four lists a fresh file's path goes to. */
  datatype Outcome = Created | Repaired | Preserved | Replaced

  /** What the project holds at `p`: no file, a file whose read fails, or a file's text. */
  function Lookup(disk: Disk, p: string): Option<Option<string>> {
    if p in disk then Some(disk[p]) else None
  }

  /** The text the engine classifies: a failed read counts as the empty string. */
  function ReadText(read: Option<string>): string {
    match read
    case Some(c) => c
    case None => ""
  }

  /** The decision for one fresh file, given what the disk holds at its path. */
  function Decide(mode: Mode, path: string, found: Option<Option<string>>, parsesAsJson: string -> bool): (o: Outcome)
    ensures o == Created <==> found == None
    ensures o == Repaired <==> found.Some? && IsCorrupted(path, ReadText(found.value), parsesAsJson)
    ensures found == Some(None) ==> o == Repaired
    ensures mode == Repair ==> o != Replaced
    ensures o == Preserved ==> found.Some? && found.value.Some? && !IsCorrupted(path, found.value.value, parsesAsJson)
    ensures o == Preserved && mode == Upgrade ==>
      path !in AlwaysReplace && (path in AlwaysPreserve || IsPopulated(found.value.value))
    ensures o == Replaced ==> mode == Upgrade
    ensures o == Replaced ==> path !in AlwaysPreserve
    ensures o == Preserved <==>
      && found.Some? && !IsCorrupted(path, ReadText(found.value), parsesAsJson)
      && (mode == Repair || (path !in AlwaysReplace && (path in AlwaysPreserve || IsPopulated(ReadText(found.value)))))
    ensures o == Replaced <==>
      && found.Some? && !IsCorrupted(path, ReadText(found.value), parsesAsJson) && mode == Upgrade
      && (path in AlwaysReplace || (path !in AlwaysPreserve && !IsPopulated(ReadText(found.value))))
  {
    match found
    case None => Created
    case Some(read) =>
      var content := ReadText(read);
      if IsCorrupted(path, content, parsesAsJson) then Repaired
      else if mode.Repair? then Preserved
      else if path in AlwaysReplace then PolicySetsDisjoint(); Replaced
      else if path in AlwaysPreserve then Preserved
      else if IsPopulated(content) then Preserved
      else Replaced
  }

  /** `ReconcileResult`: the paths handled each way, in the order they were handled. */
  datatype ReconcileResult = ReconcileResult(
    replaced: seq<string>,
    preserved: seq<string>,
    created: seq<string>,
    repaired: seq<string>)

  const EmptyResult := ReconcileResult([], [], [], [])

  /** `path` pushed onto the list of outcome `o`. */
  function Record(r: ReconcileResult, o: Outcome, path: string): ReconcileResult {
    match o
    case Created => r.(created := r.created + [path])
    case Repaired => r.(repaired := r.repaired + [path])
    case Preserved => r.(preserved := r.preserved + [path])
    case Replaced => r.(replaced := r.replaced + [path])
  }

  /** The list of outcome `o`. */
  function ListOf(r: ReconcileResult, o: Outcome): seq<string> {
    match o
    case Created => r.created
    case Repaired => r.repaired
    case Preserved => r.preserved
    case Replaced => r.replaced
  }

  /** The disk after handling `f` with outcome `o`: everything but a preserved file is written. */
  function Handle(disk: Disk, f: GeneratedFile, o: Outcome): Disk {
    if o == Preserved then disk else disk[f.path := Some(f.content)]
  }

  datatype State = State(result: ReconcileResult, disk: Disk)

  /** The engine's state after handling the files of `canon` in order, starting from `disk0`. */
  function Run(canon: seq<GeneratedFile>, disk0: Disk, mode: Mode, parsesAsJson: string -> bool): State
    decreases |canon|
  {
    if canon == [] then State(EmptyResult, disk0)
    else
      var s := Run(canon[..|canon| - 1], disk0, mode, parsesAsJson);
      var f := canon[|canon| - 1];
      var o := Decide(mode, f.path, Lookup(s.disk, f.path), parsesAsJson);
      State(Record(s.result, o, f.path), Handle(s.disk, f, o))
  }

  /** One more file handled: the state after `canon[..i + 1]` follows from the state
      after `canon[..i]` by the decision for `canon[i]`. */
  lemma RunStep(canon: seq<GeneratedFile>, i: nat, disk0: Disk, mode: Mode, parsesAsJson: string -> bool)
    requires i < |canon|
    ensures var s := Run(canon[..i], disk0, mode, parsesAsJson);
      var f := canon[i];
      var o := Decide(mode, f.path, Lookup(s.disk, f.path), parsesAsJson);
      Run(canon[..i + 1], disk0, mode, parsesAsJson) == State(Record(s.result, o, f.path), Handle(s.disk, f, o))
  {
    assert canon[..i + 1][..i] == canon[..i];
  }

  /** The independent description of a list: the paths of the fresh files whose
      decision against the ORIGINAL disk is `o`, in their order. */
  function Select(canon: seq<GeneratedFile>, disk0: Disk, mode: Mode, parsesAsJson: string -> bool, o: Outcome): seq<string>
    decreases |canon|
  {
    if canon == [] then []
    else
      var f := canon[|canon| - 1];
      Select(canon[..|canon| - 1], disk0, mode, parsesAsJson, o)
      + (if Decide(mode, f.path, Lookup(disk0, f.path), parsesAsJson) == o then [f.path] else [])
  }

  /** A fresh file decided `o` on the original disk is on the list that `Select` gives
      for `o`. */
  lemma {:induction false} SelectHas(canon: seq<GeneratedFile>, disk0: Disk, mode: Mode, parsesAsJson: string -> bool,
                                     i: nat, o: Outcome)
    requires i < |canon|
    requires Decide(mode, canon[i].path, Lookup(disk0, canon[i].path), parsesAsJson) == o
    ensures canon[i].path in Select(canon, disk0, mode, parsesAsJson, o)
    decreases |canon|, 1
  {
    var n := |canon|;
    if i < n - 1 {
      SelectHasEarlier(canon, disk0, mode, parsesAsJson, i, o);
    } else {
      SelectPrefix(canon, disk0, mode, parsesAsJson, o);
      assert canon[n - 1] == canon[i];
    }
  }

  lemma {:induction false} SelectHasEarlier(canon: seq<GeneratedFile>, disk0: Disk, mode: Mode, parsesAsJson: string -> bool,
                                            i: nat, o: Outcome)
    requires i < |canon| - 1
    requires Decide(mode, canon[i].path, Lookup(disk0, canon[i].path), parsesAsJson) == o
    ensures canon[i].path in Select(canon, disk0, mode, parsesAsJson, o)
    decreases |canon|, 0
  {
    var pre := canon[..|canon| - 1];
    assert pre[i] == canon[i];
    SelectHas(pre, disk0, mode, parsesAsJson, i, o);
    SelectPrefix(canon, disk0, mode, parsesAsJson, o);
  }

  /** `Select` over a non-empty list extends `Select` over all but the last file, and
      ends with the last file's path exactly when it is decided `o`. */
  lemma SelectPrefix(canon: seq<GeneratedFile>, disk0: Disk, mode: Mode, parsesAsJson: string -> bool, o: Outcome)
    requires canon != []
    ensures var f := canon[|canon| - 1];
      var pre := Select(canon[..|canon| - 1], disk0, mode, parsesAsJson, o);
      Select(canon, disk0, mode, parsesAsJson, o)
        == pre + (if Decide(mode, f.path, Lookup(disk0, f.path), parsesAsJson) == o then [f.path] else [])
  {
  }

  /** The disk the engine promises, path by path: a fresh path decided Preserved on the
      original disk, and every path outside the fresh list, keeps what it had; every
      other fresh path holds its fresh content. */
  ghost predicate Promised(canon: seq<GeneratedFile>, disk0: Disk, mode: Mode, parsesAsJson: string -> bool, disk: Disk) {
    && (forall p | p !in Paths(canon) :: Lookup(disk, p) == Lookup(disk0, p))
    && (forall f | f in canon ::
          if Decide(mode, f.path, Lookup(disk0, f.path), parsesAsJson) == Preserved
          then Lookup(disk, f.path) == Lookup(disk0, f.path)
          else Lookup(disk, f.path) == Some(Some(f.content)))
  }

  lemma PathsPrefix(canon: seq<GeneratedFile>)
    requires canon != []
    ensures Paths(canon) == Paths(canon[..|canon| - 1]) + [canon[|canon| - 1].path]
  {
  }

  lemma DistinctPrefix(canon: seq<GeneratedFile>)
    requires canon != [] && Distinct(Paths(canon))
    ensures Distinct(Paths(canon[..|canon| - 1]))
    ensures canon[|canon| - 1].path !in Paths(canon[..|canon| - 1])
  {
    var n := |canon|;
    var ps := Paths(canon);
    var pre := Paths(canon[..n - 1]);
    forall i, j | 0 <= i < j < |pre|
      ensures pre[i] != pre[j]
    {
      assert pre[i] == ps[i] && pre[j] == ps[j];
    }
    forall i | 0 <= i < |pre|
      ensures pre[i] != canon[n - 1].path
    {
      assert pre[i] == ps[i] && ps[n - 1] == canon[n - 1].path;
    }
  }

  /** With distinct fresh paths, every list is the fresh paths decided that way on the
      original disk, in fresh order, and the final disk is the promised one. */
  lemma RunSpec(canon: seq<GeneratedFile>, disk0: Disk, mode: Mode, parsesAsJson: string -> bool)
    requires Distinct(Paths(canon))
    ensures var s := Run(canon, disk0, mode, parsesAsJson);
      && (forall o :: ListOf(s.result, o) == Select(canon, disk0, mode, parsesAsJson, o))
      && Promised(canon, disk0, mode, parsesAsJson, s.disk)
  {
    RunLists(canon, disk0, mode, parsesAsJson);
    RunDisk(canon, disk0, mode, parsesAsJson);
  }

  /** The disk half of `RunSpec`: each fresh file is handled against what the
      original disk held at its path, since no earlier file wrote there. */
  lemma {:induction false} RunDisk(canon: seq<GeneratedFile>, disk0: Disk, mode: Mode, parsesAsJson: string -> bool)
    requires Distinct(Paths(canon))
    ensures Promised(canon, disk0, mode, parsesAsJson, Run(canon, disk0, mode, parsesAsJson).disk)
  {
    if canon != [] {
      var pre := canon[..|canon| - 1];
      var f := canon[|canon| - 1];
      DistinctPrefix(canon);
      PathsPrefix(canon);
      RunDisk(pre, disk0, mode, parsesAsJson);
      var s := Run(pre, disk0, mode, parsesAsJson);
      assert Lookup(s.disk, f.path) == Lookup(disk0, f.path);
      var o := Decide(mode, f.path, Lookup(disk0, f.path), parsesAsJson);
      var d := Handle(s.disk, f, o);
      assert Run(canon, disk0, mode, parsesAsJson).disk == d;
      forall g | g in canon
        ensures if Decide(mode, g.path, Lookup(disk0, g.path), parsesAsJson) == Preserved
                then Lookup(d, g.path) == Lookup(disk0, g.path)
                else Lookup(d, g.path) == Some(Some(g.content))
      {
        if g != f {
          var k :| 0 <= k < |canon| && canon[k] == g;
          assert k < |pre|;
          assert g in pre;
          assert g.path == Paths(pre)[k];
        }
      }
    }
  }

  /** The lists half of `RunSpec`: each file's decision is the one taken on the
      original disk, appended to its list in fresh order. */
  lemma {:induction false} RunLists(canon: seq<GeneratedFile>, disk0: Disk, mode: Mode, parsesAsJson: string -> bool)
    requires Distinct(Paths(canon))
    ensures forall o :: ListOf(Run(canon, disk0, mode, parsesAsJson).result, o) == Select(canon, disk0, mode, parsesAsJson, o)
  {
    if canon != [] {
      var pre := canon[..|canon| - 1];
      var f := canon[|canon| - 1];
      DistinctPrefix(canon);
      PathsPrefix(canon);
      RunLists(pre, disk0, mode, parsesAsJson);
      RunDisk(pre, disk0, mode, parsesAsJson);
      var s := Run(pre, disk0, mode, parsesAsJson);
      assert Lookup(s.disk, f.path) == Lookup(disk0, f.path);
    }
  }

  /** Every path of the four lists, counted with repetition. */
  function AllListed(r: ReconcileResult): multiset<string> {
    multiset(r.replaced) + multiset(r.preserved) + multiset(r.created) + multiset(r.repaired)
  }

  lemma RecordAddsOne(r: ReconcileResult, o: Outcome, path: string)
    ensures AllListed(Record(r, o, path)) == AllListed(r) + multiset{path}
  {
  }

  /** The four lists together hold each fresh path once per fresh file carrying it
      (whatever the paths), so their lengths add up to the number of fresh files. */
  lemma {:induction false} RunPartition(canon: seq<GeneratedFile>, disk0: Disk, mode: Mode, parsesAsJson: string -> bool)
    ensures AllListed(Run(canon, disk0, mode, parsesAsJson).result) == multiset(Paths(canon))
    ensures var r := Run(canon, disk0, mode, parsesAsJson).result;
      |r.replaced| + |r.preserved| + |r.created| + |r.repaired| == |canon|
  {
    if canon != [] {
      var pre := canon[..|canon| - 1];
      var f := canon[|canon| - 1];
      PathsPrefix(canon);
      RunPartition(pre, disk0, mode, parsesAsJson);
      var s := Run(pre, disk0, mode, parsesAsJson);
      var o := Decide(mode, f.path, Lookup(s.disk, f.path), parsesAsJson);
      RecordAddsOne(s.result, o, f.path);
    }
    var r := Run(canon, disk0, mode, parsesAsJson).result;
    assert |AllListed(r)| == |r.replaced| + |r.preserved| + |r.created| + |r.repaired|;
  }

  /** Repair never replaces anything. */
  lemma {:induction false} RepairNeverReplaces(canon: seq<GeneratedFile>, disk0: Disk, parsesAsJson: string -> bool)
    ensures Run(canon, disk0, Repair, parsesAsJson).result.replaced == []
  {
    if canon != [] {
      RepairNeverReplaces(canon[..|canon| - 1], disk0, parsesAsJson);
    }
  }

  /** Every fresh path holds a readable, structurally sound file. */
  predicate AllSound(canon: seq<GeneratedFile>, disk: Disk, parsesAsJson: string -> bool) {
    forall f | f in canon ::
      f.path in disk && disk[f.path].Some? && !IsCorrupted(f.path, disk[f.path].value, parsesAsJson)
  }

  /** Repair over a project whose files are all present and sound writes nothing and
      reports every fresh path as preserved. */
  lemma {:induction false} RepairOfSound(canon: seq<GeneratedFile>, disk0: Disk, parsesAsJson: string -> bool)
    requires AllSound(canon, disk0, parsesAsJson)
    ensures Run(canon, disk0, Repair, parsesAsJson) == State(ReconcileResult([], Paths(canon), [], []), disk0)
  {
    if canon != [] {
      var pre := canon[..|canon| - 1];
      assert forall f | f in pre :: f in canon;
      PathsPrefix(canon);
      RepairOfSound(pre, disk0, parsesAsJson);
      assert canon[|canon| - 1] in canon;
    }
  }

  /** After any run whose fresh contents are sound, every fresh path holds a sound file. */
  lemma RunLeavesSound(canon: seq<GeneratedFile>, disk0: Disk, mode: Mode, parsesAsJson: string -> bool)
    requires Distinct(Paths(canon))
    requires forall f | f in canon :: !IsCorrupted(f.path, f.content, parsesAsJson)
    ensures AllSound(canon, Run(canon, disk0, mode, parsesAsJson).disk, parsesAsJson)
  {
    RunSpec(canon, disk0, mode, parsesAsJson);
  }

  /** Repair right after an upgrade or a repair is a no-op that preserves every path. */
  lemma RepairAfterRun(canon: seq<GeneratedFile>, disk0: Disk, mode: Mode, parsesAsJson: string -> bool)
    requires Distinct(Paths(canon))
    requires forall f | f in canon :: !IsCorrupted(f.path, f.content, parsesAsJson)
    ensures var d1 := Run(canon, disk0, mode, parsesAsJson).disk;
      Run(canon, d1, Repair, parsesAsJson) == State(ReconcileResult([], Paths(canon), [], []), d1)
  {
    RunLeavesSound(canon, disk0, mode, parsesAsJson);
    RepairOfSound(canon, Run(canon, disk0, mode, parsesAsJson).disk, parsesAsJson);
  }

  /** Two disks that agree on every path are the same disk. */
  lemma SameLookups(a: Disk, b: Disk)
    requires forall p :: Lookup(a, p) == Lookup(b, p)
    ensures a == b
  {
    forall p
      ensures p in a <==> p in b
      ensures p in a ==> a[p] == b[p]
    {
      assert Lookup(a, p) == Lookup(b, p);
    }
  }

  /** A second upgrade with the same fresh files leaves the disk as the first left it. */
  lemma UpgradeStable(canon: seq<GeneratedFile>, disk0: Disk, parsesAsJson: string -> bool)
    requires Distinct(Paths(canon))
    requires forall f | f in canon :: !IsCorrupted(f.path, f.content, parsesAsJson)
    ensures var d1 := Run(canon, disk0, Upgrade, parsesAsJson).disk;
      Run(canon, d1, Upgrade, parsesAsJson).disk == d1
  {
    var d1 := Run(canon, disk0, Upgrade, parsesAsJson).disk;
    var d2 := Run(canon, d1, Upgrade, parsesAsJson).disk;
    RunSpec(canon, disk0, Upgrade, parsesAsJson);
    RunSpec(canon, d1, Upgrade, parsesAsJson);
    forall p
      ensures Lookup(d2, p) == Lookup(d1, p)
    {
      if p in Paths(canon) {
        var k :| 0 <= k < |canon| && Paths(canon)[k] == p;
        var f := canon[k];
        assert f in canon;
        if Decide(Upgrade, p, Lookup(disk0, p), parsesAsJson) == Preserved {
          assert Lookup(d1, p) == Lookup(disk0, p);
        }
      }
    }
    SameLookups(d2, d1);
  }

  /** An upgrade keeps a file the user has filled in: a fresh file whose text on disk is
      sound, whose path is not always replaced, and which is either always preserved or
      populated, keeps that text and is listed as preserved. */
  lemma UpgradeKeepsFilled(canon: seq<GeneratedFile>, disk0: Disk, parsesAsJson: string -> bool,
                           f: GeneratedFile, c: string)
    requires Distinct(Paths(canon))
    requires f in canon && Lookup(disk0, f.path) == Some(Some(c))
    requires !IsCorrupted(f.path, c, parsesAsJson) && f.path !in AlwaysReplace
    requires f.path in AlwaysPreserve || IsPopulated(c)
    ensures var s := Run(canon, disk0, Upgrade, parsesAsJson);
      Lookup(s.disk, f.path) == Some(Some(c)) && f.path in s.result.preserved
  {
    RunSpec(canon, disk0, Upgrade, parsesAsJson);
    var i :| 0 <= i < |canon| && canon[i] == f;
    SelectHas(canon, disk0, Upgrade, parsesAsJson, i, Preserved);
  }

  /** The other side: a fresh file whose sound text on disk is an unfilled template (and
      not always preserved) is overwritten with its fresh content and listed as replaced. */
  lemma UpgradeReplacesTemplate(canon: seq<GeneratedFile>, disk0: Disk, parsesAsJson: string -> bool,
                                f: GeneratedFile, c: string)
    requires Distinct(Paths(canon))
    requires f in canon && Lookup(disk0, f.path) == Some(Some(c))
    requires !IsCorrupted(f.path, c, parsesAsJson) && f.path !in AlwaysPreserve && !IsPopulated(c)
    ensures var s := Run(canon, disk0, Upgrade, parsesAsJson);
      Lookup(s.disk, f.path) == Some(Some(f.content)) && f.path in s.result.replaced
  {
    RunSpec(canon, disk0, Upgrade, parsesAsJson);
    var i :| 0 <= i < |canon| && canon[i] == f;
    SelectHas(canon, disk0, Upgrade, parsesAsJson, i, Replaced);
  }

  /* ── the fresh files of an upgrade or a repair ── */

  /** `[...generateDocs(config), ...generateAiConfig(config)]`: the eleven docs with
      `localOnly` left at its default `false` and no adoption context, then the AI
      tool files, which are a parameter here. */
  function FreshFiles(config: NexusConfig, st: Stamp, ai: seq<GeneratedFile>): seq<GeneratedFile> {
    DocFiles(config, false, NoContext, st) + ai
  }

  lemma PathsAppend(a: seq<GeneratedFile>, b: seq<GeneratedFile>)
    ensures Paths(a + b) == Paths(a) + Paths(b)
  {
    var ps := Paths(a + b);
    assert forall i | 0 <= i < |ps| :: ps[i] == (Paths(a) + Paths(b))[i];
  }

  /** The AI tool files as the engine needs them: distinct paths, none of them a doc path. */
  predicate SeparateAiFiles(ai: seq<GeneratedFile>) {
    Distinct(Paths(ai)) && forall p | p in Paths(ai) :: p !in DocPaths
  }

  /** The fresh paths are the eleven doc paths, then the AI files' paths, all distinct. */
  lemma FreshPaths(config: NexusConfig, localOnly: bool, st: Stamp, ai: seq<GeneratedFile>)
    requires SeparateAiFiles(ai)
    ensures Paths(DocFiles(config, localOnly, NoContext, st) + ai) == DocPaths + Paths(ai)
    ensures Distinct(Paths(DocFiles(config, localOnly, NoContext, st) + ai))
  {
    PathsAppend(DocFiles(config, localOnly, NoContext, st), ai);
    DocFilesPaths(config, localOnly, NoContext, st);
    DocPathsDistinct();
    var ps := DocPaths + Paths(ai);
    forall i, j | 0 <= i < j < |ps|
      ensures ps[i] != ps[j]
    {
      if j >= |DocPaths| && i < |DocPaths| {
        assert ps[j] in Paths(ai);
      }
    }
  }

  /** Whatever state an upgrade or a repair starts from, a repair right after it writes
      nothing and preserves every fresh path, given that the AI files are sound and
      the manifest's text parses. */
  lemma RepairAfterUpgrade(config: NexusConfig, st: Stamp, ai: seq<GeneratedFile>, disk0: Disk,
                           parsesAsJson: string -> bool)
    requires SeparateAiFiles(ai)
    requires forall f | f in ai :: !IsCorrupted(f.path, f.content, parsesAsJson)
    requires var m := ManifestFile(config, false, st).content; parsesAsJson(m) && !AllSpace(m)
    ensures var canon := FreshFiles(config, st, ai);
      var d1 := Run(canon, disk0, Upgrade, parsesAsJson).disk;
      Run(canon, d1, Repair, parsesAsJson) == State(ReconcileResult([], Paths(canon), [], []), d1)
  {
    FreshPaths(config, false, st, ai);
    DocFilesSound(config, false, NoContext, st, parsesAsJson);
    RepairAfterRun(FreshFiles(config, st, ai), disk0, Upgrade, parsesAsJson);
  }

  /** After an upgrade `.nexus/manifest.json` holds the manifest with `localOnly: false`,
      whatever the configuration and whatever the manifest on disk recorded. */
  lemma UpgradeResetsLocalOnly(config: NexusConfig, st: Stamp, ai: seq<GeneratedFile>, disk0: Disk,
                               parsesAsJson: string -> bool)
    requires SeparateAiFiles(ai)
    ensures Lookup(Run(FreshFiles(config, st, ai), disk0, Upgrade, parsesAsJson).disk, ".nexus/manifest.json")
         == Some(Some(st.stringify(ManifestOf(config, false, st.timestamp, st.cliVersion)) + "\n"))
  {
    ManifestWritten(config, false, st, ai, disk0, parsesAsJson);
  }

  /** `generateDocs` with the flag the project recorded, then the AI tool files. */
  function FreshFilesKeepingLocalOnly(config: NexusConfig, localOnly: bool, st: Stamp, ai: seq<GeneratedFile>)
    : seq<GeneratedFile>
  {
    DocFiles(config, localOnly, NoContext, st) + ai
  }

  /** With the recorded flag passed on, an upgrade writes a manifest that keeps it. */
  lemma UpgradeKeepsLocalOnly(config: NexusConfig, localOnly: bool, st: Stamp, ai: seq<GeneratedFile>, disk0: Disk,
                              parsesAsJson: string -> bool)
    requires SeparateAiFiles(ai)
    ensures Lookup(Run(FreshFilesKeepingLocalOnly(config, localOnly, st, ai), disk0, Upgrade, parsesAsJson).disk,
                   ".nexus/manifest.json")
         == Some(Some(st.stringify(ManifestOf(config, localOnly, st.timestamp, st.cliVersion)) + "\n"))
  {
    ManifestWritten(config, localOnly, st, ai, disk0, parsesAsJson);
  }

  /** An upgrade always writes the manifest: it is created when missing, repaired when
      broken and otherwise replaced. */
  lemma ManifestWritten(config: NexusConfig, localOnly: bool, st: Stamp, ai: seq<GeneratedFile>, disk0: Disk,
                        parsesAsJson: string -> bool)
    requires SeparateAiFiles(ai)
    ensures Lookup(Run(DocFiles(config, localOnly, NoContext, st) + ai, disk0, Upgrade, parsesAsJson).disk,
                   ".nexus/manifest.json")
         == Some(Some(ManifestFile(config, localOnly, st).content))
  {
    var canon := DocFiles(config, localOnly, NoContext, st) + ai;
    var m := ManifestFile(config, localOnly, st);
    FreshPaths(config, localOnly, st, ai);
    RunSpec(canon, disk0, Upgrade, parsesAsJson);
    assert m in canon;
    assert Decide(Upgrade, m.path, Lookup(disk0, m.path), parsesAsJson) != Preserved;
  }

  /** `nexus upgrade` keeps every doc the user has filled in: at any doc path other than
      the manifest, a sound populated file (or the knowledge log, whatever it says)
      keeps its text and is listed as preserved. */
  lemma UpgradeKeepsFilledDocs(config: NexusConfig, st: Stamp, ai: seq<GeneratedFile>, disk0: Disk,
                               parsesAsJson: string -> bool, p: string, c: string)
    requires SeparateAiFiles(ai)
    requires p in DocPaths && p != ".nexus/manifest.json"
    requires Lookup(disk0, p) == Some(Some(c)) && !IsCorrupted(p, c, parsesAsJson)
    requires p == ".nexus/docs/knowledge.md" || IsPopulated(c)
    ensures var s := Run(FreshFiles(config, st, ai), disk0, Upgrade, parsesAsJson);
      Lookup(s.disk, p) == Some(Some(c)) && p in s.result.preserved
  {
    DocPathFresh(config, st, ai, p);
    DocPathsPolicy(p);
    UpgradeKeepsFilledPath(FreshFiles(config, st, ai), disk0, parsesAsJson, p, c);
  }

  lemma DocPathFresh(config: NexusConfig, st: Stamp, ai: seq<GeneratedFile>, p: string)
    requires SeparateAiFiles(ai) && p in DocPaths
    ensures Distinct(Paths(FreshFiles(config, st, ai))) && p in Paths(FreshFiles(config, st, ai))
  {
    FreshPaths(config, false, st, ai);
  }

  lemma UpgradeKeepsFilledPath(canon: seq<GeneratedFile>, disk0: Disk, parsesAsJson: string -> bool, p: string, c: string)
    requires Distinct(Paths(canon)) && p in Paths(canon)
    requires Lookup(disk0, p) == Some(Some(c)) && !IsCorrupted(p, c, parsesAsJson) && p !in AlwaysReplace
    requires p in AlwaysPreserve || IsPopulated(c)
    ensures var s := Run(canon, disk0, Upgrade, parsesAsJson);
      Lookup(s.disk, p) == Some(Some(c)) && p in s.result.preserved
  {
    var i :| 0 <= i < |canon| && Paths(canon)[i] == p;
    UpgradeKeepsFilled(canon, disk0, parsesAsJson, canon[i], c);
  }

  /** The manifest is the only doc path an upgrade always replaces, and the knowledge
      log the only one it always preserves. */
  lemma DocPathsPolicy(p: string)
    requires p in DocPaths
    ensures p in AlwaysReplace <==> p == ".nexus/manifest.json"
    ensures p in AlwaysPreserve <==> p == ".nexus/docs/knowledge.md"
  {
  }

  /* ── the project directory ── */

  /** A project directory whose files the engine reads and writes in place. */
  class ProjectDir {
    var disk: Disk

    constructor(files: Disk)
      ensures disk == files
    {
      disk := files;
    }

    /** `writeFile`: creates or overwrites one regular file. */
    method WriteFile(path: string, content: string)
      modifies this
      ensures disk == old(disk)[path := Some(content)]
    {
      disk := disk[path := Some(content)];
    }

    /** `reconcileNexusFiles`: each fresh file in turn is created, repaired, preserved
        or replaced, and its path recorded in that list. */
    method ReconcileNexusFiles(canon: seq<GeneratedFile>, mode: Mode, parsesAsJson: string -> bool)
      returns (result: ReconcileResult)
      modifies this
      ensures State(result, disk) == Run(canon, old(disk), mode, parsesAsJson)
    {
      result := EmptyResult;
      for i := 0 to |canon|
        invariant State(result, disk) == Run(canon[..i], old(disk), mode, parsesAsJson)
      {
        var file := canon[i];
        RunStep(canon, i, old(disk), mode, parsesAsJson);
        ghost var o := Decide(mode, file.path, Lookup(disk, file.path), parsesAsJson);
        if file.path !in disk {
          WriteFile(file.path, file.content);
          result := result.(created := result.created + [file.path]);
          continue;
        }
        var existing := disk[file.path];
        var content := if existing.Some? then existing.value else "";
        var corrupted := IsCorrupted(file.path, content, parsesAsJson);
        if corrupted {
          WriteFile(file.path, file.content);
          result := result.(repaired := result.repaired + [file.path]);
          continue;
        }
        if mode == Repair {
          result := result.(preserved := result.preserved + [file.path]);
          continue;
        }
        if file.path in AlwaysReplace {
          WriteFile(file.path, file.content);
          result := result.(replaced := result.replaced + [file.path]);
          continue;
        }
        if file.path in AlwaysPreserve {
          result := result.(preserved := result.preserved + [file.path]);
          continue;
        }
        if IsPopulated(content) {
          result := result.(preserved := result.preserved + [file.path]);
        } else {
          WriteFile(file.path, file.content);
          result := result.(replaced := result.replaced + [file.path]);
        }
      }
      assert canon[..|canon|] == canon;
    }

    /** `upgradeProject`. */
    method UpgradeProject(config: NexusConfig, st: Stamp, ai: seq<GeneratedFile>, parsesAsJson: string -> bool)
      returns (result: ReconcileResult)
      modifies this
      ensures State(result, disk) == Run(FreshFiles(config, st, ai), old(disk), Upgrade, parsesAsJson)
    {
      var docs := GenerateDocs(config, false, NoContext, st);
      result := ReconcileNexusFiles(docs + ai, Upgrade, parsesAsJson);
    }

    /** `upgradeProject` as evidently intended: the docs carry the recorded `localOnly`. */
    method UpgradeKeepingLocalOnly(config: NexusConfig, localOnly: bool, st: Stamp, ai: seq<GeneratedFile>,
                                   parsesAsJson: string -> bool)
      returns (result: ReconcileResult)
      modifies this
      ensures State(result, disk) == Run(FreshFilesKeepingLocalOnly(config, localOnly, st, ai), old(disk), Upgrade, parsesAsJson)
    {
      var docs := GenerateDocs(config, localOnly, NoContext, st);
      result := ReconcileNexusFiles(docs + ai, Upgrade, parsesAsJson);
    }

    /** `repairProject`. */
    method RepairProject(config: NexusConfig, st: Stamp, ai: seq<GeneratedFile>, parsesAsJson: string -> bool)
      returns (result: ReconcileResult)
      modifies this
      ensures State(result, disk) == Run(FreshFiles(config, st, ai), old(disk), Repair, parsesAsJson)
    {
      var docs := GenerateDocs(config, false, NoContext, st);
      result := ReconcileNexusFiles(docs + ai, Repair, parsesAsJson);
    }

    /** `appendToGitignore`. */
    method AppendToGitignore()
      modifies this
      ensures disk == WithGitignoreEntry(old(disk))
    {
      GitignoreFreshIsTrimmedEntry();
      if GitignorePath in disk {
        var content := disk[GitignorePath];
        if content == None || content == Some("") {
          WriteFile(GitignorePath, Trim(GitignoreEntry()) + "\n");
          return;
        }
        if Includes(content.value, ".nexus/") {
          return;
        }
        WriteFile(GitignorePath, content.value + GitignoreEntry());
      } else {
        WriteFile(GitignorePath, Trim(GitignoreEntry()) + "\n");
      }
    }
  }

  /* ── .gitignore for local-only mode ── */

  const GitignorePath := ".gitignore"

  /** The local-only block without its surrounding newlines. */
  const GitignoreBlock := "# NEXUS (local-only mode)\n.nexus/"

  /** The entry appended to an existing `.gitignore`. */
  function GitignoreEntry(): string {
    "\n" + GitignoreBlock + "\n"
  }

  /** The whole text of a `.gitignore` created (or refilled) for local-only mode. */
  function GitignoreFresh(): string {
    GitignoreBlock + "\n"
  }

  lemma TrimNewlines(b: string)
    requires b != [] && !IsSpace(b[0]) && !IsSpace(b[|b| - 1])
    ensures Trim("\n" + b + "\n") == b
  {
    var e := "\n" + b + "\n";
    assert e[1..] == b + "\n";
    assert TrimStart(e) == b + "\n";
    assert (b + "\n")[..|b|] == b;
  }

  /** `entry.trim() + '\n'` is the block followed by one newline. */
  lemma GitignoreFreshIsTrimmedEntry()
    ensures Trim(GitignoreEntry()) + "\n" == GitignoreFresh()
  {
    assert GitignoreBlock[0] == '#' && GitignoreBlock[|GitignoreBlock| - 1] == '/';
    TrimNewlines(GitignoreBlock);
  }

  /** The text `appendToGitignore` writes given what `.gitignore` holds, or `None`
      when it writes nothing. */
  function GitignoreWrite(found: Option<Option<string>>): Option<string> {
    match found
    case None => Some(GitignoreFresh())
    case Some(None) => Some(GitignoreFresh())
    case Some(Some(c)) =>
      if c == "" then Some(GitignoreFresh())
      else if Includes(c, ".nexus/") then None
      else Some(c + GitignoreEntry())
  }

  function WithGitignoreEntry(disk: Disk): Disk {
    match GitignoreWrite(Lookup(disk, GitignorePath))
    case None => disk
    case Some(t) => disk[GitignorePath := Some(t)]
  }

  lemma BlockIgnoresNexus()
    ensures Includes(GitignoreBlock, ".nexus/")
  {
    assert GitignoreBlock[26..33] == ".nexus/";
    IncludesAt(GitignoreBlock, ".nexus/", 26);
  }

  lemma IncludesWrapped(b: string, p: string)
    requires p != [] && Includes(b, p)
    ensures Includes(b + "\n", p) && Includes("\n" + b + "\n", p)
  {
    IncludesPrefix(b, "\n", p);
    IncludesSuffix("\n", b, p);
    IncludesPrefix("\n" + b, "\n", p);
  }

  /** Both texts the call may write mention `.nexus/`. */
  lemma EntryIgnoresNexus()
    ensures Includes(GitignoreFresh(), ".nexus/") && Includes(GitignoreEntry(), ".nexus/")
  {
    BlockIgnoresNexus();
    IncludesWrapped(GitignoreBlock, ".nexus/");
  }

  /** After the call `.gitignore` is a readable file that mentions `.nexus/`; nothing
      else in the project changes; text already there is kept as a prefix. */
  lemma GitignoreAfterAppend(disk: Disk)
    ensures var d := WithGitignoreEntry(disk);
      && GitignorePath in d && d[GitignorePath].Some?
      && Includes(d[GitignorePath].value, ".nexus/")
      && (forall p | p != GitignorePath :: Lookup(d, p) == Lookup(disk, p))
    ensures Lookup(disk, GitignorePath).Some? && disk[GitignorePath].Some? ==>
      StartsWith(WithGitignoreEntry(disk)[GitignorePath].value, disk[GitignorePath].value)
  {
    EntryIgnoresNexus();
    match Lookup(disk, GitignorePath)
    case Some(Some(c)) =>
      if c != "" && !Includes(c, ".nexus/") {
        IncludesSuffix(c, GitignoreEntry(), ".nexus/");
        assert (c + GitignoreEntry())[..|c|] == c;
      }
    case _ =>
  }

  /** A second call changes nothing. */
  lemma GitignoreIdempotent(disk: Disk)
    ensures WithGitignoreEntry(WithGitignoreEntry(disk)) == WithGitignoreEntry(disk)
  {
    GitignoreAfterAppend(disk);
    EntryIgnoresNexus();
    var d := WithGitignoreEntry(disk);
    assert d[GitignorePath].value != "" by {
      assert |d[GitignorePath].value| >= 7 by {
        var i := IndexOf(d[GitignorePath].value, ".nexus/", 0);
        assert HasAt(d[GitignorePath].value, i, ".nexus/");
      }
    }
  }
}
