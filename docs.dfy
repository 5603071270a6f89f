/**
 * The documentation generator (src/generators/docs.ts): the eight template docs,
 * the project index, the knowledge log and the manifest, in the order the
 * reconcile engine receives them.
 *
 * Each template doc's text is its frontmatter, exact, followed by a body. A body
 * is modelled by the lines of the template that carry a configuration or
 * interview value, joined in their order; the fixed prose between those lines is
 * not part of the model. Long literal lines are written as a few shorter pieces
 * so that facts about their letters stay cheap to check.
 */
module Docs {
  import opened Text
  import opened Types
  import opened Classifier

  /** The pre-adoption interview answers. A missing answer and an empty one are
      both falsy in the source, so both are the empty string here. */
  datatype AdoptionContext = AdoptionContext(
    projectDescription: string,
    architectureType: string,
    techStack: string,
    painPoints: string)

  const NoContext := AdoptionContext("", "", "", "")

  /** `getFrameworkDisplay`: a label for each declared framework, any other id unchanged. */
  function FrameworkDisplay(framework: string): (r: string)
    ensures IsDeclaredFrameworkId(framework) ==> r != framework && r != []
    ensures !IsDeclaredFrameworkId(framework) ==> r == framework
  {
    if framework == "nextjs" then "Next.js 15 " + "(App Router)"
    else if framework == "react-vite" then "React + Vite"
    else if framework == "sveltekit" then "SvelteKit"
    else if framework == "nuxt" then "Nuxt 3"
    else if framework == "astro" then "Astro"
    else if framework == "remix" then "Remix"
    else framework
  }

  /** Distinct declared frameworks get distinct labels. */
  lemma FrameworkDisplayInjective(a: string, b: string)
    requires IsDeclaredFrameworkId(a) && IsDeclaredFrameworkId(b) && a != b
    ensures FrameworkDisplay(a) != FrameworkDisplay(b)
  {
  }

  /* ── Frontmatter ── */

  /** `frontmatter(docId, title)` stamped with `date`, one literal per YAML line. */
  function Frontmatter(docId: string, title: string, date: string): string {
    "---\n" + "nexus_doc: true\n" + "id: \"" + docId + "\"\n" + "title: \"" + title + "\"\n"
    + "status: template\n" + "confidence: low\n" + "last_updated: \"" + date + "\"\n" + "---\n\n"
  }

  /** An occurrence survives appending text after it. */
  lemma HasAtExtend(s: string, t: string, i: int, p: string)
    requires HasAt(s, i, p)
    ensures HasAt(s + t, i, p)
  {
    assert (s + t)[i..i + |p|] == s[i..i + |p|];
  }

  /** The frontmatter opens the text with a fence and closes with a second fence on
      its own line. */
  lemma FrontmatterFences(docId: string, title: string, date: string)
    ensures StartsWith(Frontmatter(docId, title, date), "---\n")
    ensures EndsWith(Frontmatter(docId, title, date), "\n---\n\n")
  {
    var f := Frontmatter(docId, title, date);
    assert f[..4] == "---\n";
    assert f[|f| - 6..] == "\n---\n\n";
  }

  /** The frontmatter marks the doc as a NEXUS template of low confidence. */
  lemma FrontmatterMarks(docId: string, title: string, date: string)
    ensures var f := Frontmatter(docId, title, date);
      && Includes(f, "nexus_doc: true\n")
      && Includes(f, "status: template\n")
      && Includes(f, "confidence: low\n")
  {
    var f := Frontmatter(docId, title, date);
    var s := "---\n" + "nexus_doc: true\n";
    assert HasAt(s, 4, "nexus_doc: true\n");
    HasAtExtend(s, "id: \"", 4, "nexus_doc: true\n"); s := s + "id: \"";
    HasAtExtend(s, docId, 4, "nexus_doc: true\n"); s := s + docId;
    HasAtExtend(s, "\"\n", 4, "nexus_doc: true\n"); s := s + "\"\n";
    HasAtExtend(s, "title: \"", 4, "nexus_doc: true\n"); s := s + "title: \"";
    HasAtExtend(s, title, 4, "nexus_doc: true\n"); s := s + title;
    HasAtExtend(s, "\"\n", 4, "nexus_doc: true\n"); s := s + "\"\n";
    var st := |s|;
    assert (s + "status: template\n")[st..st + 17] == "status: template\n";
    HasAtExtend(s, "status: template\n", 4, "nexus_doc: true\n"); s := s + "status: template\n";
    var cf := |s|;
    assert (s + "confidence: low\n")[cf..cf + 16] == "confidence: low\n";
    HasAtExtend(s, "confidence: low\n", 4, "nexus_doc: true\n");
    HasAtExtend(s, "confidence: low\n", st, "status: template\n");
    s := s + "confidence: low\n";
    var rest := "last_updated: \"" + date + "\"\n" + "---\n\n";
    assert f == s + rest;
    HasAtExtend(s, rest, 4, "nexus_doc: true\n");
    HasAtExtend(s, rest, st, "status: template\n");
    HasAtExtend(s, rest, cf, "confidence: low\n");
    IncludesAt(f, "nexus_doc: true\n", 4);
    IncludesAt(f, "status: template\n", st);
    IncludesAt(f, "confidence: low\n", cf);
  }

  /** Whatever follows it, a text that begins with the frontmatter passes the
      structural check at any path that is not a JSON file. */
  lemma FrontmatterSound(docId: string, title: string, date: string, body: string, path: string,
                         parsesAsJson: string -> bool)
    requires !EndsWith(path, ".json")
    ensures !IsCorrupted(path, Frontmatter(docId, title, date) + body, parsesAsJson)
  {
    var f := Frontmatter(docId, title, date);
    var c := f + body;
    FrontmatterFences(docId, title, date);
    assert c[..3] == f[..3] == "---";
    assert c[|f| - 5..|f| - 2] == f[|f| - 5..|f| - 2] == "---";
    FencedNotCorrupted(path, c, |f| - 5, parsesAsJson);
  }

  lemma FrontmatterPieces()
    ensures Piece("---\n") && Piece("nexus_doc: true\n") && Piece("id: \"") && Piece("\"\n")
    ensures Piece("title: \"") && Piece("status: template\n") && Piece("confidence: low\n")
    ensures Piece("last_updated: \"") && Piece("---\n\n")
  {
  }

  /** The frontmatter spells `pop` only where its id, title or date does. */
  lemma FrontmatterNoPop(docId: string, title: string, date: string)
    requires NoPop(docId) && NoPop(title) && NoPop(date)
    ensures NoPop(Frontmatter(docId, title, date)) && SafeEnd(Frontmatter(docId, title, date))
  {
    FrontmatterPieces();
    var s := Glue("---\n", "nexus_doc: true\n");
    s := Glue(s, "id: \"");
    s := Glue(s, docId);
    s := Glue(s, "\"\n");
    s := Glue(s, "title: \"");
    s := Glue(s, title);
    s := Glue(s, "\"\n");
    s := Glue(s, "status: template\n");
    s := Glue(s, "confidence: low\n");
    s := Glue(s, "last_updated: \"");
    s := Glue(s, date);
    s := Glue(s, "\"\n");
    s := Glue(s, "---\n\n");
  }

  /** A doc built by `frontmatter(...)` followed by its body. */
  function TemplateDoc(path: string, docId: string, title: string, date: string, body: string): GeneratedFile {
    GeneratedFile(path, Frontmatter(docId, title, date) + body)
  }

  /** Whatever its body holds, a template doc begins with the frontmatter's fence and
      passes the structural check at its path, unless that path is a JSON file. */
  lemma TemplateDocSound(path: string, docId: string, title: string, date: string, body: string,
                         parsesAsJson: string -> bool)
    requires !EndsWith(path, ".json")
    ensures StartsWith(TemplateDoc(path, docId, title, date, body).content, "---\n")
    ensures !IsCorrupted(path, TemplateDoc(path, docId, title, date, body).content, parsesAsJson)
  {
    var f := Frontmatter(docId, title, date);
    FrontmatterFences(docId, title, date);
    assert (f + body)[..4] == f[..4];
    FrontmatterSound(docId, title, date, body, path, parsesAsJson);
  }

  /** A template doc whose id, title, date and body never spell `pop` is not populated. */
  lemma TemplateDocNotPopulated(path: string, docId: string, title: string, date: string, body: string)
    requires NoPop(docId) && NoPop(title) && NoPop(date) && NoPop(body)
    ensures !IsPopulated(TemplateDoc(path, docId, title, date, body).content)
  {
    FrontmatterNoPop(docId, title, date);
    var c := Glue(Frontmatter(docId, title, date), body);
    NoPopNotPopulated(c);
  }

  /* ── Values that go into the bodies ── */

  /** The interpolated values never spell `pop`. */
  predicate PlainValues(config: NexusConfig, ctx: AdoptionContext, date: string, cliVersion: string) {
    && NoPop(config.displayName) && NoPop(FrameworkId(config.frontendFramework))
    && NoPop(date) && NoPop(cliVersion)
    && NoPop(ctx.projectDescription) && NoPop(ctx.architectureType)
    && NoPop(ctx.techStack) && NoPop(ctx.painPoints)
  }

  /** The run prefix of the test-strategy doc: `npm run` for npm, the manager's own
      name for yarn and pnpm. */
  function RunCommand(pm: PackageManager): (r: string)
    ensures pm == Npm ==> r == "npm run"
    ensures pm != Npm ==> r == PackageManagerId(pm)
  {
    if pm == Npm then "npm run" else PackageManagerId(pm)
  }

  lemma IdsNoPop(config: NexusConfig)
    ensures Piece(DataStrategyId(config.dataStrategy))
    ensures Piece(TestFrameworkId(config.testFramework))
    ensures NoPop(RunCommand(config.packageManager)) && SafeEnd(RunCommand(config.packageManager))
  {
  }

  /** The `**Project:** <displayName>` line every template body carries. */
  function ProjectLine(config: NexusConfig): string {
    "**Project:** " + config.displayName + "\n"
  }

  lemma ProjectLineNoPop(config: NexusConfig)
    requires NoPop(config.displayName)
    ensures NoPop(ProjectLine(config)) && SafeEnd(ProjectLine(config))
  {
    var s := Glue("**Project:** ", config.displayName);
    s := Glue(s, "\n");
  }

  /* ── The eight template docs ── */

  const VisionPlaceholder := "<!-- What are you " + "building and why? " + "What problem does " + "it solve? -->"

  lemma VisionPlaceholderNoPop()
    ensures Piece(VisionPlaceholder)
  {
    var s := Glue("<!-- What are you ", "building and why? ");
    s := Glue(s, "What problem does ");
    s := Glue(s, "it solve? -->");
  }

  /** The vision paragraph: the interview's description when there is one. */
  function VisionContent(ctx: AdoptionContext): string {
    if ctx.projectDescription != "" then ctx.projectDescription else VisionPlaceholder
  }

  /** The pain-points section, present only when the interview gave pain points. */
  function PainPointsContent(ctx: AdoptionContext): string {
    if ctx.painPoints != "" then "\n### Known Pain Points\n" + ctx.painPoints + "\n" else ""
  }

  function VisionBody(config: NexusConfig, ctx: AdoptionContext): string {
    ProjectLine(config) + "## 🎯 Product Vision\n" + VisionContent(ctx) + "\n" + PainPointsContent(ctx)
  }

  function VisionDoc(config: NexusConfig, ctx: AdoptionContext, date: string): GeneratedFile {
    TemplateDoc(".nexus/docs/01_vision.md", "01_vision", "Product Vision & Requirements", date, VisionBody(config, ctx))
  }

  /** The vision doc carries the interview's description in place of the placeholder
      and ends with the pain points when there are some; without them it ends right
      after the vision paragraph. */
  lemma VisionUsesContext(config: NexusConfig, ctx: AdoptionContext)
    ensures var c := VisionBody(config, ctx);
      && (ctx.projectDescription != "" ==> Includes(c, "## 🎯 Product Vision\n" + ctx.projectDescription + "\n"))
      && (ctx.projectDescription == "" ==> Includes(c, "## 🎯 Product Vision\n" + VisionPlaceholder + "\n"))
      && (ctx.painPoints != "" ==> EndsWith(c, "\n### Known Pain Points\n" + ctx.painPoints + "\n"))
      && (ctx.painPoints == "" ==> EndsWith(c, "## 🎯 Product Vision\n" + VisionContent(ctx) + "\n"))
  {
    var head := ProjectLine(config);
    var mid := "## 🎯 Product Vision\n" + VisionContent(ctx) + "\n";
    var tail := PainPointsContent(ctx);
    assert VisionBody(config, ctx) == head + mid + tail;
    ThreeParts(head, mid, tail);
  }

  /** The middle of three texts occurs in their concatenation, which ends with the
      last, or with the middle when the last is empty. */
  lemma ThreeParts(head: string, mid: string, tail: string)
    requires mid != []
    ensures Includes(head + mid + tail, mid)
    ensures EndsWith(head + mid + tail, tail)
    ensures tail == [] ==> EndsWith(head + mid + tail, mid)
  {
    var c := head + mid + tail;
    assert c[|head|..|head| + |mid|] == mid;
    IncludesAt(c, mid, |head|);
    assert c[|c| - |tail|..] == tail;
    if tail == [] {
      assert c[|c| - |mid|..] == mid;
    }
  }

  lemma VisionBodyNoPop(config: NexusConfig, ctx: AdoptionContext, date: string, cliVersion: string)
    requires PlainValues(config, ctx, date, cliVersion)
    ensures NoPop(VisionBody(config, ctx))
  {
    ProjectLineNoPop(config);
    VisionPlaceholderNoPop();
    var s := Glue(ProjectLine(config), "## 🎯 Product Vision\n");
    s := Glue(s, VisionContent(ctx));
    if ctx.projectDescription == "" {
      assert SafeEnd(s);
    }
    s := Glue(s, "\n");
    if ctx.painPoints != "" {
      var p := Glue("\n### Known Pain Points\n", ctx.painPoints);
      p := Glue(p, "\n");
    }
    s := Glue(s, PainPointsContent(ctx));
  }

  function ArchitectureTypeContent(ctx: AdoptionContext): string {
    if ctx.architectureType != "" then "\n**Architecture Type:** " + ctx.architectureType + "\n" else ""
  }

  function TechStackContent(ctx: AdoptionContext): string {
    if ctx.techStack != "" then "\n### Additional Technologies\n" + ctx.techStack + "\n" else ""
  }

  /** The header lines of the architecture doc. */
  function ArchitectureHeader(config: NexusConfig, ctx: AdoptionContext): string {
    ProjectLine(config) + "**Framework:** " + FrameworkId(config.frontendFramework)
    + "\n**Data Strategy:** " + DataStrategyId(config.dataStrategy) + ArchitectureTypeContent(ctx) + "\n"
  }

  /** The tech-stack table rows that carry values, and the interview's technologies. */
  function ArchitectureTable(config: NexusConfig, ctx: AdoptionContext): string {
    var ds := DataStrategyId(config.dataStrategy);
    "| Frontend  | " + FrameworkId(config.frontendFramework) + " | Selected " + "during project " + "setup |\n"
    + "| Data      | " + ds + " | " + ds + " strategy |\n"
    + "| Testing   | " + TestFrameworkId(config.testFramework) + " | Selected " + "during project " + "setup |\n"
    + TechStackContent(ctx)
  }

  function ArchitectureDoc(config: NexusConfig, ctx: AdoptionContext, date: string): GeneratedFile {
    TemplateDoc(".nexus/docs/02_architecture.md", "02_architecture", "System Architecture", date,
                ArchitectureHeader(config, ctx) + ArchitectureTable(config, ctx))
  }

  lemma ArchitecturePieces()
    ensures Piece("**Framework:** ") && Piece("\n**Data Strategy:** ") && Piece("\n")
    ensures Piece("\n**Architecture Type:** ") && Piece("\n### Additional Technologies\n")
  {
  }

  lemma ArchitectureRowPieces()
    ensures Piece("| Frontend  | ") && Piece(" | Selected ") && Piece("during project ") && Piece("setup |\n")
    ensures Piece("| Data      | ") && Piece(" | ") && Piece(" strategy |\n") && Piece("| Testing   | ")
  {
  }

  lemma ArchitectureTypeNoPop(ctx: AdoptionContext)
    requires NoPop(ctx.architectureType) && NoPop(ctx.techStack)
    ensures NoPop(ArchitectureTypeContent(ctx)) && SafeEnd(ArchitectureTypeContent(ctx))
    ensures NoPop(TechStackContent(ctx))
  {
    ArchitecturePieces();
    if ctx.architectureType != "" {
      var a := Glue("\n**Architecture Type:** ", ctx.architectureType);
      a := Glue(a, "\n");
    }
    if ctx.techStack != "" {
      var t := Glue("\n### Additional Technologies\n", ctx.techStack);
      t := Glue(t, "\n");
    }
  }

  lemma ArchitectureHeaderNoPop(config: NexusConfig, ctx: AdoptionContext, date: string, cliVersion: string)
    requires PlainValues(config, ctx, date, cliVersion)
    ensures NoPop(ArchitectureHeader(config, ctx)) && SafeEnd(ArchitectureHeader(config, ctx))
  {
    IdsNoPop(config);
    ProjectLineNoPop(config);
    ArchitecturePieces();
    ArchitectureTypeNoPop(ctx);
    var s := Glue(ProjectLine(config), "**Framework:** ");
    s := Glue(s, FrameworkId(config.frontendFramework));
    s := Glue(s, "\n**Data Strategy:** ");
    s := Glue(s, DataStrategyId(config.dataStrategy));
    s := Glue(s, ArchitectureTypeContent(ctx));
    s := Glue(s, "\n");
  }

  lemma ArchitectureTableNoPop(config: NexusConfig, ctx: AdoptionContext, date: string, cliVersion: string)
    requires PlainValues(config, ctx, date, cliVersion)
    ensures NoPop(ArchitectureTable(config, ctx))
  {
    IdsNoPop(config);
    ArchitectureRowPieces();
    ArchitectureTypeNoPop(ctx);
    var ds := DataStrategyId(config.dataStrategy);
    var s := Glue("| Frontend  | ", FrameworkId(config.frontendFramework));
    s := Glue(s, " | Selected ");
    s := Glue(s, "during project ");
    s := Glue(s, "setup |\n");
    s := Glue(s, "| Data      | ");
    s := Glue(s, ds);
    s := Glue(s, " | ");
    s := Glue(s, ds);
    s := Glue(s, " strategy |\n");
    s := Glue(s, "| Testing   | ");
    s := Glue(s, TestFrameworkId(config.testFramework));
    s := Glue(s, " | Selected ");
    s := Glue(s, "during project ");
    s := Glue(s, "setup |\n");
    s := Glue(s, TechStackContent(ctx));
  }

  function DataContractsBody(config: NexusConfig): string {
    ProjectLine(config) + "**Data Strategy:** " + DataStrategyId(config.dataStrategy) + "\n"
  }

  function DataContractsDoc(config: NexusConfig, date: string): GeneratedFile {
    TemplateDoc(".nexus/docs/03_data_contracts.md", "03_data_contracts", "Data Contracts", date, DataContractsBody(config))
  }

  lemma DataContractsBodyNoPop(config: NexusConfig)
    requires NoPop(config.displayName)
    ensures NoPop(DataContractsBody(config))
  {
    IdsNoPop(config);
    ProjectLineNoPop(config);
    var s := Glue(ProjectLine(config), "**Data Strategy:** ");
    s := Glue(s, DataStrategyId(config.dataStrategy));
    s := Glue(s, "\n");
  }

  function ApiContractsDoc(config: NexusConfig, date: string): GeneratedFile {
    TemplateDoc(".nexus/docs/04_api_contracts.md", "04_api_contracts", "API Contracts", date, ProjectLine(config))
  }

  /* ── Business logic: the pattern sections ── */

  datatype Section = SyncSection | RealTimeSection | PwaSection | ThemingSection | I18nSection | WhiteLabelSection

  /** Whether the configuration asks for a section: the sync section for offline-first
      apps and for the local-first data strategy, the others for their own pattern. */
  predicate Wanted(s: Section, patterns: seq<AppPattern>, ds: DataStrategy) {
    match s
    case SyncSection => OfflineFirst in patterns || ds == LocalFirst
    case RealTimeSection => RealTime in patterns
    case PwaSection => Pwa in patterns
    case ThemingSection => Theming in patterns
    case I18nSection => I18n in patterns
    case WhiteLabelSection => WhiteLabel in patterns
  }

  /** One section, if it is wanted. */
  function IfWanted(s: Section, patterns: seq<AppPattern>, ds: DataStrategy): seq<Section> {
    if Wanted(s, patterns, ds) then [s] else []
  }

  /** The sections the business-logic doc carries: each wanted section, in the order
      the source tests them. */
  function SelectedSections(patterns: seq<AppPattern>, ds: DataStrategy): seq<Section> {
    IfWanted(SyncSection, patterns, ds) + IfWanted(RealTimeSection, patterns, ds)
    + IfWanted(PwaSection, patterns, ds) + IfWanted(ThemingSection, patterns, ds)
    + IfWanted(I18nSection, patterns, ds) + IfWanted(WhiteLabelSection, patterns, ds)
  }

  /** The position of a section in the order the source tests them. */
  function Rank(s: Section): nat {
    match s
    case SyncSection => 0
    case RealTimeSection => 1
    case PwaSection => 2
    case ThemingSection => 3
    case I18nSection => 4
    case WhiteLabelSection => 5
  }

  predicate RankIncreasing(order: seq<Section>) {
    forall i, j | 0 <= i < j < |order| :: Rank(order[i]) < Rank(order[j])
  }

  /** Appending a section that ranks after everything so far keeps the order. */
  lemma ExtendIncreasing(r: seq<Section>, s: Section, patterns: seq<AppPattern>, ds: DataStrategy)
    requires RankIncreasing(r) && forall x | x in r :: Rank(x) < Rank(s)
    ensures RankIncreasing(r + IfWanted(s, patterns, ds))
    ensures forall x | x in r + IfWanted(s, patterns, ds) :: Rank(x) <= Rank(s)
  {
    var c := r + IfWanted(s, patterns, ds);
    forall i, j | 0 <= i < j < |c| ensures Rank(c[i]) < Rank(c[j]) {
      if j < |r| {
        assert c[i] == r[i] && c[j] == r[j];
      } else {
        assert c[j] == s && c[i] == r[i];
        assert r[i] in r;
      }
    }
  }

  lemma IncreasingDistinct(s: seq<Section>)
    requires RankIncreasing(s)
    ensures Distinct(s)
  {
    forall i, j | 0 <= i < j < |s| ensures s[i] != s[j] {
      assert Rank(s[i]) < Rank(s[j]);
    }
  }

  lemma InIfWanted(x: Section, s: Section, patterns: seq<AppPattern>, ds: DataStrategy)
    ensures x in IfWanted(s, patterns, ds) <==> x == s && Wanted(s, patterns, ds)
  {
  }

  /** A section is selected exactly when the configuration wants it. */
  lemma SelectedSectionsMembers(patterns: seq<AppPattern>, ds: DataStrategy)
    ensures forall x :: x in SelectedSections(patterns, ds) <==> Wanted(x, patterns, ds)
  {
    forall x ensures x in SelectedSections(patterns, ds) <==> Wanted(x, patterns, ds) {
      InIfWanted(x, SyncSection, patterns, ds);
      InIfWanted(x, RealTimeSection, patterns, ds);
      InIfWanted(x, PwaSection, patterns, ds);
      InIfWanted(x, ThemingSection, patterns, ds);
      InIfWanted(x, I18nSection, patterns, ds);
      InIfWanted(x, WhiteLabelSection, patterns, ds);
    }
  }

  /** The selected sections follow the order the source tests them in: sync,
      real-time, PWA, theming, i18n, white-label; so none appears twice. */
  lemma SelectedSectionsOrdered(patterns: seq<AppPattern>, ds: DataStrategy)
    ensures RankIncreasing(SelectedSections(patterns, ds))
    ensures Distinct(SelectedSections(patterns, ds))
  {
    var r := IfWanted(SyncSection, patterns, ds);
    ExtendIncreasing([], SyncSection, patterns, ds);
    assert [] + r == r;
    ExtendIncreasing(r, RealTimeSection, patterns, ds);
    r := r + IfWanted(RealTimeSection, patterns, ds);
    ExtendIncreasing(r, PwaSection, patterns, ds);
    r := r + IfWanted(PwaSection, patterns, ds);
    ExtendIncreasing(r, ThemingSection, patterns, ds);
    r := r + IfWanted(ThemingSection, patterns, ds);
    ExtendIncreasing(r, I18nSection, patterns, ds);
    r := r + IfWanted(I18nSection, patterns, ds);
    ExtendIncreasing(r, WhiteLabelSection, patterns, ds);
    r := r + IfWanted(WhiteLabelSection, patterns, ds);
    IncreasingDistinct(r);
  }

  /** The pattern selection of `generateBusinessLogic`, one test per section, each
      pushing its section when its pattern is chosen. */
  method BuildPatternSections(patterns: seq<AppPattern>, ds: DataStrategy) returns (sections: seq<Section>)
    ensures sections == SelectedSections(patterns, ds)
  {
    sections := [];
    if OfflineFirst in patterns || ds == LocalFirst {
      sections := sections + [SyncSection];
    }
    assert sections == IfWanted(SyncSection, patterns, ds);
    sections := PushSection(sections, RealTime in patterns, RealTimeSection, patterns, ds);
    sections := PushSection(sections, Pwa in patterns, PwaSection, patterns, ds);
    sections := PushSection(sections, Theming in patterns, ThemingSection, patterns, ds);
    sections := PushSection(sections, I18n in patterns, I18nSection, patterns, ds);
    sections := PushSection(sections, WhiteLabel in patterns, WhiteLabelSection, patterns, ds);
  }

  /** One push of `generateBusinessLogic`: the section goes on the end when its test holds. */
  method PushSection(sections: seq<Section>, test: bool, s: Section, ghost patterns: seq<AppPattern>, ghost ds: DataStrategy)
    returns (r: seq<Section>)
    requires test == Wanted(s, patterns, ds)
    ensures r == sections + IfWanted(s, patterns, ds)
  {
    r := sections;
    if test {
      r := r + [s];
    }
  }

  /** A section's heading line; the guidance comment under it is not modelled. */
  function SectionHeading(s: Section): string {
    match s
    case SyncSection => "## 🔄 Sync & " + "Conflict Resolution"
    case RealTimeSection => "## ⚡ Real-Time System"
    case PwaSection => "## 📲 PWA / " + "Service Worker"
    case ThemingSection => "## 🎨 Theming System"
    case I18nSection => "## 🌍 " + "Internationalization " + "(i18n)"
    case WhiteLabelSection => "## 🏷️ White Label / " + "Multi-Tenant"
  }

  function Headings(sections: seq<Section>): (r: seq<string>)
    ensures |r| == |sections|
    ensures forall i | 0 <= i < |r| :: r[i] == SectionHeading(sections[i])
  {
    if sections == [] then [] else [SectionHeading(sections[0])] + Headings(sections[1..])
  }

  /** The sections separated by blank lines and closed by a newline, or nothing. */
  function PatternContent(sections: seq<Section>): (r: string)
    ensures r == [] <==> sections == []
  {
    if sections == [] then "" else Join(Headings(sections), "\n\n") + "\n"
  }

  function BusinessLogicBody(config: NexusConfig): string {
    ProjectLine(config) + PatternContent(SelectedSections(config.appPatterns, config.dataStrategy))
  }

  function BusinessLogicDoc(config: NexusConfig, date: string): GeneratedFile {
    TemplateDoc(".nexus/docs/05_business_logic.md", "05_business_logic", "Business Logic", date, BusinessLogicBody(config))
  }

  /** With no pattern that wants a section, the pattern block is empty and the body
      is its project line alone. */
  lemma BusinessLogicWithoutPatterns(config: NexusConfig)
    requires OfflineFirst !in config.appPatterns && RealTime !in config.appPatterns && Pwa !in config.appPatterns
    requires Theming !in config.appPatterns && I18n !in config.appPatterns && WhiteLabel !in config.appPatterns
    requires config.dataStrategy != LocalFirst
    ensures BusinessLogicBody(config) == ProjectLine(config)
  {
    assert ProjectLine(config) + "" == ProjectLine(config);
  }

  lemma {:induction false} JoinNoPop(parts: seq<string>, sep: string)
    requires forall k | 0 <= k < |parts| :: NoPop(parts[k])
    requires Piece(sep)
    ensures NoPop(Join(parts, sep))
  {
    if |parts| > 1 {
      JoinNoPop(parts[1..], sep);
      var s := Glue(parts[0], sep);
      s := Glue(s, Join(parts[1..], sep));
    }
  }

  lemma HeadingPieces()
    ensures Piece("## 🔄 Sync & ") && Piece("Conflict Resolution") && Piece("## ⚡ Real-Time System")
    ensures Piece("## 📲 PWA / ") && Piece("Service Worker") && Piece("## 🎨 Theming System")
  {
  }

  lemma MoreHeadingPieces()
    ensures Piece("## 🌍 ") && Piece("Internationalization ") && Piece("(i18n)")
    ensures Piece("## 🏷️ White Label / ") && Piece("Multi-Tenant")
  {
  }

  lemma HeadingNoPop(s: Section)
    ensures NoPop(SectionHeading(s))
  {
    HeadingPieces();
    MoreHeadingPieces();
    match s
    case SyncSection =>
      var h := Glue("## 🔄 Sync & ", "Conflict Resolution");
    case RealTimeSection =>
    case PwaSection =>
      var h := Glue("## 📲 PWA / ", "Service Worker");
    case ThemingSection =>
    case I18nSection =>
      var h := Glue("## 🌍 ", "Internationalization ");
      h := Glue(h, "(i18n)");
    case WhiteLabelSection =>
      var h := Glue("## 🏷️ White Label / ", "Multi-Tenant");
  }

  lemma BusinessLogicBodyNoPop(config: NexusConfig)
    requires NoPop(config.displayName)
    ensures NoPop(BusinessLogicBody(config))
  {
    var sections := SelectedSections(config.appPatterns, config.dataStrategy);
    var hs := Headings(sections);
    forall k | 0 <= k < |hs| ensures NoPop(hs[k]) {
      HeadingNoPop(sections[k]);
    }
    assert Piece("\n\n");
    JoinNoPop(hs, "\n\n");
    if sections != [] {
      var p := Glue(Join(hs, "\n\n"), "\n");
    }
    ProjectLineNoPop(config);
    var s := Glue(ProjectLine(config), PatternContent(sections));
  }

  function TestStrategyBody(config: NexusConfig): string {
    var tf := TestFrameworkId(config.testFramework);
    var run := RunCommand(config.packageManager);
    ProjectLine(config) + "**Framework:** " + tf + "\n"
    + "| Unit | " + tf + " | Core logic, " + "utilities, " + "validators |\n"
    + "| Integration | " + tf + " | API routes, " + "data flows |\n"
    + run + " test              " + "# Run all tests\n"
    + run + " test -- --watch   " + "# Watch mode\n"
  }

  function TestStrategyDoc(config: NexusConfig, date: string): GeneratedFile {
    TemplateDoc(".nexus/docs/06_test_strategy.md", "06_test_strategy", "Test Strategy", date, TestStrategyBody(config))
  }

  lemma TestStrategyPieces()
    ensures Piece("**Framework:** ") && Piece("\n") && Piece("| Unit | ") && Piece(" | Core logic, ")
    ensures Piece("utilities, ") && Piece("validators |\n") && Piece("| Integration | ")
  {
  }

  lemma TestStrategyMorePieces()
    ensures Piece(" | API routes, ") && Piece("data flows |\n") && Piece(" test              ")
    ensures Piece("# Run all tests\n") && Piece(" test -- --watch   ") && Piece("# Watch mode\n")
  {
  }

  lemma TestStrategyBodyNoPop(config: NexusConfig)
    requires NoPop(config.displayName)
    ensures NoPop(TestStrategyBody(config))
  {
    IdsNoPop(config);
    ProjectLineNoPop(config);
    TestStrategyPieces();
    TestStrategyMorePieces();
    var tf := TestFrameworkId(config.testFramework);
    var run := RunCommand(config.packageManager);
    var s := Glue(ProjectLine(config), "**Framework:** ");
    s := Glue(s, tf);
    s := Glue(s, "\n");
    s := Glue(s, "| Unit | ");
    s := Glue(s, tf);
    s := Glue(s, " | Core logic, ");
    s := Glue(s, "utilities, ");
    s := Glue(s, "validators |\n");
    s := Glue(s, "| Integration | ");
    s := Glue(s, tf);
    s := Glue(s, " | API routes, ");
    s := Glue(s, "data flows |\n");
    s := Glue(s, run);
    s := Glue(s, " test              ");
    s := Glue(s, "# Run all tests\n");
    s := Glue(s, run);
    s := Glue(s, " test -- --watch   ");
    s := Glue(s, "# Watch mode\n");
  }

  function ImplementationBody(config: NexusConfig): string {
    ProjectLine(config) + "| Database / " + "storage setup | " + "`src/lib/` | " + "TODO | Match " + "data strategy: "
    + DataStrategyId(config.dataStrategy) + " |\n"
  }

  function ImplementationDoc(config: NexusConfig, date: string): GeneratedFile {
    TemplateDoc(".nexus/docs/07_implementation.md", "07_implementation", "Implementation Plan", date, ImplementationBody(config))
  }

  lemma ImplementationPieces()
    ensures Piece("| Database / ") && Piece("storage setup | ") && Piece("`src/lib/` | ")
    ensures Piece("TODO | Match ") && Piece("data strategy: ") && Piece(" |\n")
  {
  }

  lemma ImplementationBodyNoPop(config: NexusConfig)
    requires NoPop(config.displayName)
    ensures NoPop(ImplementationBody(config))
  {
    IdsNoPop(config);
    ProjectLineNoPop(config);
    ImplementationPieces();
    var s := Glue(ProjectLine(config), "| Database / ");
    s := Glue(s, "storage setup | ");
    s := Glue(s, "`src/lib/` | ");
    s := Glue(s, "TODO | Match ");
    s := Glue(s, "data strategy: ");
    s := Glue(s, DataStrategyId(config.dataStrategy));
    s := Glue(s, " |\n");
  }

  function DeploymentDoc(config: NexusConfig, date: string): GeneratedFile {
    TemplateDoc(".nexus/docs/08_deployment.md", "08_deployment", "Deployment", date, ProjectLine(config))
  }

  /* ── The project index ── */

  function ActiveTask(ctx: AdoptionContext): string {
    if ctx.projectDescription != "" then "Review and " + "expand pre-filled " + "vision from " + "adoption interview"
    else "Populate NEXUS " + "docs from user's " + "project vision"
  }

  function StatusNote(ctx: AdoptionContext): string {
    if ctx.projectDescription != "" then "🟡 Partially filled " + "from adoption " + "interview" else "🔴 Template"
  }

  /** The notes cell of a status-matrix row: a pointer to the doc once the interview
      filled it, otherwise the action it needs. */
  function DocLink(ctx: AdoptionContext, doc: string, action: string): string {
    if ctx.projectDescription != "" then "See .nexus/docs/" + doc
    else action + " → `.nexus/docs/" + doc + "`"
  }

  const NeedsInput := "Needs user input"
  const AutoFill := "Auto-fill from " + "codebase"

  /** The header lines of the project index. */
  function IndexHeader(config: NexusConfig, date: string): string {
    "# " + config.displayName + " — Project Index\n"
    + ProjectLine(config) + "**Framework:** " + FrameworkDisplay(FrameworkId(config.frontendFramework))
    + "\n**Data Strategy:** " + DataStrategyId(config.dataStrategy) + "\n**Created:** " + date + "\n"
  }

  /** The current objective and the first two rows of the status matrix. */
  function IndexStatus(ctx: AdoptionContext): string {
    "**Active Task:** " + ActiveTask(ctx) + "\n"
    + "| 📋 Vision & " + "Requirements | " + StatusNote(ctx) + " | "
    + DocLink(ctx, "01_vision.md", NeedsInput) + " |\n"
    + "| 🏗️ Architecture | " + StatusNote(ctx) + " | "
    + DocLink(ctx, "02_architecture.md", AutoFill) + " |\n"
  }

  /** The first progress-log entry, the storage step of "What's Next" and the version
      footer. */
  function IndexLog(config: NexusConfig, date: string, cliVersion: string): string {
    var fd := FrameworkDisplay(FrameworkId(config.frontendFramework));
    "### " + date + " — Project Created\n"
    + "- ✅ Scaffolded with " + "NEXUS CLI (" + fd + ", " + DataStrategyId(config.dataStrategy) + ")\n"
    + "6. **Database / " + "storage setup** — " + "Match data strategy: " + DataStrategyId(config.dataStrategy) + "\n"
    + "*Generated by " + "[NEXUS CLI](" + "https://github.com/" + "GDA-Africa/" + "nexus-cli) v" + cliVersion
    + " — AI-native project " + "scaffolding by " + "[GDA Africa](" + "https://github.com/" + "GDA-Africa)*\n"
  }

  function ProjectIndexDoc(config: NexusConfig, ctx: AdoptionContext, date: string, cliVersion: string): GeneratedFile {
    TemplateDoc(".nexus/docs/index.md", "project_index", "Project Index — AI Agent Brain", date,
                IndexHeader(config, date) + IndexStatus(ctx) + IndexLog(config, date, cliVersion))
  }

  lemma FrameworkDisplayNoPop(framework: string)
    requires NoPop(framework)
    ensures NoPop(FrameworkDisplay(framework))
  {
    if framework == "nextjs" {
      var s := Glue("Next.js 15 ", "(App Router)");
    }
  }

  lemma IndexHeaderPieces()
    ensures Piece("# ") && Piece(" — Project Index\n") && Piece("**Framework:** ")
    ensures Piece("\n**Data Strategy:** ") && Piece("\n**Created:** ") && Piece("\n")
  {
  }

  lemma IndexHeaderNoPop(config: NexusConfig, ctx: AdoptionContext, date: string, cliVersion: string)
    requires PlainValues(config, ctx, date, cliVersion)
    ensures NoPop(IndexHeader(config, date)) && SafeEnd(IndexHeader(config, date))
  {
    IdsNoPop(config);
    ProjectLineNoPop(config);
    FrameworkDisplayNoPop(FrameworkId(config.frontendFramework));
    IndexHeaderPieces();
    var s := Glue("# ", config.displayName);
    s := Glue(s, " — Project Index\n");
    s := Glue(s, ProjectLine(config));
    s := Glue(s, "**Framework:** ");
    s := Glue(s, FrameworkDisplay(FrameworkId(config.frontendFramework)));
    s := Glue(s, "\n**Data Strategy:** ");
    s := Glue(s, DataStrategyId(config.dataStrategy));
    s := Glue(s, "\n**Created:** ");
    s := Glue(s, date);
    s := Glue(s, "\n");
  }

  lemma ActiveTaskNoPop(ctx: AdoptionContext)
    ensures Piece(ActiveTask(ctx))
  {
    if ctx.projectDescription != "" {
      assert Piece("Review and ") && Piece("expand pre-filled ");
      assert Piece("vision from ") && Piece("adoption interview");
      var t := Glue("Review and ", "expand pre-filled ");
      t := Glue(t, "vision from ");
      t := Glue(t, "adoption interview");
    } else {
      assert Piece("Populate NEXUS ") && Piece("docs from user's ") && NoPop("project vision");
      var t := Glue("Populate NEXUS ", "docs from user's ");
      t := Glue(t, "project vision");
    }
  }

  lemma StatusNoteNoPop(ctx: AdoptionContext)
    ensures Piece(StatusNote(ctx))
  {
    if ctx.projectDescription != "" {
      assert Piece("🟡 Partially filled ") && Piece("from adoption ") && Piece("interview");
      var t := Glue("🟡 Partially filled ", "from adoption ");
      t := Glue(t, "interview");
    }
  }

  lemma DocLinkNoPop(ctx: AdoptionContext, doc: string, action: string)
    requires Piece(doc) && Piece(action)
    ensures Piece(DocLink(ctx, doc, action))
  {
    if ctx.projectDescription != "" {
      var l := Glue("See .nexus/docs/", doc);
    } else {
      var l := Glue(action, " → `.nexus/docs/");
      l := Glue(l, doc);
      l := Glue(l, "`");
    }
  }

  lemma IndexStatusPieces()
    ensures Piece("**Active Task:** ") && Piece("\n") && Piece("| 📋 Vision & ") && Piece("Requirements | ")
    ensures Piece(" | ") && Piece(" |\n") && Piece("| 🏗️ Architecture | ")
  {
  }

  lemma IndexLinksNoPop(ctx: AdoptionContext)
    ensures Piece(DocLink(ctx, "01_vision.md", NeedsInput)) && Piece(DocLink(ctx, "02_architecture.md", AutoFill))
  {
    var a := Glue("Auto-fill from ", "codebase");
    assert Piece(NeedsInput) && Piece("01_vision.md") && Piece("02_architecture.md");
    DocLinkNoPop(ctx, "01_vision.md", NeedsInput);
    DocLinkNoPop(ctx, "02_architecture.md", AutoFill);
  }

  lemma IndexStatusNoPop(ctx: AdoptionContext)
    ensures NoPop(IndexStatus(ctx))
  {
    ActiveTaskNoPop(ctx);
    StatusNoteNoPop(ctx);
    IndexLinksNoPop(ctx);
    IndexStatusPieces();
    var s := Glue("**Active Task:** ", ActiveTask(ctx));
    s := Glue(s, "\n");
    s := Glue(s, "| 📋 Vision & ");
    s := Glue(s, "Requirements | ");
    s := Glue(s, StatusNote(ctx));
    s := Glue(s, " | ");
    s := Glue(s, DocLink(ctx, "01_vision.md", NeedsInput));
    s := Glue(s, " |\n");
    s := Glue(s, "| 🏗️ Architecture | ");
    s := Glue(s, StatusNote(ctx));
    s := Glue(s, " | ");
    s := Glue(s, DocLink(ctx, "02_architecture.md", AutoFill));
    s := Glue(s, " |\n");
  }

  lemma IndexLogPieces()
    ensures Piece("### ") && Piece(" — Project Created\n") && Piece("- ✅ Scaffolded with ")
    ensures Piece("NEXUS CLI (") && Piece(", ") && Piece(")\n") && Piece("*Generated by ")
  {
  }

  lemma IndexNextPieces()
    ensures Piece("6. **Database / ") && Piece("storage setup** — ") && Piece("Match data strategy: ")
    ensures Piece("\n")
  {
  }

  lemma IndexFooterPieces()
    ensures Piece("[NEXUS CLI](") && Piece("https://github.com/") && Piece("GDA-Africa/")
    ensures Piece("nexus-cli) v") && Piece(" — AI-native project ") && Piece("scaffolding by ")
    ensures Piece("[GDA Africa](") && Piece("GDA-Africa)*\n")
  {
  }

  lemma IndexLogNoPop(config: NexusConfig, ctx: AdoptionContext, date: string, cliVersion: string)
    requires PlainValues(config, ctx, date, cliVersion)
    ensures NoPop(IndexLog(config, date, cliVersion)) && SafeStart(IndexLog(config, date, cliVersion))
  {
    IdsNoPop(config);
    FrameworkDisplayNoPop(FrameworkId(config.frontendFramework));
    IndexLogPieces();
    IndexFooterPieces();
    var s := Glue("### ", date);
    s := Glue(s, " — Project Created\n");
    s := Glue(s, "- ✅ Scaffolded with ");
    s := Glue(s, "NEXUS CLI (");
    s := Glue(s, FrameworkDisplay(FrameworkId(config.frontendFramework)));
    s := Glue(s, ", ");
    s := Glue(s, DataStrategyId(config.dataStrategy));
    s := Glue(s, ")\n");
    IndexNextPieces();
    s := Glue(s, "6. **Database / ");
    s := Glue(s, "storage setup** — ");
    s := Glue(s, "Match data strategy: ");
    s := Glue(s, DataStrategyId(config.dataStrategy));
    s := Glue(s, "\n");
    s := Glue(s, "*Generated by ");
    s := Glue(s, "[NEXUS CLI](");
    s := Glue(s, "https://github.com/");
    s := Glue(s, "GDA-Africa/");
    s := Glue(s, "nexus-cli) v");
    s := Glue(s, cliVersion);
    s := Glue(s, " — AI-native project ");
    s := Glue(s, "scaffolding by ");
    s := Glue(s, "[GDA Africa](");
    s := Glue(s, "https://github.com/");
    s := Glue(s, "GDA-Africa)*\n");
  }

  lemma ProjectIndexBodyNoPop(config: NexusConfig, ctx: AdoptionContext, date: string, cliVersion: string)
    requires PlainValues(config, ctx, date, cliVersion)
    ensures NoPop(IndexHeader(config, date) + IndexStatus(ctx) + IndexLog(config, date, cliVersion))
  {
    IndexHeaderNoPop(config, ctx, date, cliVersion);
    IndexStatusNoPop(ctx);
    IndexLogNoPop(config, ctx, date, cliVersion);
    var s := Glue(IndexHeader(config, date), IndexStatus(ctx));
    s := Glue(s, IndexLog(config, date, cliVersion));
  }

  /** The index's status notes and links switch to the interview's versions exactly
      when there is a project description. */
  lemma ProjectIndexFollowsContext(ctx: AdoptionContext)
    ensures ctx.projectDescription != "" <==> StatusNote(ctx) != "🔴 Template"
    ensures ctx.projectDescription != "" <==> StartsWith(DocLink(ctx, "01_vision.md", NeedsInput), "See ")
  {
    var l := DocLink(ctx, "01_vision.md", NeedsInput);
    if ctx.projectDescription == "" {
      assert l[..4] == "Need";
    } else {
      assert l[..4] == "See ";
    }
  }

  /* ── The knowledge log and the manifest ── */

  /** The knowledge log: no frontmatter; its heading and the first entry. */
  function KnowledgeDoc(config: NexusConfig, date: string): GeneratedFile {
    GeneratedFile(".nexus/docs/knowledge.md",
      "# " + config.displayName + " — Knowledge Base\n"
      + "**" + date + "** — One-line insight.\n"
      + "### [convention] " + "Project scaffolded " + "with NEXUS CLI\n"
      + "**" + date + "** — This project " + "was generated " + "with NEXUS CLI. "
      + "Follow the doc system in `.nexus/docs/` " + "and always read `index.md` (the brain) before each task.\n")
  }

  /** Any text that opens with `#` is sound at the knowledge log's path: the fence
      rule does not apply there. */
  lemma KnowledgeSound(content: string, parsesAsJson: string -> bool)
    requires content != [] && content[0] == '#'
    ensures !IsCorrupted(".nexus/docs/knowledge.md", content, parsesAsJson)
  {
    var p := ".nexus/docs/knowledge.md";
    assert p[|p| - 12..] == "knowledge.md";
    assert p[|p| - 5..] != ".json" by { assert p[|p| - 1] == 'd'; }
    assert !AllSpace(content) by { assert !IsSpace(content[0]); }
    IsCorruptedRules(p, content, parsesAsJson);
  }

  /** The knowledge log opens with a heading rather than a fence and is sound at its
      path. */
  lemma KnowledgeDocSound(config: NexusConfig, date: string, parsesAsJson: string -> bool)
    ensures StartsWith(KnowledgeDoc(config, date).content, "# ")
    ensures !IsCorrupted(KnowledgeDoc(config, date).path, KnowledgeDoc(config, date).content, parsesAsJson)
  {
    var c := KnowledgeDoc(config, date).content;
    assert c[..2] == "# ";
    KnowledgeSound(c, parsesAsJson);
  }

  /** The manifest object; its JSON text comes from the serialiser passed in. */
  datatype Manifest = Manifest(
    version: string,
    generatedAt: string,
    config: NexusConfig,
    cliVersion: string,
    cliName: string,
    localOnly: bool)

  function ManifestOf(config: NexusConfig, localOnly: bool, timestamp: string, cliVersion: string): (m: Manifest)
    ensures m.version == "1.0.0" && m.cliName == "@nexus-framework/cli"
    ensures m.config == config && m.localOnly == localOnly && m.generatedAt == timestamp
  {
    Manifest("1.0.0", timestamp, config, cliVersion, "@nexus-framework/cli", localOnly)
  }

  /** The inputs `generateDocs` reads besides the configuration: the date of the docs,
      the manifest's timestamp, the CLI's version and JSON serialisation. */
  datatype Stamp = Stamp(date: string, timestamp: string, cliVersion: string, stringify: Manifest -> string)

  function ManifestFile(config: NexusConfig, localOnly: bool, st: Stamp): (f: GeneratedFile)
    ensures f.path == ".nexus/manifest.json"
    ensures f.content == st.stringify(ManifestOf(config, localOnly, st.timestamp, st.cliVersion)) + "\n"
  {
    GeneratedFile(".nexus/manifest.json", st.stringify(ManifestOf(config, localOnly, st.timestamp, st.cliVersion)) + "\n")
  }

  /* ── generateDocs ── */

  /** The first three docs pushed: vision, architecture, data contracts. */
  function ProductDocs(config: NexusConfig, ctx: AdoptionContext, date: string): seq<GeneratedFile> {
    [VisionDoc(config, ctx, date)] + [ArchitectureDoc(config, ctx, date)] + [DataContractsDoc(config, date)]
  }

  /** The next three: API contracts, business logic, test strategy. */
  function LogicDocs(config: NexusConfig, date: string): seq<GeneratedFile> {
    [ApiContractsDoc(config, date)] + [BusinessLogicDoc(config, date)] + [TestStrategyDoc(config, date)]
  }

  /** The last three built by `frontmatter(...)`: implementation, deployment, the index. */
  function DeliveryDocs(config: NexusConfig, ctx: AdoptionContext, date: string, cliVersion: string): seq<GeneratedFile> {
    [ImplementationDoc(config, date)] + [DeploymentDoc(config, date)] + [ProjectIndexDoc(config, ctx, date, cliVersion)]
  }

  /** The nine docs built by `frontmatter(...)`, in the order they are pushed. */
  function TemplateDocs(config: NexusConfig, ctx: AdoptionContext, st: Stamp): seq<GeneratedFile> {
    [VisionDoc(config, ctx, st.date)]
    + [ArchitectureDoc(config, ctx, st.date)]
    + [DataContractsDoc(config, st.date)]
    + [ApiContractsDoc(config, st.date)]
    + [BusinessLogicDoc(config, st.date)]
    + [TestStrategyDoc(config, st.date)]
    + [ImplementationDoc(config, st.date)]
    + [DeploymentDoc(config, st.date)]
    + [ProjectIndexDoc(config, ctx, st.date, st.cliVersion)]
  }

  /** Nine files pushed one after another are three groups of three. */
  lemma NineInThrees(a: GeneratedFile, b: GeneratedFile, c: GeneratedFile, d: GeneratedFile, e: GeneratedFile,
                     f: GeneratedFile, g: GeneratedFile, h: GeneratedFile, i: GeneratedFile)
    ensures [a] + [b] + [c] + [d] + [e] + [f] + [g] + [h] + [i]
         == ([a] + [b] + [c]) + ([d] + [e] + [f]) + ([g] + [h] + [i])
  {
  }

  lemma TemplateDocsGroups(config: NexusConfig, ctx: AdoptionContext, st: Stamp)
    ensures TemplateDocs(config, ctx, st)
         == ProductDocs(config, ctx, st.date) + LogicDocs(config, st.date) + DeliveryDocs(config, ctx, st.date, st.cliVersion)
  {
    var d := st.date;
    NineInThrees(VisionDoc(config, ctx, d), ArchitectureDoc(config, ctx, d), DataContractsDoc(config, d),
                 ApiContractsDoc(config, d), BusinessLogicDoc(config, d), TestStrategyDoc(config, d),
                 ImplementationDoc(config, d), DeploymentDoc(config, d), ProjectIndexDoc(config, ctx, d, st.cliVersion));
  }

  /** The eleven files, in the order `generateDocs` pushes them. */
  function DocFiles(config: NexusConfig, localOnly: bool, ctx: AdoptionContext, st: Stamp): seq<GeneratedFile> {
    TemplateDocs(config, ctx, st) + [KnowledgeDoc(config, st.date)] + [ManifestFile(config, localOnly, st)]
  }

  const DocPaths := [
    ".nexus/docs/01_vision.md", ".nexus/docs/02_architecture.md", ".nexus/docs/03_data_contracts.md",
    ".nexus/docs/04_api_contracts.md", ".nexus/docs/05_business_logic.md", ".nexus/docs/06_test_strategy.md",
    ".nexus/docs/07_implementation.md", ".nexus/docs/08_deployment.md", ".nexus/docs/index.md",
    ".nexus/docs/knowledge.md", ".nexus/manifest.json"]

  /** `generateDocs`: the docs pushed one by one. */
  method GenerateDocs(config: NexusConfig, localOnly: bool, ctx: AdoptionContext, st: Stamp)
    returns (files: seq<GeneratedFile>)
    ensures files == DocFiles(config, localOnly, ctx, st)
  {
    files := [VisionDoc(config, ctx, st.date)];
    files := files + [ArchitectureDoc(config, ctx, st.date)];
    files := files + [DataContractsDoc(config, st.date)];
    files := files + [ApiContractsDoc(config, st.date)];
    files := files + [BusinessLogicDoc(config, st.date)];
    files := files + [TestStrategyDoc(config, st.date)];
    files := files + [ImplementationDoc(config, st.date)];
    files := files + [DeploymentDoc(config, st.date)];
    files := files + [ProjectIndexDoc(config, ctx, st.date, st.cliVersion)];
    files := files + [KnowledgeDoc(config, st.date)];
    files := files + [ManifestFile(config, localOnly, st)];
  }

  /** The paths of eleven files pushed one after another. */
  lemma ElevenPaths(a: GeneratedFile, b: GeneratedFile, c: GeneratedFile, d: GeneratedFile, e: GeneratedFile,
                    f: GeneratedFile, g: GeneratedFile, h: GeneratedFile, i: GeneratedFile, j: GeneratedFile,
                    k: GeneratedFile)
    ensures Paths([a] + [b] + [c] + [d] + [e] + [f] + [g] + [h] + [i] + [j] + [k])
         == [a.path, b.path, c.path, d.path, e.path, f.path, g.path, h.path, i.path, j.path, k.path]
  {
  }

  /** Eleven files at eleven fixed paths, whatever the configuration. */
  lemma DocFilesPaths(config: NexusConfig, localOnly: bool, ctx: AdoptionContext, st: Stamp)
    ensures Paths(DocFiles(config, localOnly, ctx, st)) == DocPaths
  {
    var d := st.date;
    ElevenPaths(VisionDoc(config, ctx, d), ArchitectureDoc(config, ctx, d), DataContractsDoc(config, d),
                ApiContractsDoc(config, d), BusinessLogicDoc(config, d), TestStrategyDoc(config, d),
                ImplementationDoc(config, d), DeploymentDoc(config, d), ProjectIndexDoc(config, ctx, d, st.cliVersion),
                KnowledgeDoc(config, d), ManifestFile(config, localOnly, st));
  }

  /** No two of the generated paths coincide. */
  lemma DocPathsDistinct()
    ensures Distinct(DocPaths)
  {
  }

  /** The last file is the manifest: the serialised object plus a newline, carrying
      version 1.0.0, the CLI's name and the `localOnly` the caller passed. */
  lemma ManifestContent(config: NexusConfig, localOnly: bool, ctx: AdoptionContext, st: Stamp)
    ensures var fs := DocFiles(config, localOnly, ctx, st);
      && fs != []
      && fs[|fs| - 1].path == ".nexus/manifest.json"
      && fs[|fs| - 1].content
         == st.stringify(Manifest("1.0.0", st.timestamp, config, st.cliVersion, "@nexus-framework/cli", localOnly)) + "\n"
  {
  }

  /** Three files none of which looks filled in. */
  lemma NonePopulated(a: GeneratedFile, b: GeneratedFile, c: GeneratedFile)
    requires !IsPopulated(a.content) && !IsPopulated(b.content) && !IsPopulated(c.content)
    ensures forall x | x in [a] + [b] + [c] :: !IsPopulated(x.content)
  {
  }

  /** Three files that each pass the structural check. */
  lemma NoneCorrupted(a: GeneratedFile, b: GeneratedFile, c: GeneratedFile, parsesAsJson: string -> bool)
    requires !IsCorrupted(a.path, a.content, parsesAsJson)
    requires !IsCorrupted(b.path, b.content, parsesAsJson)
    requires !IsCorrupted(c.path, c.content, parsesAsJson)
    ensures forall x | x in [a] + [b] + [c] :: !IsCorrupted(x.path, x.content, parsesAsJson)
  {
  }

  lemma ProductDocsSound(config: NexusConfig, ctx: AdoptionContext, d: string, parsesAsJson: string -> bool)
    ensures forall f | f in ProductDocs(config, ctx, d) :: !IsCorrupted(f.path, f.content, parsesAsJson)
  {
    TemplateDocSound(".nexus/docs/01_vision.md", "01_vision", "Product Vision & Requirements", d,
                     VisionBody(config, ctx), parsesAsJson);
    TemplateDocSound(".nexus/docs/02_architecture.md", "02_architecture", "System Architecture", d,
                     ArchitectureHeader(config, ctx) + ArchitectureTable(config, ctx), parsesAsJson);
    TemplateDocSound(".nexus/docs/03_data_contracts.md", "03_data_contracts", "Data Contracts", d,
                     DataContractsBody(config), parsesAsJson);
    NoneCorrupted(VisionDoc(config, ctx, d), ArchitectureDoc(config, ctx, d), DataContractsDoc(config, d), parsesAsJson);
  }

  lemma LogicDocsSound(config: NexusConfig, d: string, parsesAsJson: string -> bool)
    ensures forall f | f in LogicDocs(config, d) :: !IsCorrupted(f.path, f.content, parsesAsJson)
  {
    TemplateDocSound(".nexus/docs/04_api_contracts.md", "04_api_contracts", "API Contracts", d,
                     ProjectLine(config), parsesAsJson);
    TemplateDocSound(".nexus/docs/05_business_logic.md", "05_business_logic", "Business Logic", d,
                     BusinessLogicBody(config), parsesAsJson);
    TemplateDocSound(".nexus/docs/06_test_strategy.md", "06_test_strategy", "Test Strategy", d,
                     TestStrategyBody(config), parsesAsJson);
    NoneCorrupted(ApiContractsDoc(config, d), BusinessLogicDoc(config, d), TestStrategyDoc(config, d), parsesAsJson);
  }

  lemma ProjectIndexDocSound(config: NexusConfig, ctx: AdoptionContext, d: string, cliVersion: string,
                             parsesAsJson: string -> bool)
    ensures var f := ProjectIndexDoc(config, ctx, d, cliVersion); !IsCorrupted(f.path, f.content, parsesAsJson)
  {
    TemplateDocSound(".nexus/docs/index.md", "project_index", "Project Index — AI Agent Brain", d,
                     IndexHeader(config, d) + IndexStatus(ctx) + IndexLog(config, d, cliVersion), parsesAsJson);
  }

  lemma ImplementationDocSound(config: NexusConfig, d: string, parsesAsJson: string -> bool)
    ensures var f := ImplementationDoc(config, d); !IsCorrupted(f.path, f.content, parsesAsJson)
  {
    TemplateDocSound(".nexus/docs/07_implementation.md", "07_implementation", "Implementation Plan", d,
                     ImplementationBody(config), parsesAsJson);
  }

  lemma DeploymentDocSound(config: NexusConfig, d: string, parsesAsJson: string -> bool)
    ensures var f := DeploymentDoc(config, d); !IsCorrupted(f.path, f.content, parsesAsJson)
  {
    TemplateDocSound(".nexus/docs/08_deployment.md", "08_deployment", "Deployment", d,
                     ProjectLine(config), parsesAsJson);
  }

  lemma DeliveryDocsSound(config: NexusConfig, ctx: AdoptionContext, d: string, cliVersion: string,
                          parsesAsJson: string -> bool)
    ensures forall f | f in DeliveryDocs(config, ctx, d, cliVersion) :: !IsCorrupted(f.path, f.content, parsesAsJson)
  {
    var a, b, c := ImplementationDoc(config, d), DeploymentDoc(config, d), ProjectIndexDoc(config, ctx, d, cliVersion);
    ImplementationDocSound(config, d, parsesAsJson);
    DeploymentDocSound(config, d, parsesAsJson);
    ProjectIndexDocSound(config, ctx, d, cliVersion, parsesAsJson);
    NoneCorrupted(a, b, c, parsesAsJson);
  }

  /** The nine frontmatter docs pass the structural check, whatever their bodies hold. */
  lemma TemplateDocsSound(config: NexusConfig, ctx: AdoptionContext, st: Stamp, parsesAsJson: string -> bool)
    ensures forall f | f in TemplateDocs(config, ctx, st) :: !IsCorrupted(f.path, f.content, parsesAsJson)
  {
    var d := st.date;
    ProductDocsSound(config, ctx, d, parsesAsJson);
    LogicDocsSound(config, d, parsesAsJson);
    DeliveryDocsSound(config, ctx, d, st.cliVersion, parsesAsJson);
    TemplateDocsGroups(config, ctx, st);
  }

  /** The manifest passes the structural check exactly when its text is not blank
      and parses as JSON. */
  lemma ManifestSound(config: NexusConfig, localOnly: bool, st: Stamp, parsesAsJson: string -> bool)
    ensures var m := ManifestFile(config, localOnly, st);
      !IsCorrupted(m.path, m.content, parsesAsJson) <==> parsesAsJson(m.content) && !AllSpace(m.content)
  {
    var m := ManifestFile(config, localOnly, st);
    assert m.path[|m.path| - 5..] == ".json";
    IsCorruptedRules(m.path, m.content, parsesAsJson);
  }

  /** Every fresh file passes the structural check, provided the manifest's text
      parses: the nine frontmatter docs by their fences, the knowledge log by its
      heading, the manifest by parsing. */
  lemma DocFilesSound(config: NexusConfig, localOnly: bool, ctx: AdoptionContext, st: Stamp,
                      parsesAsJson: string -> bool)
    requires var m := ManifestFile(config, localOnly, st).content; parsesAsJson(m) && !AllSpace(m)
    ensures forall f | f in DocFiles(config, localOnly, ctx, st) :: !IsCorrupted(f.path, f.content, parsesAsJson)
  {
    TemplateDocsSound(config, ctx, st, parsesAsJson);
    KnowledgeDocSound(config, st.date, parsesAsJson);
    ManifestSound(config, localOnly, st, parsesAsJson);
    NoneCorruptedThen(TemplateDocs(config, ctx, st), KnowledgeDoc(config, st.date), ManifestFile(config, localOnly, st),
                      parsesAsJson);
  }

  /** Files of `t` and two more that all pass the structural check. */
  lemma NoneCorruptedThen(t: seq<GeneratedFile>, k: GeneratedFile, m: GeneratedFile, parsesAsJson: string -> bool)
    requires forall f | f in t :: !IsCorrupted(f.path, f.content, parsesAsJson)
    requires !IsCorrupted(k.path, k.content, parsesAsJson) && !IsCorrupted(m.path, m.content, parsesAsJson)
    ensures forall f | f in t + [k] + [m] :: !IsCorrupted(f.path, f.content, parsesAsJson)
  {
  }

  lemma TitlesNoPop()
    ensures NoPop("Product Vision & Requirements") && NoPop("System Architecture") && NoPop("Data Contracts")
    ensures NoPop("API Contracts") && NoPop("Business Logic")
  {
  }

  lemma MoreTitlesNoPop()
    ensures NoPop("Test Strategy") && NoPop("Implementation Plan") && NoPop("Deployment")
    ensures NoPop("Project Index — AI Agent Brain")
  {
  }

  lemma IdsOfDocsNoPop()
    ensures NoPop("01_vision") && NoPop("02_architecture") && NoPop("03_data_contracts")
    ensures NoPop("04_api_contracts") && NoPop("05_business_logic") && NoPop("06_test_strategy")
    ensures NoPop("07_implementation") && NoPop("08_deployment") && NoPop("project_index")
  {
  }

  lemma ProductDocsNotPopulated(config: NexusConfig, ctx: AdoptionContext, d: string, cliVersion: string)
    requires PlainValues(config, ctx, d, cliVersion)
    ensures forall f | f in ProductDocs(config, ctx, d) :: !IsPopulated(f.content)
  {
    IdsOfDocsNoPop();
    TitlesNoPop();
    MoreTitlesNoPop();
    VisionBodyNoPop(config, ctx, d, cliVersion);
    TemplateDocNotPopulated(".nexus/docs/01_vision.md", "01_vision", "Product Vision & Requirements", d, VisionBody(config, ctx));
    ArchitectureHeaderNoPop(config, ctx, d, cliVersion);
    ArchitectureTableNoPop(config, ctx, d, cliVersion);
    var a := Glue(ArchitectureHeader(config, ctx), ArchitectureTable(config, ctx));
    TemplateDocNotPopulated(".nexus/docs/02_architecture.md", "02_architecture", "System Architecture", d, a);
    DataContractsBodyNoPop(config);
    TemplateDocNotPopulated(".nexus/docs/03_data_contracts.md", "03_data_contracts", "Data Contracts", d, DataContractsBody(config));
    NonePopulated(VisionDoc(config, ctx, d), ArchitectureDoc(config, ctx, d), DataContractsDoc(config, d));
  }

  lemma LogicDocsNotPopulated(config: NexusConfig, d: string)
    requires NoPop(config.displayName) && NoPop(d)
    ensures forall f | f in LogicDocs(config, d) :: !IsPopulated(f.content)
  {
    IdsOfDocsNoPop();
    TitlesNoPop();
    MoreTitlesNoPop();
    ProjectLineNoPop(config);
    TemplateDocNotPopulated(".nexus/docs/04_api_contracts.md", "04_api_contracts", "API Contracts", d, ProjectLine(config));
    BusinessLogicBodyNoPop(config);
    TemplateDocNotPopulated(".nexus/docs/05_business_logic.md", "05_business_logic", "Business Logic", d, BusinessLogicBody(config));
    TestStrategyBodyNoPop(config);
    TemplateDocNotPopulated(".nexus/docs/06_test_strategy.md", "06_test_strategy", "Test Strategy", d, TestStrategyBody(config));
    NonePopulated(ApiContractsDoc(config, d), BusinessLogicDoc(config, d), TestStrategyDoc(config, d));
  }

  lemma DeliveryDocsNotPopulated(config: NexusConfig, ctx: AdoptionContext, d: string, cliVersion: string)
    requires PlainValues(config, ctx, d, cliVersion)
    ensures forall f | f in DeliveryDocs(config, ctx, d, cliVersion) :: !IsPopulated(f.content)
  {
    IdsOfDocsNoPop();
    TitlesNoPop();
    MoreTitlesNoPop();
    ImplementationBodyNoPop(config);
    TemplateDocNotPopulated(".nexus/docs/07_implementation.md", "07_implementation", "Implementation Plan", d, ImplementationBody(config));
    ProjectLineNoPop(config);
    TemplateDocNotPopulated(".nexus/docs/08_deployment.md", "08_deployment", "Deployment", d, ProjectLine(config));
    ProjectIndexBodyNoPop(config, ctx, d, cliVersion);
    TemplateDocNotPopulated(".nexus/docs/index.md", "project_index", "Project Index — AI Agent Brain", d,
                            IndexHeader(config, d) + IndexStatus(ctx) + IndexLog(config, d, cliVersion));
    NonePopulated(ImplementationDoc(config, d), DeploymentDoc(config, d), ProjectIndexDoc(config, ctx, d, cliVersion));
  }

  /** With values that never spell `pop`, none of the nine template docs is populated:
      a fresh doc never looks filled in. */
  lemma TemplateDocsNotPopulated(config: NexusConfig, ctx: AdoptionContext, st: Stamp)
    requires PlainValues(config, ctx, st.date, st.cliVersion)
    ensures forall f | f in TemplateDocs(config, ctx, st) :: !IsPopulated(f.content)
  {
    var d := st.date;
    ProductDocsNotPopulated(config, ctx, d, st.cliVersion);
    LogicDocsNotPopulated(config, d);
    DeliveryDocsNotPopulated(config, ctx, d, st.cliVersion);
    TemplateDocsGroups(config, ctx, st);
  }
}
