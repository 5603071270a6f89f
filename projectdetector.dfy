/**
 * Recognising an existing project before adoption: which marker files count,
 * which framework, test runner and package manager the dependencies and lockfiles
 * point to, and where the enclosing monorepo root is.
 */
module ProjectDetector {
  import opened Types

  /* ── if-chains read as first-match tables ── */

  /** One test of an if-chain: when any of `keys` is present the chain answers `outcome`. */
  datatype Rule = Rule(keys: seq<string>, outcome: string)

  predicate Fires(r: Rule, present: seq<string>) {
    exists k | k in r.keys :: k in present
  }

  /** The outcome of the first rule that fires, or None when none does. */
  function FirstMatch(rules: seq<Rule>, present: seq<string>): Option<string> {
    if rules == [] then None
    else if Fires(rules[0], present) then Some(rules[0].outcome)
    else FirstMatch(rules[1..], present)
  }

  /** Nothing matches exactly when no rule fires. */
  lemma {:induction false} FirstMatchNone(rules: seq<Rule>, present: seq<string>)
    ensures FirstMatch(rules, present).None? <==> forall i | 0 <= i < |rules| :: !Fires(rules[i], present)
  {
    if rules != [] {
      FirstMatchNone(rules[1..], present);
      assert forall i | 1 <= i < |rules| :: rules[i] == rules[1..][i - 1];
    }
  }

  /** The earliest rule that fires decides, whatever fires after it. */
  lemma {:induction false} FirstMatchEarliest(rules: seq<Rule>, present: seq<string>, i: nat)
    requires i < |rules| && Fires(rules[i], present)
    requires forall j | 0 <= j < i :: !Fires(rules[j], present)
    ensures FirstMatch(rules, present) == Some(rules[i].outcome)
  {
    if i > 0 {
      assert !Fires(rules[0], present);
      forall j | 0 <= j < i - 1 ensures !Fires(rules[1..][j], present) {
        assert rules[1..][j] == rules[j + 1];
      }
      FirstMatchEarliest(rules[1..], present, i - 1);
    }
  }

  lemma FirstMatchUnfold(rules: seq<Rule>, present: seq<string>)
    requires rules != []
    ensures FirstMatch(rules, present)
      == if Fires(rules[0], present) then Some(rules[0].outcome) else FirstMatch(rules[1..], present)
  {
  }

  lemma {:induction false} FirstMatchAppend(a: seq<Rule>, b: seq<Rule>, present: seq<string>)
    ensures FirstMatch(a + b, present)
      == if FirstMatch(a, present).Some? then FirstMatch(a, present) else FirstMatch(b, present)
  {
    if a != [] {
      assert (a + b)[1..] == a[1..] + b;
      FirstMatchAppend(a[1..], b, present);
    } else {
      assert a + b == b;
    }
  }

  lemma FiresOne(k: string, outcome: string, present: seq<string>)
    ensures Fires(Rule([k], outcome), present) <==> k in present
  {
    if k in present {
      assert k in [k];
    }
  }

  lemma FiresTwo(k1: string, k2: string, outcome: string, present: seq<string>)
    ensures Fires(Rule([k1, k2], outcome), present) <==> k1 in present || k2 in present
  {
    if k1 in present {
      assert k1 in [k1, k2];
    }
    if k2 in present {
      assert k2 in [k1, k2];
    }
  }

  /* ── detectFramework ── */

  /** `detectFramework`: the first dependency test that succeeds names the framework. */
  function DetectFramework(deps: seq<string>): Option<string> {
    if "firebase-functions" in deps then Some("cloud-functions")
    else if "@google-cloud/functions-framework" in deps then Some("cloud-functions")
    else if "next" in deps then Some("nextjs")
    else if "nuxt" in deps || "nuxt3" in deps then Some("nuxt")
    else if "@sveltejs/kit" in deps then Some("sveltekit")
    else if "astro" in deps then Some("astro")
    else if "remix" in deps || "@remix-run/react" in deps then Some("remix")
    else if "react" in deps && "vite" in deps then Some("react-vite")
    else if "react" in deps then Some("react-vite")
    else if "vue" in deps then Some("nuxt")
    else if "svelte" in deps then Some("sveltekit")
    else None
  }

  /** The framework tests as a table, in three groups: serverless runtimes, frontend
      frameworks, and the closest framework for a bare UI library. React with Vite and
      React alone give the same answer, so they are one rule. */
  function FrameworkRules(): seq<Rule> {
    ServerlessRules() + FrontendRules() + LibraryRules()
  }

  function ServerlessRules(): seq<Rule> {
    [Rule(["firebase-functions", "@google-cloud/functions-framework"], "cloud-functions")]
  }

  function FrontendRules(): seq<Rule> {
    [ Rule(["next"], "nextjs"),
      Rule(["nuxt", "nuxt3"], "nuxt"),
      Rule(["@sveltejs/kit"], "sveltekit"),
      Rule(["astro"], "astro"),
      Rule(["remix", "@remix-run/react"], "remix")]
  }

  function LibraryRules(): seq<Rule> {
    [Rule(["react"], "react-vite"), Rule(["vue"], "nuxt"), Rule(["svelte"], "sveltekit")]
  }

  lemma ServerlessRulesMatch(deps: seq<string>)
    ensures FirstMatch(ServerlessRules(), deps)
      == if "firebase-functions" in deps || "@google-cloud/functions-framework" in deps then Some("cloud-functions") else None
  {
    FiresTwo("firebase-functions", "@google-cloud/functions-framework", "cloud-functions", deps);
    FirstMatchUnfold(ServerlessRules(), deps);
  }

  lemma FrontendRulesMatch(deps: seq<string>)
    ensures FirstMatch(FrontendRules(), deps)
      == if "next" in deps then Some("nextjs")
         else if "nuxt" in deps || "nuxt3" in deps then Some("nuxt")
         else if "@sveltejs/kit" in deps then Some("sveltekit")
         else if "astro" in deps then Some("astro")
         else if "remix" in deps || "@remix-run/react" in deps then Some("remix")
         else None
  {
    FiresOne("next", "nextjs", deps);
    FiresTwo("nuxt", "nuxt3", "nuxt", deps);
    FiresOne("@sveltejs/kit", "sveltekit", deps);
    FiresOne("astro", "astro", deps);
    FiresTwo("remix", "@remix-run/react", "remix", deps);
    var t0 := FrontendRules();
    FirstMatchUnfold(t0, deps);
    var t1 := t0[1..];
    FirstMatchUnfold(t1, deps);
    var t2 := t1[1..];
    FirstMatchUnfold(t2, deps);
    var t3 := t2[1..];
    FirstMatchUnfold(t3, deps);
    var t4 := t3[1..];
    FirstMatchUnfold(t4, deps);
    assert t4[1..] == [];
  }

  lemma LibraryRulesMatch(deps: seq<string>)
    ensures FirstMatch(LibraryRules(), deps)
      == if "react" in deps then Some("react-vite")
         else if "vue" in deps then Some("nuxt")
         else if "svelte" in deps then Some("sveltekit")
         else None
  {
    FiresOne("react", "react-vite", deps);
    FiresOne("vue", "nuxt", deps);
    FiresOne("svelte", "sveltekit", deps);
    var l := LibraryRules();
    FirstMatchUnfold(l, deps);
    FirstMatchUnfold(l[1..], deps);
    FirstMatchUnfold(l[1..][1..], deps);
    assert l[1..][1..][1..] == [];
  }

  /** `detectFramework` answers with the first rule of the table that fires. */
  lemma DetectFrameworkIsFirstMatch(deps: seq<string>)
    ensures DetectFramework(deps) == FirstMatch(FrameworkRules(), deps)
  {
    FirstMatchAppend(ServerlessRules() + FrontendRules(), LibraryRules(), deps);
    FirstMatchAppend(ServerlessRules(), FrontendRules(), deps);
    ServerlessRulesMatch(deps);
    FrontendRulesMatch(deps);
    LibraryRulesMatch(deps);
  }

  /** No framework is detected exactly when no rule of the table fires. */
  lemma DetectFrameworkNone(deps: seq<string>)
    ensures DetectFramework(deps).None? <==> forall i | 0 <= i < |FrameworkRules()| :: !Fires(FrameworkRules()[i], deps)
  {
    DetectFrameworkIsFirstMatch(deps);
    FirstMatchNone(FrameworkRules(), deps);
  }

  /* ── detectTestFramework and detectPM ── */

  /** `detectTestFramework`: Vitest wins over Jest. */
  function DetectTestFramework(deps: seq<string>): Option<string> {
    if "vitest" in deps then Some("vitest")
    else if "jest" in deps then Some("jest")
    else if "@jest/core" in deps then Some("jest")
    else None
  }

  function TestRules(): seq<Rule> {
    [Rule(["vitest"], "vitest"), Rule(["jest", "@jest/core"], "jest")]
  }

  lemma DetectTestFrameworkIsFirstMatch(deps: seq<string>)
    ensures DetectTestFramework(deps) == FirstMatch(TestRules(), deps)
  {
    FiresOne("vitest", "vitest", deps);
    FiresTwo("jest", "@jest/core", "jest", deps);
    var t := TestRules();
    FirstMatchUnfold(t, deps);
    FirstMatchUnfold(t[1..], deps);
    assert t[1..][1..] == [];
  }

  /** `detectPM`: the lockfiles present among `entries`, the names in the project
      directory, in the order yarn, pnpm, npm. */
  function DetectPM(entries: seq<string>): Option<string> {
    if "yarn.lock" in entries then Some("yarn")
    else if "pnpm-lock.yaml" in entries then Some("pnpm")
    else if "package-lock.json" in entries then Some("npm")
    else None
  }

  function LockfileRules(): seq<Rule> {
    [Rule(["yarn.lock"], "yarn"), Rule(["pnpm-lock.yaml"], "pnpm"), Rule(["package-lock.json"], "npm")]
  }

  lemma DetectPMIsFirstMatch(entries: seq<string>)
    ensures DetectPM(entries) == FirstMatch(LockfileRules(), entries)
  {
    FiresOne("yarn.lock", "yarn", entries);
    FiresOne("pnpm-lock.yaml", "pnpm", entries);
    FiresOne("package-lock.json", "npm", entries);
    var l := LockfileRules();
    FirstMatchUnfold(l, entries);
    FirstMatchUnfold(l[1..], entries);
    FirstMatchUnfold(l[1..][1..], entries);
    assert l[1..][1..][1..] == [];
  }

  /* ── directories and the monorepo walk ── */

  /** An absolute directory as its names below the filesystem root; the root is `[]`. */
  type Dir = seq<string>

  /** `path.dirname` of a directory below the root. */
  function Parent(d: Dir): (p: Dir)
    requires d != []
    ensures |p| == |d| - 1 && p == d[..|p|]
  {
    d[..|d| - 1]
  }

  /** `path.basename`: the last name, `""` for the root. */
  function Basename(d: Dir): string {
    if d == [] then "" else d[|d| - 1]
  }

  /** A directory the walk accepts as a monorepo root: it holds `pnpm-workspace.yaml`,
      or a readable `package.json` whose `workspaces` field is truthy. */
  predicate IsWorkspaceRoot(d: Dir, pnpmWorkspace: set<Dir>, workspacesField: set<Dir>) {
    d in pnpmWorkspace || d in workspacesField
  }

  /** The nearest proper ancestor of `d` that is a workspace root. */
  function NearestRoot(d: Dir, pnpmWorkspace: set<Dir>, workspacesField: set<Dir>): Option<Dir>
    decreases |d|
  {
    if d == [] then None
    else if IsWorkspaceRoot(Parent(d), pnpmWorkspace, workspacesField) then Some(Parent(d))
    else NearestRoot(Parent(d), pnpmWorkspace, workspacesField)
  }

  /** `findMonorepoRoot`: walks from `start` towards the filesystem root, checking each
      parent for `pnpm-workspace.yaml` first and then for a `package.json` with
      `workspaces`. */
  method FindMonorepoRoot(start: Dir, pnpmWorkspace: set<Dir>, workspacesField: set<Dir>) returns (r: Option<Dir>)
    ensures r == NearestRoot(start, pnpmWorkspace, workspacesField)
  {
    var current := start;
    while current != []
      invariant NearestRoot(current, pnpmWorkspace, workspacesField) == NearestRoot(start, pnpmWorkspace, workspacesField)
      decreases |current|
    {
      var parent := Parent(current);
      if parent in pnpmWorkspace {
        return Some(parent);
      }
      if parent in workspacesField {
        return Some(parent);
      }
      current := parent;
    }
    return None;
  }

  /** The answer of the walk: a workspace root that is a proper ancestor of the start,
      with no workspace root between the two; None exactly when no proper ancestor
      is one. */
  lemma {:induction false} NearestRootSpec(d: Dir, pnpmWorkspace: set<Dir>, workspacesField: set<Dir>)
    ensures var r := NearestRoot(d, pnpmWorkspace, workspacesField);
      && (r.None? <==> forall k | 0 <= k < |d| :: !IsWorkspaceRoot(d[..k], pnpmWorkspace, workspacesField))
      && (r.Some? ==>
            && |r.value| < |d| && r.value == d[..|r.value|]
            && IsWorkspaceRoot(r.value, pnpmWorkspace, workspacesField)
            && forall k | |r.value| < k < |d| :: !IsWorkspaceRoot(d[..k], pnpmWorkspace, workspacesField))
    decreases |d|
  {
    if d != [] {
      var p := Parent(d);
      NearestRootSpec(p, pnpmWorkspace, workspacesField);
      assert forall k | 0 <= k < |p| :: p[..k] == d[..k];
    }
  }

  /** The walk never answers with the directory it started from. */
  lemma NearestRootNotStart(d: Dir, pnpmWorkspace: set<Dir>, workspacesField: set<Dir>)
    ensures NearestRoot(d, pnpmWorkspace, workspacesField) != Some(d)
  {
    NearestRootSpec(d, pnpmWorkspace, workspacesField);
  }

  /* ── detectSignals, isExistingProject, detectProject ── */

  datatype Signals = Signals(
    hasPackageJson: bool,
    hasGit: bool,
    hasSrc: bool,
    hasTsConfig: bool,
    hasNodeModules: bool,
    hasGoMod: bool,
    hasCargoToml: bool,
    hasPyProjectToml: bool,
    hasFirebaseJson: bool,
    hasPomXml: bool,
    hasBuildGradle: bool,
    isInsideMonorepo: bool,
    monorepoRoot: Option<Dir>)

  /** `detectSignals` for directory `dir` whose entries are `entries`, given the
      answer of the monorepo walk. */
  function DetectSignals(dir: Dir, entries: seq<string>, monorepoRoot: Option<Dir>): Signals {
    Signals(
      "package.json" in entries, ".git" in entries, "src" in entries, "tsconfig.json" in entries,
      "node_modules" in entries, "go.mod" in entries, "Cargo.toml" in entries,
      "pyproject.toml" in entries, "firebase.json" in entries, "pom.xml" in entries,
      "build.gradle" in entries || "build.gradle.kts" in entries,
      monorepoRoot.Some? && monorepoRoot.value != dir,
      monorepoRoot)
  }

  /** The `detected` flag: a project manifest of some language, or a monorepo around it. */
  predicate Detected(s: Signals) {
    s.hasPackageJson || s.hasGoMod || s.hasCargoToml || s.hasPyProjectToml
    || s.hasFirebaseJson || s.hasPomXml || s.hasBuildGradle || s.isInsideMonorepo
  }

  /** `isExistingProject`: the quick check made before offering adoption. */
  function IsExistingProject(entries: seq<string>, monorepoRoot: Option<Dir>): bool {
    if "package.json" in entries then true
    else if "pom.xml" in entries then true
    else if "build.gradle" in entries then true
    else if "build.gradle.kts" in entries then true
    else if "firebase.json" in entries then true
    else if ".firebaserc" in entries then true
    else if "go.mod" in entries then true
    else if "Cargo.toml" in entries then true
    else if "pyproject.toml" in entries then true
    else monorepoRoot.Some?
  }

  /** The quick check agrees with the `detected` flag of the full detection, except
      that `.firebaserc` alone counts for the quick check and not for detection. */
  lemma ExistingProjectIffDetected(dir: Dir, entries: seq<string>, pnpmWorkspace: set<Dir>, workspacesField: set<Dir>)
    ensures var root := NearestRoot(dir, pnpmWorkspace, workspacesField);
      IsExistingProject(entries, root) <==> Detected(DetectSignals(dir, entries, root)) || ".firebaserc" in entries
  {
    NearestRootNotStart(dir, pnpmWorkspace, workspacesField);
  }

  /** What `fs.readJSON` of a `package.json` yields: `name` and `description` when they
      are strings, and the keys of `dependencies` and `devDependencies`. */
  datatype PackageJson = PackageJson(
    name: Option<string>,
    description: Option<string>,
    dependencies: seq<string>,
    devDependencies: seq<string>)

  datatype ProjectInfo = ProjectInfo(
    detected: bool,
    signals: Signals,
    name: Option<string>,
    description: Option<string>,
    framework: Option<string>,
    testFramework: Option<string>,
    packageManager: Option<string>,
    hasNexus: bool,
    dependencies: seq<string>)

  predicate IsSpringBoot(s: Signals) { s.hasPomXml || s.hasBuildGradle }

  /** The `package.json` detection reads: the project's own, else the monorepo root's.
      `localPkg` and `rootPkg` are None when that file is missing or unreadable. */
  function SelectedPackage(s: Signals, localPkg: Option<PackageJson>, rootPkg: Option<PackageJson>): Option<PackageJson> {
    if s.hasPackageJson then localPkg
    else if s.monorepoRoot.Some? then rootPkg
    else None
  }

  /** The framework named after the language when no dependency named one. */
  function LanguageFallback(s: Signals): Option<string> {
    if s.hasGoMod then Some("go")
    else if s.hasCargoToml then Some("rust")
    else if s.hasPyProjectToml then Some("python")
    else if s.hasFirebaseJson then Some("cloud-functions")
    else None
  }

  /** `detectProject` for `dir`: `entries` are the names in it, `hasNexus` whether it
      holds `.nexus`. */
  method DetectProject(dir: Dir, s: Signals, entries: seq<string>, localPkg: Option<PackageJson>,
                       rootPkg: Option<PackageJson>, hasNexus: bool) returns (info: ProjectInfo)
    ensures info.detected == Detected(s) && info.signals == s && info.hasNexus == hasNexus
    ensures IsSpringBoot(s) ==>
      && info.framework == Some("spring-boot") && info.name == Some(Basename(dir))
      && info.description == Some("Spring Boot API")
      && info.dependencies == [] && info.testFramework.None? && info.packageManager.None?
    ensures !IsSpringBoot(s) ==> match SelectedPackage(s, localPkg, rootPkg)
      case None =>
        && info.name.None? && info.description.None? && info.dependencies == []
        && info.testFramework.None? && info.packageManager.None?
        && info.framework == LanguageFallback(s)
      case Some(pkg) =>
        && info.name == pkg.name && info.description == pkg.description
        && info.dependencies == pkg.dependencies + pkg.devDependencies
        && info.testFramework == DetectTestFramework(info.dependencies)
        && info.packageManager == DetectPM(entries)
        && info.framework == if DetectFramework(info.dependencies).Some? then DetectFramework(info.dependencies)
                             else LanguageFallback(s)
  {
    info := ProjectInfo(Detected(s), s, None, None, None, None, None, false, []);
    if IsSpringBoot(s) {
      info := info.(framework := Some("spring-boot"), name := Some(Basename(dir)),
                    description := Some("Spring Boot API"), hasNexus := hasNexus);
      return;
    }
    var pkg := SelectedPackage(s, localPkg, rootPkg);
    if pkg.Some? {
      var deps := pkg.value.dependencies + pkg.value.devDependencies;
      info := info.(name := pkg.value.name, description := pkg.value.description, dependencies := deps);
      info := info.(framework := DetectFramework(deps));
      info := info.(testFramework := DetectTestFramework(deps));
      info := info.(packageManager := DetectPM(entries));
    }
    if info.framework.None? {
      info := info.(framework := LanguageFallback(s));
    }
    info := info.(hasNexus := hasNexus);
  }
}
