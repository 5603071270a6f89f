/**
 * Turning a detected project into a configuration for `nexus adopt`
 * (`buildAdoptConfig` and the three `map*` functions of the generators' entry
 * point): detected strings become the closest configuration values, with a fixed
 * default for anything unrecognised.
 */
module Adopt {
  import opened Types
  import Text
  import Validator
  import ProjectDetector

  /** `mapFramework`: a declared framework id passes through; anything else,
      a missing value included, becomes Next.js. */
  function MapFramework(detected: Option<string>): (f: FrontendFramework)
    ensures !f.Unlisted?
    ensures f != NextJs ==> detected == Some(FrameworkId(f))
  {
    if detected.Some? && IsDeclaredFrameworkId(detected.value) then ParseFramework(detected.value)
    else NextJs
  }

  /** Every declared framework survives the trip through its id. */
  lemma MapFrameworkPassesDeclared(f: FrontendFramework)
    requires !f.Unlisted?
    ensures MapFramework(Some(FrameworkId(f))) == f
  {
    FrameworkIdRoundTrip(f);
  }

  /** The default is taken exactly for a missing or unrecognised id (or `nextjs` itself). */
  lemma MapFrameworkDefault(detected: Option<string>)
    ensures MapFramework(detected) == NextJs <==>
      detected.None? || !IsDeclaredFrameworkId(detected.value) || detected.value == "nextjs"
  {
    if detected.Some? && IsDeclaredFrameworkId(detected.value) {
      ParseFrameworkRoundTrip(detected.value);
    }
  }

  /** Every framework the dependency detector can name, except Cloud Functions,
      is a declared framework and is kept by adoption. */
  lemma DetectedFrameworkKept(deps: seq<string>)
    ensures var d := ProjectDetector.DetectFramework(deps);
      d.Some? && d.value != "cloud-functions" ==> FrameworkId(MapFramework(d)) == d.value
    ensures ProjectDetector.DetectFramework(deps) == Some("cloud-functions") ==> MapFramework(ProjectDetector.DetectFramework(deps)) == NextJs
  {
    var d := ProjectDetector.DetectFramework(deps);
    if d.Some? && d.value != "cloud-functions" {
      assert IsDeclaredFrameworkId(d.value);
      ParseFrameworkRoundTrip(d.value);
    }
  }

  /** `mapTestFramework`: `vitest` and `jest` pass through; anything else becomes
      Vitest, so an adopted project always has a test runner. */
  function MapTestFramework(detected: Option<string>): (t: TestFramework)
    ensures t != NoTests
    ensures t == Jest <==> detected == Some("jest")
  {
    if detected == Some("vitest") then Vitest
    else if detected == Some("jest") then Jest
    else Vitest
  }

  lemma MapTestFrameworkPasses(t: TestFramework)
    requires t != NoTests
    ensures MapTestFramework(Some(TestFrameworkId(t))) == t
  {
  }

  /** The detected test runner is kept: Jest exactly when the dependencies name
      jest or @jest/core and not vitest. */
  lemma DetectedTestFrameworkKept(deps: seq<string>)
    ensures MapTestFramework(ProjectDetector.DetectTestFramework(deps)) == Jest <==>
      !("vitest" in deps) && ("jest" in deps || "@jest/core" in deps)
  {
  }

  /** `mapPackageManager`: `yarn` and `pnpm` pass through; anything else becomes npm. */
  function MapPackageManager(detected: Option<string>): (pm: PackageManager)
    ensures pm == Yarn <==> detected == Some("yarn")
    ensures pm == Pnpm <==> detected == Some("pnpm")
  {
    if detected == Some("yarn") then Yarn
    else if detected == Some("pnpm") then Pnpm
    else Npm
  }

  /** The inverse of PackageManagerId on the ids it produces. */
  lemma MapPackageManagerPasses(pm: PackageManager)
    ensures MapPackageManager(Some(PackageManagerId(pm))) == pm
  {
  }

  /** Adoption keeps the package manager the lockfiles name, and falls back to npm. */
  lemma DetectedPackageManagerKept(entries: seq<string>)
    ensures MapPackageManager(ProjectDetector.DetectPM(entries)) ==
      if "yarn.lock" in entries then Yarn
      else if "pnpm-lock.yaml" in entries then Pnpm
      else Npm
  {
  }

  /** `buildAdoptConfig`: the detected name, or else the directory's last
      component, is the project name; its display form is derived from it; the
      detected framework, test runner and package manager are mapped; everything
      else takes the adoption defaults. The interview answers are not read. */
  function BuildAdoptConfig(targetDir: ProjectDetector.Dir, info: ProjectDetector.ProjectInfo): (c: NexusConfig)
    ensures info.name.Some? ==> c.projectName == info.name.value
    ensures info.name.None? ==> c.projectName == ProjectDetector.Basename(targetDir)
    ensures c.displayName == Validator.ToDisplayName(c.projectName)
    ensures c.frontendFramework == MapFramework(info.framework)
    ensures c.testFramework == MapTestFramework(info.testFramework)
    ensures c.packageManager == MapPackageManager(info.packageManager)
    ensures c.projectType == Web && c.dataStrategy == CloudFirst && c.appPatterns == []
    ensures c.backendStrategy == Integrated && c.backendFramework == NoBackend
    ensures c.git && !c.installDeps && c.persona == DefaultPersona && c.localOnly.None?
  {
    var slug := if info.name.Some? then info.name.value else ProjectDetector.Basename(targetDir);
    NexusConfig(
      projectName := slug,
      displayName := Validator.ToDisplayName(slug),
      projectType := Web,
      dataStrategy := CloudFirst,
      appPatterns := [],
      frontendFramework := MapFramework(info.framework),
      backendStrategy := Integrated,
      backendFramework := NoBackend,
      testFramework := MapTestFramework(info.testFramework),
      packageManager := MapPackageManager(info.packageManager),
      git := true,
      installDeps := false,
      persona := DefaultPersona,
      localOnly := None)
  }

  /** An adopted configuration always names a declared framework and a test runner,
      so every generator takes one of its listed branches for it. */
  lemma AdoptConfigWellFormed(targetDir: ProjectDetector.Dir, info: ProjectDetector.ProjectInfo)
    ensures WellFormedFramework(BuildAdoptConfig(targetDir, info).frontendFramework)
    ensures BuildAdoptConfig(targetDir, info).testFramework != NoTests
  {
  }

  /** A package name in slug form (no whitespace, no capital) is shown with its
      `-`/`_` runs as single spaces and each word capitalised: in lower case the
      display name is the name with its separators spaced out, and only word starts
      differ from that. */
  lemma AdoptedDisplayName(targetDir: ProjectDetector.Dir, info: ProjectDetector.ProjectInfo)
    ensures var c := BuildAdoptConfig(targetDir, info);
      var t := Text.Trim(c.projectName);
      var d, spaced := c.displayName, Validator.SpaceSeparators(t);
      !Validator.HasSpace(t) && !Validator.HasUpper(t) ==>
        && Text.ToLower(d) == spaced
        && |d| == |spaced|
        && (forall i | 0 <= i < |d| && !Validator.WordStart(d, i) :: d[i] == spaced[i])
        && (forall i | 0 <= i < |d| && Validator.WordStart(d, i) :: !Text.IsLower(d[i]))
        && forall i | 0 <= i < |d| :: !Validator.IsDashOrUnderscore(d[i])
  {
    var c := BuildAdoptConfig(targetDir, info);
    var t := Text.Trim(c.projectName);
    if !Validator.HasSpace(t) && !Validator.HasUpper(t) {
      Validator.ToDisplayNameFromSlug(c.projectName);
    }
  }
}
