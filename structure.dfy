/**
 * The project skeleton (`generateDirectories`) and `package.json`
 * (`generatePackageJson` with the per-framework scripts and dependencies).
 * `package.json` is modelled as the object that is serialised; the
 * serialiser itself is a parameter.
 */
module Structure {
  import opened Types
  import opened Records

  /* ---------------------------------------------------------------- */
  /* Directories                                                      */
  /* ---------------------------------------------------------------- */

  function BaseDirs(): seq<string> {
    ["src", "public", ".nexus", ".nexus/docs", ".nexus/ai"]
  }

  function TestDirs(): seq<string> {
    ["tests", "tests/unit", "tests/integration", "tests/e2e", "tests/utils"]
  }

  function CiDirs(): seq<string> {
    [".github", ".github/workflows"]
  }

  /** The framework switch; Remix and any unlisted framework take the default. */
  function FrameworkDirs(fw: FrontendFramework): seq<string> {
    match fw
    case NextJs => ["src/app", "src/components", "src/lib"]
    case ReactVite => ["src/components", "src/pages", "src/hooks", "src/lib"]
    case SvelteKit => ["src/routes", "src/lib", "src/lib/components", "src/styles"]
    case Nuxt => ["src/lib", "src/components", "pages", "assets", "assets/css"]
    case Astro => ["src/pages", "src/layouts", "src/components", "src/styles"]
    case _ => ["src/lib", "src/components"]
  }

  /** The directories in the order they are pushed. */
  function Directories(test: TestFramework, fw: FrontendFramework): seq<string> {
    BaseDirs() + (if test != NoTests then TestDirs() else []) + CiDirs() + FrameworkDirs(fw)
  }

  /** `generateDirectories`: the base five, the test tree unless tests are off, the
      CI directories, then the framework's own. */
  method GenerateDirectories(config: NexusConfig) returns (dirs: seq<string>)
    ensures dirs == Directories(config.testFramework, config.frontendFramework)
  {
    dirs := ["src", "public", ".nexus", ".nexus/docs", ".nexus/ai"];
    if config.testFramework != NoTests {
      dirs := dirs + ["tests", "tests/unit", "tests/integration", "tests/e2e", "tests/utils"];
    }
    dirs := dirs + [".github", ".github/workflows"];
    match config.frontendFramework {
      case NextJs =>
        dirs := dirs + ["src/app", "src/components", "src/lib"];
      case ReactVite =>
        dirs := dirs + ["src/components", "src/pages", "src/hooks", "src/lib"];
      case SvelteKit =>
        dirs := dirs + ["src/routes", "src/lib", "src/lib/components", "src/styles"];
      case Nuxt =>
        dirs := dirs + ["src/lib", "src/components", "pages", "assets", "assets/css"];
      case Astro =>
        dirs := dirs + ["src/pages", "src/layouts", "src/components", "src/styles"];
      case _ =>
        dirs := dirs + ["src/lib", "src/components"];
    }
  }

  /** The list always opens with the base five; `.github` and `.github/workflows`
      come right after the test tree (or right after the base five without
      one), and the framework directories close the list. */
  lemma DirectoriesLayout(test: TestFramework, fw: FrontendFramework)
    ensures var dirs := Directories(test, fw);
      var k := if test != NoTests then 5 else 0;
      |dirs| == 7 + k + |FrameworkDirs(fw)| &&
      dirs[..5] == BaseDirs() &&
      dirs[5 + k] == ".github" && dirs[6 + k] == ".github/workflows" &&
      dirs[7 + k..] == FrameworkDirs(fw)
  {
    var dirs := Directories(test, fw);
    var k := if test != NoTests then 5 else 0;
    var head := BaseDirs() + (if test != NoTests then TestDirs() else []) + CiDirs();
    assert dirs == head + FrameworkDirs(fw);
    assert |head| == 7 + k;
    assert dirs[..5] == head[..5];
  }

  /** Each directory of the test tree is created exactly when a test runner is chosen. */
  lemma TestDirsIffTests(test: TestFramework, fw: FrontendFramework, d: string)
    requires d in TestDirs()
    ensures d in Directories(test, fw) <==> test != NoTests
  {
    var others := BaseDirs() + CiDirs() + FrameworkDirs(fw);
    assert d !in others;
    if test == NoTests {
      assert Directories(test, fw) == BaseDirs() + [] + CiDirs() + FrameworkDirs(fw);
      assert BaseDirs() + [] == BaseDirs();
    } else {
      assert Directories(test, fw)[5..10] == TestDirs();
    }
  }

  /* ---------------------------------------------------------------- */
  /* Scripts and dependencies                                         */
  /* ---------------------------------------------------------------- */

  function BaseScripts(): Record<string> {
    [("lint", "eslint . --ext .ts,.tsx"), ("format", "prettier --write ."), ("type-check", "tsc --noEmit")]
  }

  lemma BaseScriptsKeys(k: string)
    ensures UniqueKeys(BaseScripts())
    ensures Get(BaseScripts(), k).Some? <==> k == "lint" || k == "format" || k == "type-check"
  {
    GetNone(BaseScripts(), k);
  }

  /** The scripts a framework lists ahead of the shared base. */
  function OwnScripts(fw: FrontendFramework): Record<string> {
    match fw
    case NextJs => [("dev", "next dev"), ("build", "next build"), ("start", "next start")]
    case ReactVite => [("dev", "vite"), ("build", "tsc -b && vite build"), ("preview", "vite preview")]
    case SvelteKit => [("dev", "vite dev"), ("build", "vite build"), ("preview", "vite preview")]
    case Nuxt => [("dev", "nuxt dev"), ("build", "nuxt build"), ("preview", "nuxt preview"), ("generate", "nuxt generate")]
    case Remix => [("dev", "remix vite:dev"), ("build", "remix vite:build"), ("start", "remix-serve ./build/server/index.js")]
    case Astro => [("dev", "astro dev"), ("build", "astro build"), ("preview", "astro preview")]
    case Unlisted(_) => [("dev", "echo \"TODO: configure dev script\""), ("build", "tsc"), ("start", "node dist/index.js")]
  }

  /** Each framework's own scripts open with `dev` and `build` and carry no `test` script. */
  lemma OwnScriptsShape(fw: FrontendFramework)
    ensures Get(OwnScripts(fw), "dev").Some? && Get(OwnScripts(fw), "build").Some?
    ensures Get(OwnScripts(fw), "test").None?
  {
    GetNone(OwnScripts(fw), "test");
  }

  /** `getFrameworkScripts`: the framework's scripts followed by `...base`. */
  function FrameworkScripts(fw: FrontendFramework): Record<string> {
    Spread(OwnScripts(fw), BaseScripts())
  }

  /** Every framework gets `dev` and `build` scripts and the three base scripts
      unchanged, and none of them a `test` script. */
  lemma FrameworkScriptsProps(fw: FrontendFramework, k: string)
    ensures Get(FrameworkScripts(fw), "dev").Some? && Get(FrameworkScripts(fw), "build").Some?
    ensures Get(BaseScripts(), k).Some? ==> Get(FrameworkScripts(fw), k) == Get(BaseScripts(), k)
    ensures Get(FrameworkScripts(fw), "test").None?
  {
    OwnScriptsShape(fw);
    BaseScriptsKeys("dev");
    BaseScriptsKeys("build");
    BaseScriptsKeys("test");
    GetSpread(OwnScripts(fw), BaseScripts(), k);
    GetSpread(OwnScripts(fw), BaseScripts(), "dev");
    GetSpread(OwnScripts(fw), BaseScripts(), "build");
    GetSpread(OwnScripts(fw), BaseScripts(), "test");
  }

  function BaseDev(): Record<string> {
    [("typescript", "^5.7.0"), ("@types/node", "^22.0.0"), ("eslint", "^8.57.0"), ("prettier", "^3.4.0")]
  }

  lemma BaseDevKeys(k: string)
    ensures UniqueKeys(BaseDev())
    ensures Get(BaseDev(), k).Some? <==> k == "typescript" || k == "@types/node" || k == "eslint" || k == "prettier"
  {
    GetNone(BaseDev(), k);
  }

  datatype Dependencies = Dependencies(dependencies: Record<string>, devDependencies: Record<string>)

  /** The development dependencies a framework adds after `...baseDev`. */
  function ExtraDev(fw: FrontendFramework): Record<string> {
    match fw
    case NextJs => [("@types/react", "^19.0.0"), ("@types/react-dom", "^19.0.0")]
    case ReactVite =>
      [("vite", "^6.0.0"), ("@vitejs/plugin-react", "^4.3.0"), ("@types/react", "^19.0.0"), ("@types/react-dom", "^19.0.0")]
    case SvelteKit =>
      [("@sveltejs/kit", "^2.0.0"), ("@sveltejs/adapter-auto", "^3.0.0"),
       ("@sveltejs/vite-plugin-svelte", "^4.0.0"), ("svelte", "^5.0.0"), ("vite", "^6.0.0")]
    case Nuxt => [("nuxt", "^3.14.0"), ("vue", "^3.5.0")]
    case Remix =>
      [("@remix-run/dev", "^2.0.0"), ("vite", "^6.0.0"), ("@types/react", "^19.0.0"), ("@types/react-dom", "^19.0.0")]
    case _ => []
  }

  /** No framework repeats a key or overrides a base development dependency. */
  lemma ExtraDevKeys(fw: FrontendFramework)
    ensures UniqueKeys(ExtraDev(fw))
  {
  }

  lemma ExtraDevKeepsBaseKeys(fw: FrontendFramework)
    ensures Get(ExtraDev(fw), "typescript").None? && Get(ExtraDev(fw), "@types/node").None?
    ensures Get(ExtraDev(fw), "eslint").None? && Get(ExtraDev(fw), "prettier").None?
  {
    GetNone(ExtraDev(fw), "typescript");
    GetNone(ExtraDev(fw), "@types/node");
    GetNone(ExtraDev(fw), "eslint");
    GetNone(ExtraDev(fw), "prettier");
  }

  /** `getFrameworkDependencies`. The default branch hands back `baseDev` itself
      rather than a spread copy. */
  function FrameworkDependencies(fw: FrontendFramework): Dependencies {
    match fw
    case NextJs => Dependencies([("next", "^15.0.0"), ("react", "^19.0.0"), ("react-dom", "^19.0.0")], Spread(Spread([], BaseDev()), ExtraDev(fw)))
    case ReactVite => Dependencies([("react", "^19.0.0"), ("react-dom", "^19.0.0")], Spread(Spread([], BaseDev()), ExtraDev(fw)))
    case SvelteKit => Dependencies([], Spread(Spread([], BaseDev()), ExtraDev(fw)))
    case Nuxt => Dependencies([], Spread(Spread([], BaseDev()), ExtraDev(fw)))
    case Remix =>
      Dependencies(
        [("@remix-run/node", "^2.0.0"), ("@remix-run/react", "^2.0.0"), ("@remix-run/serve", "^2.0.0"),
         ("react", "^19.0.0"), ("react-dom", "^19.0.0")],
        Spread(Spread([], BaseDev()), ExtraDev(fw)))
    case Astro => Dependencies([("astro", "^4.0.0")], Spread([], BaseDev()))
    case Unlisted(_) => Dependencies([], BaseDev())
  }

  /** Every framework's development dependencies carry the four base entries unchanged. */
  lemma FrameworkDevKeepsBase(fw: FrontendFramework, k: string)
    requires Get(BaseDev(), k).Some?
    ensures Get(FrameworkDependencies(fw).devDependencies, k) == Get(BaseDev(), k)
  {
    BaseDevKeys(k);
    ExtraDevKeys(fw);
    ExtraDevKeepsBaseKeys(fw);
    GetSpread([], BaseDev(), k);
    if !fw.Astro? && !fw.Unlisted? {
      GetSpread(Spread([], BaseDev()), ExtraDev(fw), k);
    }
  }

  /* ---------------------------------------------------------------- */
  /* package.json                                                     */
  /* ---------------------------------------------------------------- */

  /** The object `generatePackageJson` serialises. */
  datatype Package = Package(
    name: string,
    version: string,
    isPrivate: bool,
    moduleType: string,
    scripts: Record<string>,
    dependencies: Record<string>,
    devDependencies: Record<string>)

  /** The object literal before the test-runner additions. */
  function BasePackage(config: NexusConfig): Package {
    var deps := FrameworkDependencies(config.frontendFramework);
    Package(config.projectName, "0.1.0", true, "module",
      FrameworkScripts(config.frontendFramework), deps.dependencies, deps.devDependencies)
  }

  /** The test-runner additions, as the assignments make them. */
  function WithTests(pkg: Package, test: TestFramework): Package {
    match test
    case Vitest =>
      pkg.(scripts := Set(Set(Set(pkg.scripts, "test", "vitest run"), "test:watch", "vitest"), "test:coverage", "vitest run --coverage"),
           devDependencies := Set(pkg.devDependencies, "vitest", "^3.0.0"))
    case Jest =>
      pkg.(scripts := Set(pkg.scripts, "test", "jest"),
           devDependencies := Set(Set(Set(pkg.devDependencies, "jest", "^29.0.0"), "ts-jest", "^29.0.0"), "@types/jest", "^29.0.0"))
    case NoTests => pkg
  }

  /** The object that is serialised. */
  function PackageOf(config: NexusConfig): Package {
    WithTests(BasePackage(config), config.testFramework)
  }

  /** `generatePackageJson`: builds the object, adds the test scripts and
      dependencies in place, and serialises it followed by a newline. */
  method GeneratePackageJson(config: NexusConfig, stringify: Package -> string) returns (file: GeneratedFile)
    ensures file == GeneratedFile("package.json", stringify(PackageOf(config)) + "\n")
  {
    var scripts := FrameworkScripts(config.frontendFramework);
    var deps := FrameworkDependencies(config.frontendFramework);
    var pkg := Package(config.projectName, "0.1.0", true, "module", scripts, deps.dependencies, deps.devDependencies);
    if config.testFramework == Vitest {
      pkg := pkg.(scripts := Set(pkg.scripts, "test", "vitest run"));
      pkg := pkg.(scripts := Set(pkg.scripts, "test:watch", "vitest"));
      pkg := pkg.(scripts := Set(pkg.scripts, "test:coverage", "vitest run --coverage"));
      pkg := pkg.(devDependencies := Set(pkg.devDependencies, "vitest", "^3.0.0"));
    } else if config.testFramework == Jest {
      pkg := pkg.(scripts := Set(pkg.scripts, "test", "jest"));
      pkg := pkg.(devDependencies := Set(pkg.devDependencies, "jest", "^29.0.0"));
      pkg := pkg.(devDependencies := Set(pkg.devDependencies, "ts-jest", "^29.0.0"));
      pkg := pkg.(devDependencies := Set(pkg.devDependencies, "@types/jest", "^29.0.0"));
    }
    file := GeneratedFile("package.json", stringify(pkg) + "\n");
  }

  /** The test additions set the runner's scripts and development dependencies and
      leave every other entry, and the rest of the object, as it was. */
  lemma WithTestsEntries(pkg: Package, test: TestFramework, k: string)
    ensures var w := WithTests(pkg, test);
      w.name == pkg.name && w.version == pkg.version && w.isPrivate == pkg.isPrivate &&
      w.moduleType == pkg.moduleType && w.dependencies == pkg.dependencies
    ensures Get(WithTests(pkg, test).scripts, "test") == match test
      case Vitest => Some("vitest run")
      case Jest => Some("jest")
      case NoTests => Get(pkg.scripts, "test")
    ensures test == Vitest ==>
      var w := WithTests(pkg, test);
      Get(w.scripts, "test:watch") == Some("vitest") &&
      Get(w.scripts, "test:coverage") == Some("vitest run --coverage") &&
      Get(w.devDependencies, "vitest") == Some("^3.0.0")
    ensures test == Jest ==>
      var d := WithTests(pkg, test).devDependencies;
      Get(d, "jest") == Some("^29.0.0") && Get(d, "ts-jest") == Some("^29.0.0") && Get(d, "@types/jest") == Some("^29.0.0")
    ensures k != "test" && k != "test:watch" && k != "test:coverage" ==>
      Get(WithTests(pkg, test).scripts, k) == Get(pkg.scripts, k)
    ensures k != "vitest" && k != "jest" && k != "ts-jest" && k != "@types/jest" ==>
      Get(WithTests(pkg, test).devDependencies, k) == Get(pkg.devDependencies, k)
  {
    var s := pkg.scripts;
    var s1 := Set(s, "test", "vitest run");
    var s2 := Set(s1, "test:watch", "vitest");
    GetSet(s, "test", "vitest run", "test");
    GetSet(s1, "test:watch", "vitest", "test");
    GetSet(s2, "test:coverage", "vitest run --coverage", "test");
    GetSet(s1, "test:watch", "vitest", "test:watch");
    GetSet(s2, "test:coverage", "vitest run --coverage", "test:watch");
    GetSet(s2, "test:coverage", "vitest run --coverage", "test:coverage");
    GetSet(s, "test", "jest", "test");
    GetSet(s, "test", "vitest run", k);
    GetSet(s1, "test:watch", "vitest", k);
    GetSet(s2, "test:coverage", "vitest run --coverage", k);
    GetSet(s, "test", "jest", k);
    var d := pkg.devDependencies;
    var d1 := Set(d, "jest", "^29.0.0");
    var d2 := Set(d1, "ts-jest", "^29.0.0");
    GetSet(d, "vitest", "^3.0.0", "vitest");
    GetSet(d, "jest", "^29.0.0", "jest");
    GetSet(d1, "ts-jest", "^29.0.0", "jest");
    GetSet(d2, "@types/jest", "^29.0.0", "jest");
    GetSet(d1, "ts-jest", "^29.0.0", "ts-jest");
    GetSet(d2, "@types/jest", "^29.0.0", "ts-jest");
    GetSet(d2, "@types/jest", "^29.0.0", "@types/jest");
    GetSet(d, "vitest", "^3.0.0", k);
    GetSet(d, "jest", "^29.0.0", k);
    GetSet(d1, "ts-jest", "^29.0.0", k);
    GetSet(d2, "@types/jest", "^29.0.0", k);
  }

  /** The header fields are fixed apart from the name, which is the project name. */
  lemma PackageHeader(config: NexusConfig)
    ensures var p := PackageOf(config);
      p.name == config.projectName && p.version == "0.1.0" && p.isPrivate && p.moduleType == "module"
  {
    WithTestsEntries(BasePackage(config), config.testFramework, "");
  }

  /** The `test` script: `vitest run` with Vitest (plus the watch and coverage
      scripts and the vitest dependency), `jest` with Jest (plus jest, ts-jest
      and @types/jest), and none at all without a test runner. */
  lemma PackageTestEntries(config: NexusConfig)
    ensures Get(PackageOf(config).scripts, "test") == match config.testFramework
      case Vitest => Some("vitest run")
      case Jest => Some("jest")
      case NoTests => None
    ensures config.testFramework == Vitest ==>
      var p := PackageOf(config);
      Get(p.scripts, "test:watch") == Some("vitest") &&
      Get(p.scripts, "test:coverage") == Some("vitest run --coverage") &&
      Get(p.devDependencies, "vitest") == Some("^3.0.0")
    ensures config.testFramework == Jest ==>
      var d := PackageOf(config).devDependencies;
      Get(d, "jest") == Some("^29.0.0") && Get(d, "ts-jest") == Some("^29.0.0") && Get(d, "@types/jest") == Some("^29.0.0")
  {
    FrameworkScriptsProps(config.frontendFramework, "test");
    WithTestsEntries(BasePackage(config), config.testFramework, "test");
  }

  /** Whatever the framework and test runner, the four base development
      dependencies and the three base scripts are present unchanged, and so are
      the `dev` and `build` scripts. */
  lemma PackageKeepsBase(config: NexusConfig, k: string)
    ensures Get(BaseDev(), k).Some? ==> Get(PackageOf(config).devDependencies, k) == Get(BaseDev(), k)
    ensures Get(BaseScripts(), k).Some? ==> Get(PackageOf(config).scripts, k) == Get(BaseScripts(), k)
    ensures Get(PackageOf(config).scripts, "dev").Some? && Get(PackageOf(config).scripts, "build").Some?
  {
    var fw := config.frontendFramework;
    var base := BasePackage(config);
    FrameworkScriptsProps(fw, k);
    BaseDevKeys(k);
    BaseScriptsKeys(k);
    if Get(BaseDev(), k).Some? {
      FrameworkDevKeepsBase(fw, k);
    }
    WithTestsEntries(base, config.testFramework, k);
    WithTestsEntries(base, config.testFramework, "dev");
    WithTestsEntries(base, config.testFramework, "build");
  }
}
