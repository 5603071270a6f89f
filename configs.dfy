/**
 * The configuration files of a new project (`generateConfigs`): `tsconfig.json`,
 * whose compiler options and include list depend on the framework, the three
 * fixed lint/format/editor files, then the framework's own build configuration.
 * JSON serialisation is a parameter; fixed file bodies are not modelled.
 */
module Configs {
  import opened Types
  import opened Records

  /** A compiler-option value as the source writes them. */
  datatype OptionValue = Str(s: string) | Flag(b: bool) | Strings(items: seq<string>) | Plugins(names: seq<string>)

  datatype TsConfig = TsConfig(compilerOptions: Record<OptionValue>, includes: seq<string>, excludes: seq<string>)

  /** The compiler options shared by every framework. */
  function BaseCompilerOptions(): Record<OptionValue> {
    [ ("target", Str("ES2022")), ("lib", Strings(["ES2022", "DOM", "DOM.Iterable"])),
      ("strict", Flag(true)), ("esModuleInterop", Flag(true)), ("skipLibCheck", Flag(true)),
      ("forceConsistentCasingInFileNames", Flag(true)), ("resolveJsonModule", Flag(true)),
      ("isolatedModules", Flag(true)), ("noEmit", Flag(true)) ]
  }

  function BaseInclude(): seq<string> {
    ["src/**/*.ts", "src/**/*.tsx"]
  }

  function Exclude(): seq<string> {
    ["node_modules", "dist"]
  }

  /** The options each branch of the framework switch assigns, in order. */
  function Overrides(fw: FrontendFramework): Record<OptionValue> {
    match fw
    case NextJs =>
      [("module", Str("ESNext")), ("moduleResolution", Str("Bundler")), ("jsx", Str("preserve")),
       ("incremental", Flag(true)), ("plugins", Plugins(["next"]))]
    case ReactVite => [("module", Str("ESNext")), ("moduleResolution", Str("Bundler")), ("jsx", Str("react-jsx"))]
    case Remix => [("module", Str("ESNext")), ("moduleResolution", Str("Bundler")), ("jsx", Str("react-jsx"))]
    case SvelteKit => [("module", Str("ESNext")), ("moduleResolution", Str("Bundler"))]
    case Nuxt => [("module", Str("ESNext")), ("moduleResolution", Str("Bundler")), ("jsx", Str("preserve"))]
    case Astro => [("module", Str("ESNext")), ("moduleResolution", Str("Bundler")), ("jsx", Str("react-jsx"))]
    case Unlisted(_) =>
      [("module", Str("NodeNext")), ("moduleResolution", Str("NodeNext")), ("jsx", Str("preserve")), ("incremental", Flag(true))]
  }

  /** The include list after the switch; SvelteKit empties it and starts over. */
  function IncludeOf(fw: FrontendFramework): seq<string> {
    match fw
    case NextJs => BaseInclude() + ["next-env.d.ts", ".next/types/**/*.ts"]
    case SvelteKit => ["src/**/*.ts", "src/**/*.svelte"]
    case Astro => BaseInclude() + ["src/**/*.astro"]
    case _ => BaseInclude()
  }

  /** The object `generateTsConfig` serialises: the base options with the
      framework's assignments applied. */
  function TsConfigOf(fw: FrontendFramework): TsConfig {
    TsConfig(Spread(BaseCompilerOptions(), Overrides(fw)), IncludeOf(fw), Exclude())
  }

  /** `generateTsConfig`'s object: the base options and include list, updated in
      place by the framework's branch. */
  method GenerateTsConfig(fw: FrontendFramework) returns (ts: TsConfig)
    ensures ts == TsConfigOf(fw)
  {
    var options := BaseCompilerOptions();
    var includes := ["src/**/*.ts", "src/**/*.tsx"];
    var excludes := ["node_modules", "dist"];
    match fw {
      case NextJs =>
        options := Set(options, "module", Str("ESNext"));
        options := Set(options, "moduleResolution", Str("Bundler"));
        options := Set(options, "jsx", Str("preserve"));
        options := Set(options, "incremental", Flag(true));
        options := Set(options, "plugins", Plugins(["next"]));
        includes := includes + ["next-env.d.ts", ".next/types/**/*.ts"];
      case ReactVite =>
        options := Set(options, "module", Str("ESNext"));
        options := Set(options, "moduleResolution", Str("Bundler"));
        options := Set(options, "jsx", Str("react-jsx"));
      case Remix =>
        options := Set(options, "module", Str("ESNext"));
        options := Set(options, "moduleResolution", Str("Bundler"));
        options := Set(options, "jsx", Str("react-jsx"));
      case SvelteKit =>
        options := Set(options, "module", Str("ESNext"));
        options := Set(options, "moduleResolution", Str("Bundler"));
        includes := [];
        includes := includes + ["src/**/*.ts", "src/**/*.svelte"];
      case Nuxt =>
        options := Set(options, "module", Str("ESNext"));
        options := Set(options, "moduleResolution", Str("Bundler"));
        options := Set(options, "jsx", Str("preserve"));
      case Astro =>
        options := Set(options, "module", Str("ESNext"));
        options := Set(options, "moduleResolution", Str("Bundler"));
        options := Set(options, "jsx", Str("react-jsx"));
        includes := includes + ["src/**/*.astro"];
      case Unlisted(_) =>
        options := Set(options, "module", Str("NodeNext"));
        options := Set(options, "moduleResolution", Str("NodeNext"));
        options := Set(options, "jsx", Str("preserve"));
        options := Set(options, "incremental", Flag(true));
    }
    SpreadOverrides(fw);
    ts := TsConfig(options, includes, excludes);
  }

  /** The assignments of each branch, one after the other, are the spread of its
      overrides onto the base options. */
  lemma SpreadOverrides(fw: FrontendFramework)
    ensures var o := Overrides(fw);
      Spread(BaseCompilerOptions(), o) ==
        if |o| == 2 then Set(Set(BaseCompilerOptions(), o[0].0, o[0].1), o[1].0, o[1].1)
        else if |o| == 3 then Set(Set(Set(BaseCompilerOptions(), o[0].0, o[0].1), o[1].0, o[1].1), o[2].0, o[2].1)
        else if |o| == 4 then
          Set(Set(Set(Set(BaseCompilerOptions(), o[0].0, o[0].1), o[1].0, o[1].1), o[2].0, o[2].1), o[3].0, o[3].1)
        else
          Set(Set(Set(Set(Set(BaseCompilerOptions(), o[0].0, o[0].1), o[1].0, o[1].1), o[2].0, o[2].1), o[3].0, o[3].1), o[4].0, o[4].1)
  {
    var o := Overrides(fw);
    var b := BaseCompilerOptions();
    assert 2 <= |o| <= 5;
    SpreadStep(b, o);
    SpreadStep(Set(b, o[0].0, o[0].1), o[1..]);
    var b2 := Set(Set(b, o[0].0, o[0].1), o[1].0, o[1].1);
    assert o[1..][0] == o[1] && o[1..][1..] == o[2..];
    if |o| == 2 {
      assert o[2..] == [];
    } else {
      SpreadStep(b2, o[2..]);
      var b3 := Set(b2, o[2].0, o[2].1);
      assert o[2..][1..] == o[3..];
      if |o| == 3 {
        assert o[3..] == [];
      } else {
        SpreadStep(b3, o[3..]);
        var b4 := Set(b3, o[3].0, o[3].1);
        assert o[3..][1..] == o[4..];
        if |o| == 4 {
          assert o[4..] == [];
        } else {
          SpreadStep(b4, o[4..]);
          assert o[4..][1..] == [];
        }
      }
    }
  }

  lemma SpreadStep(r: Record<OptionValue>, s: Record<OptionValue>)
    requires s != []
    ensures Spread(r, s) == Spread(Set(r, s[0].0, s[0].1), s[1..])
  {
  }

  /** Every branch assigns `module` and `moduleResolution`, each key once, and
      only the default branch picks `NodeNext`. */
  lemma OverridesKeys(fw: FrontendFramework)
    ensures UniqueKeys(Overrides(fw))
    ensures Get(Overrides(fw), "module").Some? && Get(Overrides(fw), "moduleResolution").Some?
    ensures Get(Overrides(fw), "module") == Some(Str("NodeNext")) <==> fw.Unlisted?
    ensures Get(Overrides(fw), "moduleResolution") == Some(Str("NodeNext")) <==> fw.Unlisted?
  {
  }

  /** The branches assign only options the base does not set. */
  lemma OverridesLeaveBase(fw: FrontendFramework, k: string)
    requires Get(BaseCompilerOptions(), k).Some?
    ensures Get(Overrides(fw), k).None?
  {
    BaseOptionKeys(k);
    OverrideKeys(fw, k);
  }

  lemma BaseOptionKeys(k: string)
    ensures Get(BaseCompilerOptions(), k).Some? ==>
      k == "target" || k == "lib" || k == "strict" || k == "esModuleInterop" || k == "skipLibCheck" ||
      k == "forceConsistentCasingInFileNames" || k == "resolveJsonModule" || k == "isolatedModules" || k == "noEmit"
  {
    GetNone(BaseCompilerOptions(), k);
  }

  lemma OverrideKeys(fw: FrontendFramework, k: string)
    ensures Get(Overrides(fw), k).Some? ==>
      k == "module" || k == "moduleResolution" || k == "jsx" || k == "incremental" || k == "plugins"
  {
    GetNone(Overrides(fw), k);
  }

  /** Every framework's tsconfig sets `module` and `moduleResolution`, and sets
      them to `NodeNext` exactly for a framework outside the listed six. */
  lemma TsConfigModule(fw: FrontendFramework)
    ensures var o := TsConfigOf(fw).compilerOptions;
      Get(o, "module").Some? && Get(o, "moduleResolution").Some? &&
      (Get(o, "module") == Some(Str("NodeNext")) <==> fw.Unlisted?) &&
      (Get(o, "moduleResolution") == Some(Str("NodeNext")) <==> fw.Unlisted?)
  {
    OverridesKeys(fw);
    GetSpread(BaseCompilerOptions(), Overrides(fw), "module");
    GetSpread(BaseCompilerOptions(), Overrides(fw), "moduleResolution");
  }

  /** Every base compiler option (`strict: true` among them) is present unchanged. */
  lemma TsConfigKeepsBase(fw: FrontendFramework, k: string)
    requires Get(BaseCompilerOptions(), k).Some?
    ensures Get(TsConfigOf(fw).compilerOptions, k) == Get(BaseCompilerOptions(), k)
  {
    OverridesKeys(fw);
    OverridesLeaveBase(fw, k);
    GetSpread(BaseCompilerOptions(), Overrides(fw), k);
  }

  /** `exclude` is always `node_modules`, `dist`. `include` keeps the two base
      globs first except for SvelteKit, which has exactly the TypeScript and Svelte
      globs; the Next.js entries appear only for Next.js and the Astro glob only
      for Astro. */
  lemma TsConfigLists(fw: FrontendFramework)
    ensures TsConfigOf(fw).excludes == ["node_modules", "dist"]
    ensures fw != SvelteKit ==> |TsConfigOf(fw).includes| >= 2 && TsConfigOf(fw).includes[..2] == BaseInclude()
    ensures fw == SvelteKit ==> TsConfigOf(fw).includes == ["src/**/*.ts", "src/**/*.svelte"]
    ensures "next-env.d.ts" in TsConfigOf(fw).includes <==> fw == NextJs
    ensures "src/**/*.astro" in TsConfigOf(fw).includes <==> fw == Astro
  {
    var inc := TsConfigOf(fw).includes;
    if fw == NextJs {
      assert inc[2] == "next-env.d.ts";
    } else if fw == Astro {
      assert inc[2] == "src/**/*.astro";
    }
  }

  /** `generateFrameworkConfigs`: the framework's own build configuration files. */
  function FrameworkConfigs(fw: FrontendFramework): seq<ScaffoldFile> {
    match fw
    case ReactVite => [ScaffoldFile("vite.config.ts", Template("vite-react", []))]
    case SvelteKit =>
      [ScaffoldFile("svelte.config.js", Template("svelte-config", [])),
       ScaffoldFile("vite.config.ts", Template("vite-sveltekit", []))]
    case Astro => [ScaffoldFile("astro.config.mjs", Template("astro-config", []))]
    case _ => []
  }

  /** `generateConfigs`: `tsconfig.json` (the serialised object and a newline),
      the ESLint, Prettier and EditorConfig files, then the framework's files. */
  method GenerateConfigs(config: NexusConfig, stringify: TsConfig -> string) returns (files: seq<ScaffoldFile>)
    ensures ScaffoldPaths(files) ==
      ["tsconfig.json", ".eslintrc.cjs", ".prettierrc", ".editorconfig"] + ScaffoldPaths(FrameworkConfigs(config.frontendFramework))
    ensures files[0].body == Text(stringify(TsConfigOf(config.frontendFramework)) + "\n")
    ensures files[4..] == FrameworkConfigs(config.frontendFramework)
  {
    files := [];
    var ts := GenerateTsConfig(config.frontendFramework);
    files := files + [ScaffoldFile("tsconfig.json", Text(stringify(ts) + "\n"))];
    files := files + [ScaffoldFile(".eslintrc.cjs", Template("eslintrc", []))];
    files := files + [ScaffoldFile(".prettierrc", Template("prettierrc", []))];
    files := files + [ScaffoldFile(".editorconfig", Template("editorconfig", []))];
    ghost var fixed := files;
    assert ScaffoldPaths(fixed) == ["tsconfig.json", ".eslintrc.cjs", ".prettierrc", ".editorconfig"];
    var frameworkConfigs := FrameworkConfigs(config.frontendFramework);
    files := files + frameworkConfigs;
    ScaffoldPathsAppend(fixed, frameworkConfigs);
    assert files[4..] == frameworkConfigs;
  }

  /** React/Vite adds `vite.config.ts`; SvelteKit `svelte.config.js` then
      `vite.config.ts`; Astro `astro.config.mjs`; every other framework nothing.
      No framework file repeats a fixed file's path. */
  lemma FrameworkConfigPaths(fw: FrontendFramework)
    ensures ScaffoldPaths(FrameworkConfigs(fw)) == match fw
      case ReactVite => ["vite.config.ts"]
      case SvelteKit => ["svelte.config.js", "vite.config.ts"]
      case Astro => ["astro.config.mjs"]
      case _ => []
    ensures Distinct(["tsconfig.json", ".eslintrc.cjs", ".prettierrc", ".editorconfig"] + ScaffoldPaths(FrameworkConfigs(fw)))
  {
  }
}
