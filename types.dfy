/**
 * The configuration object every generator reads (`NexusConfig` and its
 * enumerations) and the shape of generated files.
 */
module Types {

  datatype Option<T> = None | Some(value: T)

  datatype ProjectType = Web | Api | Monorepo | Mobile | Desktop | UiLibrary

  datatype DataStrategy = LocalOnly | LocalFirst | CloudFirst | Hybrid

  datatype AppPattern = Pwa | OfflineFirst | Theming | WhiteLabel | I18n | RealTime

  /** The six declared frameworks. `Unlisted` stands for any other string a
      configuration read back from a manifest may carry; the generators' `default:`
      branches handle it. */
  datatype FrontendFramework =
    | NextJs | ReactVite | SvelteKit | Nuxt | Remix | Astro
    | Unlisted(id: string)

  datatype BackendFramework = Express | Fastify | NestJs | SpringBoot | NoBackend

  datatype BackendStrategy = Integrated | Separate | Serverless | Baas

  datatype TestFramework = Vitest | Jest | NoTests

  datatype PackageManager = Npm | Yarn | Pnpm

  datatype AgentTone = Professional | Friendly | Witty | Zen | Pirate

  datatype AgentVerbosity = Concise | Balanced | Detailed

  datatype Persona = Persona(tone: AgentTone, verbosity: AgentVerbosity, identity: string, customDirective: string)

  const DefaultPersona := Persona(Friendly, Balanced, "Nexus", "")

  datatype NexusConfig = NexusConfig(
    projectName: string,
    displayName: string,
    projectType: ProjectType,
    dataStrategy: DataStrategy,
    appPatterns: seq<AppPattern>,
    frontendFramework: FrontendFramework,
    backendStrategy: BackendStrategy,
    backendFramework: BackendFramework,
    testFramework: TestFramework,
    packageManager: PackageManager,
    git: bool,
    installDeps: bool,
    persona: Persona,
    localOnly: Option<bool>)

  /** The string each framework is written as. */
  function FrameworkId(f: FrontendFramework): string {
    match f
    case NextJs => "nextjs"
    case ReactVite => "react-vite"
    case SvelteKit => "sveltekit"
    case Nuxt => "nuxt"
    case Remix => "remix"
    case Astro => "astro"
    case Unlisted(id) => id
  }

  /** The inverse of FrameworkId: a declared id gives its framework, any other string is Unlisted. */
  function ParseFramework(s: string): (f: FrontendFramework)
    ensures f.Unlisted? <==> !IsDeclaredFrameworkId(s)
  {
    if s == "nextjs" then NextJs
    else if s == "react-vite" then ReactVite
    else if s == "sveltekit" then SvelteKit
    else if s == "nuxt" then Nuxt
    else if s == "remix" then Remix
    else if s == "astro" then Astro
    else Unlisted(s)
  }

  predicate IsDeclaredFrameworkId(s: string) {
    s in {"nextjs", "react-vite", "sveltekit", "nuxt", "remix", "astro"}
  }

  /** A framework is well formed when an Unlisted one does not reuse a declared id. */
  predicate WellFormedFramework(f: FrontendFramework) {
    f.Unlisted? ==> !IsDeclaredFrameworkId(f.id)
  }

  lemma FrameworkIdRoundTrip(f: FrontendFramework)
    requires WellFormedFramework(f)
    ensures ParseFramework(FrameworkId(f)) == f
  {
  }

  lemma ParseFrameworkRoundTrip(s: string)
    ensures FrameworkId(ParseFramework(s)) == s
    ensures WellFormedFramework(ParseFramework(s))
  {
  }

  function TestFrameworkId(t: TestFramework): string {
    match t
    case Vitest => "vitest"
    case Jest => "jest"
    case NoTests => "none"
  }

  function PackageManagerId(pm: PackageManager): string {
    match pm
    case Npm => "npm"
    case Yarn => "yarn"
    case Pnpm => "pnpm"
  }

  function DataStrategyId(d: DataStrategy): string {
    match d
    case LocalOnly => "local-only"
    case LocalFirst => "local-first"
    case CloudFirst => "cloud-first"
    case Hybrid => "hybrid"
  }

  /** A file produced by a generator: a project-relative path and its text. */
  datatype GeneratedFile = GeneratedFile(path: string, content: string)

  /** The text of a scaffolding file: either its exact text, or, where the prose
      is not modelled, the template it comes from and the values interpolated
      into it, in order. */
  datatype Body = Text(content: string) | Template(name: string, args: seq<string>)

  /** A scaffolding file: a project-relative path and the template that fills it. */
  datatype ScaffoldFile = ScaffoldFile(path: string, body: Body)

  function Paths(files: seq<GeneratedFile>): (ps: seq<string>)
    ensures |ps| == |files|
    ensures forall i | 0 <= i < |files| :: ps[i] == files[i].path
  {
    seq(|files|, i requires 0 <= i < |files| => files[i].path)
  }

  function ScaffoldPaths(files: seq<ScaffoldFile>): (ps: seq<string>)
    ensures |ps| == |files|
    ensures forall i | 0 <= i < |files| :: ps[i] == files[i].path
  {
    seq(|files|, i requires 0 <= i < |files| => files[i].path)
  }

  lemma ScaffoldPathsAppend(a: seq<ScaffoldFile>, b: seq<ScaffoldFile>)
    ensures ScaffoldPaths(a + b) == ScaffoldPaths(a) + ScaffoldPaths(b)
  {
  }

  predicate Distinct<T(==)>(s: seq<T>) {
    forall i, j | 0 <= i < j < |s| :: s[i] != s[j]
  }
}
