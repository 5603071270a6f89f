/**
 * The landing page of a new project (`generateLandingPage`): the two SVG files
 * always, then, except for API projects, the framework's page, layout and
 * stylesheet files. Markup is not modelled; each file records its template and
 * whether the project name is interpolated into it.
 */
module LandingPage {
  import opened Types
  import opened Text

  /** `landingCSS()`: the one stylesheet every framework ships. */
  function LandingCss(): Body {
    Template("landing-css", [])
  }

  function LogoFiles(): seq<ScaffoldFile> {
    [ ScaffoldFile("public/nexus-logo.svg", Template("nexus-logo-svg", [])),
      ScaffoldFile("public/favicon.svg", Template("nexus-favicon-svg", [])) ]
  }

  function NextjsLandingPage(name: string): seq<ScaffoldFile> {
    [ ScaffoldFile("src/app/page.tsx", Template("nextjs-page", [name])),
      ScaffoldFile("src/app/layout.tsx", Template("nextjs-layout", [name])),
      ScaffoldFile("src/app/globals.css", LandingCss()) ]
  }

  function ReactViteLandingPage(name: string): seq<ScaffoldFile> {
    [ ScaffoldFile("src/App.tsx", Template("react-app", [name])),
      ScaffoldFile("src/main.tsx", Template("react-main", [])),
      ScaffoldFile("index.html", Template("react-index-html", [name])),
      ScaffoldFile("src/index.css", LandingCss()) ]
  }

  function SvelteKitLandingPage(name: string): seq<ScaffoldFile> {
    [ ScaffoldFile("src/routes/+page.svelte", Template("svelte-page", [name])),
      ScaffoldFile("src/routes/+layout.svelte", Template("svelte-layout", [name])),
      ScaffoldFile("src/app.html", Template("svelte-app-html", [])),
      ScaffoldFile("src/app.css", LandingCss()) ]
  }

  function NuxtLandingPage(name: string): seq<ScaffoldFile> {
    [ ScaffoldFile("app.vue", Template("nuxt-app", [])),
      ScaffoldFile("pages/index.vue", Template("nuxt-index", [name])),
      ScaffoldFile("assets/css/main.css", LandingCss()),
      ScaffoldFile("nuxt.config.ts", Template("nuxt-config", [])) ]
  }

  function AstroLandingPage(name: string): seq<ScaffoldFile> {
    [ ScaffoldFile("src/pages/index.astro", Template("astro-index", [name])),
      ScaffoldFile("src/layouts/Layout.astro", Template("astro-layout", [])),
      ScaffoldFile("src/styles/global.css", LandingCss()) ]
  }

  /** `getLandingPageForFramework`: Remix and any unlisted framework reuse the
      Next.js page. */
  function PageFilesFor(fw: FrontendFramework, name: string): seq<ScaffoldFile> {
    match fw
    case NextJs => NextjsLandingPage(name)
    case ReactVite => ReactViteLandingPage(name)
    case SvelteKit => SvelteKitLandingPage(name)
    case Nuxt => NuxtLandingPage(name)
    case Astro => AstroLandingPage(name)
    case Remix => NextjsLandingPage(name)
    case Unlisted(_) => NextjsLandingPage(name)
  }

  /** `generateLandingPage`: the two SVG files, then (except for an API project,
      which returns early) the framework's page files. */
  method GenerateLandingPage(config: NexusConfig) returns (files: seq<ScaffoldFile>)
    ensures |files| >= 2 && files[..2] == LogoFiles()
    ensures config.projectType == Api ==> files == LogoFiles()
    ensures config.projectType != Api ==> files[2..] == PageFilesFor(config.frontendFramework, config.projectName)
  {
    files := [];
    files := files + [ScaffoldFile("public/nexus-logo.svg", Template("nexus-logo-svg", []))];
    files := files + [ScaffoldFile("public/favicon.svg", Template("nexus-favicon-svg", []))];
    if config.projectType == Api {
      return;
    }
    var pageFiles := PageFilesFor(config.frontendFramework, config.projectName);
    files := files + pageFiles;
  }

  /** The page files of each framework, by path: three for Next.js, Remix, Astro
      and any unlisted framework, four for React/Vite, SvelteKit and Nuxt. */
  lemma PageFilePaths(fw: FrontendFramework, name: string)
    ensures ScaffoldPaths(PageFilesFor(fw, name)) == match fw
      case ReactVite => ["src/App.tsx", "src/main.tsx", "index.html", "src/index.css"]
      case SvelteKit => ["src/routes/+page.svelte", "src/routes/+layout.svelte", "src/app.html", "src/app.css"]
      case Nuxt => ["app.vue", "pages/index.vue", "assets/css/main.css", "nuxt.config.ts"]
      case Astro => ["src/pages/index.astro", "src/layouts/Layout.astro", "src/styles/global.css"]
      case _ => ["src/app/page.tsx", "src/app/layout.tsx", "src/app/globals.css"]
  {
  }

  /** The stylesheet each framework's page files carry. */
  function StylesheetPath(fw: FrontendFramework): string {
    match fw
    case ReactVite => "src/index.css"
    case SvelteKit => "src/app.css"
    case Nuxt => "assets/css/main.css"
    case Astro => "src/styles/global.css"
    case _ => "src/app/globals.css"
  }

  /** Every framework ships exactly one stylesheet, and its content is
      `landingCSS()`: a page file carries the landing stylesheet exactly when it
      is the framework's stylesheet path. */
  lemma StylesheetIsLandingCss(fw: FrontendFramework, name: string, i: nat)
    requires i < |PageFilesFor(fw, name)|
    ensures var f := PageFilesFor(fw, name)[i];
      f.body == LandingCss() <==> f.path == StylesheetPath(fw)
  {
  }

  /** No path is written twice: the page files have distinct paths, none of them
      one of the two SVG files. */
  lemma LandingPathsDistinct(fw: FrontendFramework, name: string)
    ensures Distinct(ScaffoldPaths(PageFilesFor(fw, name)))
    ensures "public/nexus-logo.svg" !in ScaffoldPaths(PageFilesFor(fw, name))
    ensures "public/favicon.svg" !in ScaffoldPaths(PageFilesFor(fw, name))
  {
    PageFilePaths(fw, name);
    match fw {
      case ReactVite => PathsDistinct(["src/App.tsx", "src/main.tsx", "index.html", "src/index.css"]);
      case SvelteKit => PathsDistinct(["src/routes/+page.svelte", "src/routes/+layout.svelte", "src/app.html", "src/app.css"]);
      case Nuxt => PathsDistinct(["app.vue", "pages/index.vue", "assets/css/main.css", "nuxt.config.ts"]);
      case Astro => PathsDistinct(["src/pages/index.astro", "src/layouts/Layout.astro", "src/styles/global.css"]);
      case _ => PathsDistinct(["src/app/page.tsx", "src/app/layout.tsx", "src/app/globals.css"]);
    }
  }

  /** A list of at most four paths none of which starts `public/`, pairwise distinct. */
  lemma PathsDistinct(ps: seq<string>)
    requires ps == ["src/App.tsx", "src/main.tsx", "index.html", "src/index.css"]
      || ps == ["src/routes/+page.svelte", "src/routes/+layout.svelte", "src/app.html", "src/app.css"]
      || ps == ["app.vue", "pages/index.vue", "assets/css/main.css", "nuxt.config.ts"]
      || ps == ["src/pages/index.astro", "src/layouts/Layout.astro", "src/styles/global.css"]
      || ps == ["src/app/page.tsx", "src/app/layout.tsx", "src/app/globals.css"]
    ensures Distinct(ps)
    ensures "public/nexus-logo.svg" !in ps && "public/favicon.svg" !in ps
  {
  }
}
