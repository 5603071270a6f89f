# nexus-cli core, modelled in Dafny

This project models the core of NEXUS CLI (`@nexus-framework/cli`). The CLI scaffolds a new web project, or
adopts an existing one. It writes an AI-oriented documentation set under `.nexus/`. Later it can
**upgrade** or **repair** that set in place. The model covers these parts:

- the reconciliation engine that decides, file by file, whether a NEXUS file is created, replaced,
  preserved or repaired (`reconcileNexusFiles`, `upgradeProject`, `repairProject`);
- the two classifiers it relies on, `isPopulated` and `isCorrupted`;
- the documentation generator (`generateDocs` and its eleven files);
- the adoption path: the project detector, `buildAdoptConfig` with its `map*` helpers, the adoption
  heuristics and `appendToGitignore`;
- the scaffold generators: directories, `package.json`, `tsconfig.json` and the framework configs,
  Spring Boot files, landing pages and test files;
- the utility functions: project-name validation, slug and display-name derivation, and the
  package-manager commands.

Modules follow the source files:

| Module | Models | Form |
|---|---|---|
| `Text` | JavaScript string primitives: `trim`, `toLowerCase`, `indexOf`, `includes`, `split`, `join`, regex replace | pure |
| `Types` | the configuration enums, `NexusConfig`, `NexusManifest`, generated files | data |
| `Records` | JavaScript object literals as ordered key/value lists, with property lookup, assignment and `...` spread | pure |
| `Validator` | `src/utils/validator.ts` | pure |
| `PackageManagers` | `src/utils/package-manager.ts` | pure |
| `ProjectDetector` | `src/utils/project-detector.ts` | mixed: the monorepo walk and `detectProject` are methods |
| `Adoption` | the heuristics of `src/prompts/adoption.ts` | mixed: `buildTechStackGuess` is a method that pushes onto a list |
| `Classifier` | `isPopulated` and `isCorrupted` of `src/generators/index.ts` | pure |
| `Docs` | `src/generators/docs.ts` | mixed: `generateDocs` and the business-logic section builder are methods |
| `Reconcile` | the engine, `upgradeProject`, `repairProject` and `appendToGitignore` of `src/generators/index.ts` | imperative: class `ProjectDir` over a disk field |
| `Adopt` | `buildAdoptConfig` and the `map*` functions of `src/generators/index.ts` | pure |
| `Structure`, `Configs`, `SpringBoot`, `LandingPage`, `TestsGen` | the scaffold generators of `src/generators/` | methods that build file lists, specified by functions |

The file system is a map from relative paths to contents. A path that is present names a regular
file. The value `None` stands for a file whose read failed, which the source turns into `''`.
`ProjectDir.ReconcileNexusFiles` walks the fresh files with a loop and updates that map in place.
Its contract ties the result and the new disk to the pure function `Reconcile.Run`. The lemmas about
`Run` state what the engine promises:

- the four lists partition the fresh paths;
- each list holds exactly the paths the decision table sends there;
- every file on disk afterwards is the fresh file, or else the old content of a file that was
  preserved on purpose;
- repair never replaces a file, and repair after any run changes nothing;
- a second upgrade is a no-op on the disk.

## Model

| member | source | states |
|---|---|---|
| Types.ParseFramework | src/types/config.ts:17 | an id parses to an undeclared framework exactly when it is not one of the six declared ids |
| Types.FrameworkIdRoundTrip | src/types/config.ts:17 | a declared framework survives the trip through its id |
| Types.ParseFrameworkRoundTrip | src/types/config.ts:17 | any string read back as a framework id prints back to itself |
| Records.GetSet | src/generators/structure.ts:100-110 | after assigning property k, reading k gives the new value and every other property is unchanged |
| Records.GetSpread | src/generators/config.ts:46-85 | in `{...r, ...s}` a key of s wins and every other key keeps r's value |
| Validator.ToSlug | src/utils/validator.ts:74-83 | `toSlug`: trim, lower-case, keep slug characters, hyphenate, collapse and strip separators; specified by Validator.ToSlugIsSlug, ToSlugKeepsAlnums, ToSlugEmptyIff and ToSlugIdempotent |
| Validator.ToSlugIsSlug | src/utils/validator.ts:74-83 | toSlug yields only lower-case a-z, 0-9 and the separators `-`, `_`, `.`, with no doubled hyphen and no separator at either end |
| Validator.ToSlugKeepsAlnums | src/utils/validator.ts:74-83 | toSlug keeps every letter and digit of the lower-cased input, in order |
| Validator.ToSlugEmptyIff | src/utils/validator.ts:74-83 | toSlug gives the empty string exactly when the input has no ASCII letter or digit |
| Validator.ToSlugOfSlug | src/utils/validator.ts:74-83 | a string that already is a slug is its own slug |
| Validator.ToSlugIdempotent | src/utils/validator.ts:74-83 | toSlug applied twice equals toSlug applied once |
| Validator.SanitizeProjectName | src/utils/validator.ts:109-111 | the sanitized name is a slug with the same letters and digits as the lower-cased input |
| Validator.ToDisplayName | src/utils/validator.ts:91-103 | `toDisplayName`: free text collapsed, slugs spaced and capitalised; specified by Validator.ToDisplayNameFreeText and Validator.ToDisplayNameFromSlug |
| Validator.ToDisplayNameFromSlug | src/utils/validator.ts:91-103 | for a name without spaces or capitals, every `-`/`_` run becomes one space (the scan `Squeeze` of the trimmed name), each word start is not lower case, every other character is that spaced name's own, and lower-cased the result is the spaced name |
| Validator.ToDisplayNameFreeText | src/utils/validator.ts:91-97 | a name with a space or a capital keeps its non-space characters, trims its ends and collapses each whitespace run to one space where the run was: it equals the character scan `Squeeze` of the trimmed name |
| Validator.CapitalizeWords | src/utils/validator.ts:100-102 | capitalising words keeps the length, leaves no lower-case letter at a word start, leaves every other character as it was and changes nothing but case |
| Validator.CapitalizeWordsProps | src/utils/validator.ts:99-102 | on a lower-case slug without `-`/`_`, word starts in the result are not lower case, every other character is unchanged, and lower-casing gives back the input |
| Validator.CollapseSpacesProps | src/utils/validator.ts:95-97 | whitespace runs become single spaces in place (the result is the scan `Squeeze`), the non-space characters are kept and the ends are not spaces |
| Text.ReplaceRunsSqueeze | src/utils/validator.ts:95-102 | replacing each maximal run of a character class by one character equals the independent one-character-at-a-time scan that drops a class character following another |
| Validator.ValidateNotEmpty | src/utils/validator.ts:58-63 | valid exactly when the value is not all whitespace; otherwise the message starts with the field name |
| Validator.ValidateProjectName | src/utils/validator.ts:22-53 | the empty and no-alphanumeric inputs get their messages; valid exactly when the name has a letter or digit, npm accepts its slug and the directory does not exist |
| PackageManagers.UserAgentNamesManager | src/utils/package-manager.ts:16-30 | a user agent that starts with a manager's name selects that manager, whatever the lockfiles say |
| PackageManagers.DetectPackageManager | src/utils/package-manager.ts:16-30 | `detectPackageManager`; specified by PackageManagers.DetectionOrder and PackageManagers.UserAgentNamesManager |
| PackageManagers.DetectionOrder | src/utils/package-manager.ts:16-30 | a set user agent overrides the lockfiles, and one starting with neither `yarn` nor `pnpm` gives npm; without one, yarn.lock wins, then pnpm-lock.yaml, then npm |
| PackageManagers.GetInstallCommand | src/utils/package-manager.ts:33-42 | the install command is the manager's bare name for Yarn only, and the name followed by ` install` for npm and pnpm |
| PackageManagers.InstallCommandsDistinct | src/utils/package-manager.ts:33-42 | different managers get different install commands |
| PackageManagers.GetRunCommand | src/utils/package-manager.ts:45-54 | the run command is the manager's prefix, a space and the script |
| PackageManagers.RunCommandInjective | src/utils/package-manager.ts:45-54 | a run command determines both the manager and the script |
| ProjectDetector.FirstMatchNone | src/utils/project-detector.ts:289-306 | the first-match rule list finds nothing exactly when no rule fires |
| ProjectDetector.FirstMatchEarliest | src/utils/project-detector.ts:289-306 | the outcome is that of the earliest rule that fires |
| ProjectDetector.FirstMatchAppend | src/utils/project-detector.ts:289-306 | first match over two rule lists tries the first list entirely before the second |
| ProjectDetector.ServerlessRulesMatch | src/utils/project-detector.ts:291-292 | firebase-functions or the Google functions framework means cloud-functions |
| ProjectDetector.FrontendRulesMatch | src/utils/project-detector.ts:293-299 | next, nuxt, SvelteKit, astro and remix are checked in that order |
| ProjectDetector.LibraryRulesMatch | src/utils/project-detector.ts:300-304 | plain react, vue and svelte map to react-vite, nuxt and sveltekit |
| ProjectDetector.DetectFramework | src/utils/project-detector.ts:289-306 | `detectFramework`; specified by ProjectDetector.DetectFrameworkIsFirstMatch and ProjectDetector.DetectFrameworkNone |
| ProjectDetector.DetectFrameworkIsFirstMatch | src/utils/project-detector.ts:289-306 | detectFramework is first match over its ordered rule table |
| ProjectDetector.DetectFrameworkNone | src/utils/project-detector.ts:289-306 | no framework is detected exactly when no rule of the table fires |
| ProjectDetector.DetectTestFramework | src/utils/project-detector.ts:308-313 | `detectTestFramework`; specified by ProjectDetector.DetectTestFrameworkIsFirstMatch |
| ProjectDetector.DetectTestFrameworkIsFirstMatch | src/utils/project-detector.ts:308-313 | vitest is preferred over jest and @jest/core |
| ProjectDetector.DetectPM | src/utils/project-detector.ts:315-320 | `detectPackageManager` of the detector, from lockfiles; specified by ProjectDetector.DetectPMIsFirstMatch |
| ProjectDetector.DetectPMIsFirstMatch | src/utils/project-detector.ts:315-320 | yarn.lock is preferred over pnpm-lock.yaml, then package-lock.json |
| ProjectDetector.FindMonorepoRoot | src/utils/project-detector.ts:257-287 | the upward walk returns the nearest proper ancestor that is a workspace root |
| ProjectDetector.NearestRoot | src/utils/project-detector.ts:257-287 | the monorepo root the parent walk finds; specified by ProjectDetector.NearestRootSpec and ProjectDetector.NearestRootNotStart |
| ProjectDetector.NearestRootSpec | src/utils/project-detector.ts:257-287 | none is found exactly when no proper ancestor is a root; a found root is a proper ancestor, is a root, and no nearer ancestor is |
| ProjectDetector.NearestRootNotStart | src/utils/project-detector.ts:259 | the start directory is never its own monorepo root |
| ProjectDetector.ExistingProjectIffDetected | src/utils/project-detector.ts:80-107 | a directory counts as existing exactly when some project signal is detected or it has `.firebaserc` |
| ProjectDetector.DetectProject | src/utils/project-detector.ts:116-193 | Spring Boot wins with its fixed fields; otherwise name, framework, test runner and manager come from the local, then the monorepo-root package.json, with language fallbacks |
| Adoption.DetectArchitectureType | src/prompts/adoption.ts:135-156 | `detectArchitectureType`; specified by Adoption.ArchitectureTypeCases, ArchitectureMonotone and ArchitectureIgnoresCase |
| Adoption.ArchitectureTypeCases | src/prompts/adoption.ts:135-156 | serverless exactly when a serverless runtime is a dependency; else microservices exactly when some dependency mentions microservice, grpc or rabbitmq; else monolith |
| Adoption.ArchitectureMonotone | src/prompts/adoption.ts:135-156 | adding dependencies never moves the guess back toward monolith |
| Adoption.ArchitectureIgnoresCase | src/prompts/adoption.ts:138 | the guess does not depend on the case of the dependency names |
| Adoption.AllMatchesMembers | src/prompts/adoption.ts:166-176 | the pushed labels are exactly the outcomes of the rules that fire |
| Adoption.AllMatchesDistinct | src/prompts/adoption.ts:166-176 | rules with distinct labels push each label at most once |
| Adoption.BackendRulesMatch | src/prompts/adoption.ts:166-170 | the backend labels are pushed in the order Express, Fastify, Koa, Hapi, NestJS |
| Adoption.DatabaseRulesMatch | src/prompts/adoption.ts:173-176 | the database labels are pushed in the order MongoDB, PostgreSQL, MySQL, Prisma |
| Adoption.BuildTechStackGuess | src/prompts/adoption.ts:161-184 | the method, pushing label by label, returns the ` + `-joined matches of the rule table plus the framework, or `Node.js` |
| Adoption.TechStackLabels | src/prompts/adoption.ts:161-184 | a rule's label appears in the guess exactly when the rule fires, and no label repeats |
| Adoption.TechStackDefault | src/prompts/adoption.ts:183 | the guess is `Node.js` exactly when no rule fires and no framework is shown |
| Classifier.IsPopulated | src/generators/index.ts:210-212 | `isPopulated`; specified by Classifier.IsPopulatedIsPattern |
| Classifier.IsPopulatedIsPattern | src/generators/index.ts:210-212 | the scan answers exactly the regex: a line with `status:`, blanks, then `populated` |
| Classifier.PopulatedHasWord | src/generators/index.ts:211 | populated content contains the word `populated` |
| Classifier.FrontmatterPopulated | src/generators/index.ts:211 | a frontmatter whose status is populated is classified populated |
| Classifier.NoPopNotPopulated | src/generators/index.ts:210-212 | text with no `pop` anywhere in it is not populated |
| Classifier.EmptyNotPopulated | src/generators/index.ts:210-212 | the empty file is not populated |
| Classifier.IsCorrupted | src/generators/index.ts:222-245 | `isCorrupted`; specified by Classifier.IsCorruptedRules |
| Classifier.IsCorruptedRules | src/generators/index.ts:222-245 | blank is corrupted; JSON files are corrupted exactly when they do not parse; docs other than knowledge.md need a closed frontmatter; everything else is sound |
| Classifier.FencedNotCorrupted | src/generators/index.ts:233-240 | a non-JSON file that opens and closes a `---` fence is never corrupted |
| Docs.FrameworkDisplay | src/generators/docs.ts:22-32 | a declared framework id gets a non-empty display name that differs from the id; any other id is shown as is |
| Docs.FrameworkDisplayInjective | src/generators/docs.ts:22-32 | different declared frameworks get different display names |
| Docs.Frontmatter | src/generators/docs.ts:44-56 | `frontmatter`; specified by Docs.FrontmatterFences, FrontmatterMarks and FrontmatterSound |
| Docs.FrontmatterFences | src/generators/docs.ts:44-56 | the frontmatter opens with `---` and closes with `---` and a blank line |
| Docs.FrontmatterMarks | src/generators/docs.ts:44-56 | the frontmatter marks the file as a NEXUS doc with status template and low confidence |
| Docs.FrontmatterSound | src/generators/docs.ts:44-56 | a non-JSON file that starts with the frontmatter is never corrupted |
| Docs.TemplateDocSound | src/generators/docs.ts:92-436 | every template doc starts with its frontmatter and is not corrupted |
| Docs.TemplateDocNotPopulated | src/generators/docs.ts:44-56 | a template doc whose title, date and body contain no `pop` anywhere is not populated |
| Docs.TestStrategyBody | src/generators/docs.ts:286-320 | the body of `generateTestStrategy`; its run command is specified by Docs.RunCommand |
| Docs.RunCommand | src/generators/docs.ts:288 | npm uses `npm run`; yarn and pnpm use their bare names |
| Docs.VisionBody | src/generators/docs.ts:92-129 | the body of `generateVision`; specified by Docs.VisionUsesContext |
| Docs.VisionUsesContext | src/generators/docs.ts:96-102 | the vision doc uses the adoption description, else the placeholder, and ends with the pain points when given |
| Docs.SelectedSectionsMembers | src/generators/docs.ts:222-263 | a business-logic section is emitted exactly when its pattern or data strategy asks for it |
| Docs.SelectedSectionsOrdered | src/generators/docs.ts:226-256 | the sections come in the source's fixed order, each at most once |
| Docs.BuildPatternSections | src/generators/docs.ts:222-263 | the section loop pushes exactly the selected sections |
| Docs.PushSection | src/generators/docs.ts:226-256 | one conditional push appends the section exactly when it is wanted |
| Docs.PatternContent | src/generators/docs.ts:261-262 | the joined pattern text is empty exactly when no section is selected |
| Docs.BusinessLogicWithoutPatterns | src/generators/docs.ts:219-284 | with no selecting pattern and no local-first strategy, the business-logic body is the project line alone |
| Docs.ProjectIndexFollowsContext | src/generators/docs.ts:461-504 | the project index shows a filled status and a "See" link for the vision exactly when a description was given |
| Docs.KnowledgeDoc | src/generators/docs.ts:618-667 | the knowledge log; specified by Docs.KnowledgeDocSound |
| Docs.KnowledgeDocSound | src/generators/docs.ts:618-667 | the knowledge file starts with a heading and is not corrupted |
| Docs.ManifestOf | src/generators/docs.ts:670-686 | the manifest records version 1.0.0, the CLI name, the config, the localOnly flag and the timestamp |
| Docs.ManifestFile | src/generators/docs.ts:670-686 | the manifest is written to `.nexus/manifest.json` as stringified JSON and a newline |
| Docs.GenerateDocs | src/generators/docs.ts:65-90 | the method pushes exactly the eleven documentation files, in order |
| Docs.DocFiles | src/generators/docs.ts:65-90 | the list `generateDocs` returns; specified by Docs.GenerateDocs, DocFilesPaths, ManifestContent and DocFilesSound |
| Docs.DocFilesPaths | src/generators/docs.ts:77-87 | the generated paths are the fixed eleven paths |
| Docs.DocPathsDistinct | src/generators/docs.ts:77-87 | no path is generated twice |
| Docs.ManifestContent | src/generators/docs.ts:87 | the last generated file is the manifest with the given localOnly flag |
| Docs.TemplateDocsSound | src/generators/docs.ts:92-436 | no generated template doc is corrupted |
| Docs.ManifestSound | src/generators/index.ts:226-232 | the manifest is sound exactly when its JSON parses and is not blank |
| Docs.DocFilesSound | src/generators/docs.ts:65-90 | when the manifest parses, no generated file is corrupted |
| Docs.TemplateDocsNotPopulated | src/generators/docs.ts:44-56 | when no interpolated value contains `pop`, no fresh template doc is populated |
| Docs.ProductDocsNotPopulated | src/generators/docs.ts:92-217 | when no interpolated value contains `pop`, the vision, architecture and contract docs are not populated |
| Docs.LogicDocsNotPopulated | src/generators/docs.ts:219-320 | when neither the display name nor the date contains `pop`, the business-logic and test-strategy docs are not populated |
| Docs.DeliveryDocsNotPopulated | src/generators/docs.ts:322-605 | when no interpolated value contains `pop`, the implementation, deployment and index docs are not populated |
| Reconcile.PolicySetsDisjoint | src/generators/index.ts:190-204 | no path is both always-replaced and always-preserved |
| Reconcile.Decide | src/generators/index.ts:285-336 | missing files are created; corrupted or unreadable ones are repaired; a present, sound file is preserved exactly when the mode is repair, or its path is not always-replaced and is always-preserved or its text is populated; it is replaced exactly in the remaining upgrade cases |
| Reconcile.SelectHas | src/generators/index.ts:285-336 | a fresh file decided one way on the original disk is on that outcome's list |
| Reconcile.Run | src/generators/index.ts:255-339 | the engine's state after each file, which `ProjectDir.ReconcileNexusFiles` computes; specified by Reconcile.RunSpec and RunPartition |
| Reconcile.RunStep | src/generators/index.ts:285-336 | one loop iteration records the decision for the next file and applies it to the disk |
| Reconcile.RunSpec | src/generators/index.ts:255-339 | each result list holds exactly the fresh paths the decision table sends there, and the disk afterwards is what each decision promises |
| Reconcile.UpgradeKeepsFilled | src/generators/index.ts:316-331 | an upgrade keeps a sound file that is not always-replaced and is always-preserved or populated, with its text, and lists it as preserved |
| Reconcile.UpgradeReplacesTemplate | src/generators/index.ts:316-335 | an upgrade overwrites a sound, unpopulated file that is not always-preserved with its fresh content and lists it as replaced |
| Reconcile.UpgradeKeepsFilledDocs | src/generators/index.ts:273-336 | `upgradeProject` keeps every populated doc (and the knowledge log) other than the manifest unchanged and lists it as preserved |
| Reconcile.RunPartition | src/generators/index.ts:255-339 | the four lists together hold each fresh path exactly once |
| Reconcile.RepairNeverReplaces | src/generators/index.ts:310-314 | a repair run never reports a replaced file |
| Reconcile.RepairOfSound | src/generators/index.ts:366-371 | repair over sound files preserves everything and leaves the disk unchanged |
| Reconcile.RunLeavesSound | src/generators/index.ts:255-339 | when the fresh files are sound, every fresh path is sound on disk afterwards |
| Reconcile.RepairAfterRun | src/generators/index.ts:366-371 | a repair right after any run preserves everything and changes nothing |
| Reconcile.UpgradeStable | src/generators/index.ts:356-361 | upgrading twice with the same templates leaves the disk as the first upgrade left it |
| Reconcile.FreshPaths | src/generators/index.ts:273-276 | the fresh list holds the eleven doc paths, then the AI files, all distinct |
| Reconcile.RepairAfterUpgrade | src/generators/index.ts:356-371 | after an upgrade with fresh templates, a repair finds nothing to do |
| Reconcile.UpgradeResetsLocalOnly | src/generators/index.ts:273-276 | as written: upgrade rewrites the manifest with localOnly false whatever the project recorded |
| Reconcile.UpgradeKeepsLocalOnly | src/generators/index.ts:273-276 | corrected: upgrade writes the manifest with the localOnly flag it is given |
| Reconcile.ManifestWritten | src/generators/index.ts:318-322 | an upgrade always writes the fresh manifest |
| Reconcile.ProjectDir.ReconcileNexusFiles | src/generators/index.ts:255-339 | the loop's result lists and the new disk are those of the engine specification |
| Reconcile.ProjectDir.UpgradeProject | src/generators/index.ts:356-361 | upgrade is the engine in upgrade mode over the fresh docs and AI files |
| Reconcile.ProjectDir.UpgradeKeepingLocalOnly | src/generators/index.ts:356-361 | corrected upgrade: the engine over fresh files whose manifest keeps the recorded flag |
| Reconcile.ProjectDir.RepairProject | src/generators/index.ts:366-371 | repair is the engine in repair mode over the same fresh files |
| Reconcile.ProjectDir.AppendToGitignore | src/generators/index.ts:428-446 | the disk becomes the one with the NEXUS entry in `.gitignore` |
| Reconcile.GitignoreFreshIsTrimmedEntry | src/generators/index.ts:430-437 | a new `.gitignore` holds the trimmed entry and a newline |
| Reconcile.GitignoreAfterAppend | src/generators/index.ts:428-446 | afterwards `.gitignore` ignores `.nexus/`, an existing file keeps its old content as a prefix, and no other file changes |
| Reconcile.GitignoreIdempotent | src/generators/index.ts:438-441 | appending twice equals appending once |
| Adopt.MapFramework | src/generators/index.ts:402-409 | a declared framework id passes through; anything else becomes Next.js |
| Adopt.MapFrameworkPassesDeclared | src/generators/index.ts:402-409 | every declared framework maps back to itself |
| Adopt.MapFrameworkDefault | src/generators/index.ts:402-409 | Next.js is chosen exactly for a missing, unknown or `nextjs` id |
| Adopt.DetectedFrameworkKept | src/generators/index.ts:402-409 | every detected framework except cloud-functions is kept by adoption |
| Adopt.MapTestFramework | src/generators/index.ts:411-415 | the result is never "none", and is Jest exactly for `jest` |
| Adopt.MapTestFrameworkPasses | src/generators/index.ts:411-415 | vitest and jest map back to themselves |
| Adopt.DetectedTestFrameworkKept | src/generators/index.ts:411-415 | adoption chooses Jest exactly when jest or @jest/core is a dependency and vitest is not |
| Adopt.MapPackageManager | src/generators/index.ts:417-421 | yarn and pnpm pass through; anything else is npm |
| Adopt.MapPackageManagerPasses | src/generators/index.ts:417-421 | every manager maps back to itself |
| Adopt.DetectedPackageManagerKept | src/generators/index.ts:417-421 | adoption keeps the manager named by the lockfiles, defaulting to npm |
| Adopt.BuildAdoptConfig | src/generators/index.ts:379-400 | the name is the detected one or the directory's last component; frameworks and manager are mapped; the rest takes the fixed adoption defaults |
| Adopt.AdoptConfigWellFormed | src/generators/index.ts:379-400 | an adopted configuration always names a declared framework and a test runner |
| Adopt.AdoptedDisplayName | src/generators/index.ts:381-383 | a slug-like package name is displayed with spaces for its separators |
| Structure.GenerateDirectories | src/generators/structure.ts:13-80 | the method returns the specified directory list |
| Structure.DirectoriesLayout | src/generators/structure.ts:13-80 | the base directories come first, then the test directories when a runner is chosen, then `.github`, then the framework's own directories |
| Structure.TestDirsIffTests | src/generators/structure.ts:23-31 | the test directories are created exactly when a test runner is chosen |
| Structure.FrameworkScripts | src/generators/structure.ts:122-181 | `getFrameworkScripts`; specified by Structure.FrameworkScriptsProps |
| Structure.FrameworkDependencies | src/generators/structure.ts:184-279 | `getFrameworkDependencies`; specified by Structure.FrameworkDevKeepsBase |
| Structure.FrameworkScriptsProps | src/generators/structure.ts:122-181 | every framework has dev and build scripts, keeps the base scripts and adds no test script |
| Structure.FrameworkDevKeepsBase | src/generators/structure.ts:187-277 | every framework keeps the base dev dependencies at their base versions |
| Structure.GeneratePackageJson | src/generators/structure.ts:85-116 | package.json is the stringified package specification and a newline |
| Structure.PackageHeader | src/generators/structure.ts:89-97 | the package has the project's name, version 0.1.0, is private and is an ES module |
| Structure.PackageTestEntries | src/generators/structure.ts:100-110 | the test script and test dependencies follow the chosen runner |
| Structure.PackageKeepsBase | src/generators/structure.ts:85-116 | the base scripts and dev dependencies survive, and dev and build scripts exist |
| Configs.GenerateTsConfig | src/generators/config.ts:28-93 | the method returns the specified tsconfig |
| Configs.TsConfigModule | src/generators/config.ts:46-85 | module and moduleResolution are always set, and are NodeNext exactly for an unlisted framework |
| Configs.TsConfigOf | src/generators/config.ts:29-88 | the tsconfig object per framework; specified by Configs.GenerateTsConfig, TsConfigModule, TsConfigKeepsBase and TsConfigLists |
| Configs.TsConfigKeepsBase | src/generators/config.ts:29-43 | no framework overrides a base compiler option |
| Configs.TsConfigLists | src/generators/config.ts:46-85 | the exclude list is fixed; SvelteKit has its own include list; next-env.d.ts only for Next.js; astro sources only for Astro |
| Configs.GenerateConfigs | src/generators/config.ts:13-26 | tsconfig, eslint, prettier and editorconfig come first, then the framework's configs |
| Configs.FrameworkConfigs | src/generators/config.ts:154-165 | the framework config files; specified by Configs.FrameworkConfigPaths |
| Configs.FrameworkConfigPaths | src/generators/config.ts:154-165 | the framework configs per framework, with every path distinct |
| SpringBoot.ToPascalCase | src/generators/spring-boot.ts:234-239 | `toPascalCase`; specified by SpringBoot.ToPascalCaseScan and SpringBoot.PascalCaseLower |
| SpringBoot.PascalCaseLower | src/generators/spring-boot.ts:234-239 | the Pascal-case name is the name without hyphens, up to case |
| SpringBoot.Capitalize | src/generators/spring-boot.ts:237 | the first character is upper-cased and the rest is kept |
| SpringBoot.ToPascalCaseScan | src/generators/spring-boot.ts:234-239 | `toPascalCase` equals the character scan `Pascal`: each `-` dropped, the first character and each one after a `-` upper-cased, every other kept |
| SpringBoot.PackageName | src/generators/spring-boot.ts:138 | the Java package name; specified by SpringBoot.PackageNameProps |
| SpringBoot.ClassName | src/generators/spring-boot.ts:137 | the application class name, the Pascal-case name followed by `Application`; the Pascal-case part is specified by SpringBoot.ToPascalCaseScan |
| SpringBoot.PackageNameProps | src/generators/spring-boot.ts:136-158 | the Java package has no hyphen and its directory lies under com/example/ with no dots |
| SpringBoot.GenerateSpringBootFiles | src/generators/spring-boot.ts:13-32 | the method returns the specified five files |
| SpringBoot.SpringBootLayout | src/generators/spring-boot.ts:13-32 | pom, properties, application class, controller and test, at paths under the package directory |
| LandingPage.GenerateLandingPage | src/generators/landing-page.ts:83-100 | the two logos come first; API projects get nothing else; others get their framework's page files |
| LandingPage.PageFilesFor | src/generators/landing-page.ts:105-125 | the page files per framework; specified by LandingPage.PageFilePaths, StylesheetIsLandingCss and LandingPathsDistinct |
| LandingPage.PageFilePaths | src/generators/landing-page.ts:105-125 | the page files of each framework |
| LandingPage.StylesheetIsLandingCss | src/generators/landing-page.ts:58-74 | a page file carries the landing stylesheet exactly when it is the framework's stylesheet path |
| LandingPage.LandingPathsDistinct | src/generators/landing-page.ts:83-125 | page paths are distinct and never collide with the logos |
| TestsGen.GenerateTests | src/generators/tests.ts:13-26 | Vitest gets its four files; Jest and no runner get none |
| TestsGen.VitestFilesLayout | src/generators/tests.ts:13-26 | the four Vitest paths, distinct, with the display name in the example test |
| TestsGen.VitestFilesHaveDirectories | src/generators/structure.ts:23-31 | every Vitest file lies in a directory the structure generator creates |

## Left out

- Text: case mapping is ASCII only, as the slug and display-name code needs. JavaScript's full Unicode `toLowerCase`/`toUpperCase` is not modelled. Whitespace is JavaScript's `\s` set.
- File-system I/O is a map from paths to contents. Directory creation (`ensureDirectory`), permissions and I/O errors other than an unreadable file are not modelled.
- `JSON.parse`, `JSON.stringify` and the npm name check (`validate-npm-package-name`) are function parameters, not implementations.
- `fs.existsSync` on the target directory is a boolean parameter of `Validator.ValidateProjectName`.
- Dates, timestamps and the CLI version are parameters.
- The `user_agent` environment variable is a string parameter. The empty string stands for "unset".
- Template prose of the scaffold files (pom, controllers, pages, CSS, test bodies) is an abstract template name with its interpolated arguments. Paths, order and interpolated values are modelled.
- Docs: the document bodies model the lines that interpolate the configuration, the date, the CLI version or the adoption context, and the headings around them. The fixed prose between them is not modelled.
- NoPopNotPopulated: it requires the text to contain no `pop` anywhere, not just no `status:` followed by `populated`. `isPopulated`'s pattern does not anchor `status:` to a line start, so a value such as a project description reading `status: populated` would make a doc populated; some condition on the values is needed, and `NoPop` is the one whose proof composes piece by piece.
- TemplateDocNotPopulated: requires `NoPop` of the title, date and body, so values containing `pop` (a project called `popcorn`) are outside it, for the reason given for NoPopNotPopulated.
- TemplateDocsNotPopulated: covers only the modelled lines and requires `PlainValues`: the display name, framework id, date, CLI version and adoption answers contain no `pop`.
- ProductDocsNotPopulated: covers only the modelled lines and requires `PlainValues`: the display name, framework id, date, CLI version and adoption answers contain no `pop`.
- LogicDocsNotPopulated: covers only the modelled lines and requires the display name and date to contain no `pop`.
- DeliveryDocsNotPopulated: covers only the modelled lines and requires `PlainValues`: the display name, framework id, date, CLI version and adoption answers contain no `pop`.
- ValidateNotEmpty: the field name has no default here. Callers that omit it in the source get `Value`; the model takes the name explicitly, and `ValidateNotEmpty(v, "Value")` stands for the one-argument call.
- Records: object key order is modelled as list order, but only property lookup is proved about it, not the serialised order.
- `detectSignals` runs its checks with `Promise.all`; the model evaluates them in sequence, which gives the same result.
- Package directories form a list of path components. Symbolic links and `..` are not modelled.
- `generateAiConfig` and `ci-cd.ts` are not part of this model. Their files are an abstract list `ai` whose paths must not clash with the docs' paths.
- `generateGitignore` and `generateReadme` are not modelled: they are fixed prose.
- The command layer (`src/commands/`), the prompts other than the adoption heuristics, the logger and git helpers are not modelled. Neither is the orchestration in `generateProject`/`adoptProject` (spinner, writing order).
- TestsGen.GenerateTests: Jest projects get no test files, as the source does. This is modelled as written.
- Reconcile: `.nexus/index.md` is in the always-replace set, but the generator writes `.nexus/docs/index.md`, which is not in either set. That file is therefore replaced only while it is not populated. This is modelled as written.

## Findings

| source | as written | input that shows it | evidently intended | confidence | as-written member | corrected member |
|---|---|---|---|---|---|---|
| src/generators/index.ts:273-276 | the upgrade regenerates the docs with `generateDocs(config)`, so the manifest, which is always replaced, records `localOnly: false` | a project adopted with `--local-only` (manifest `localOnly: true`), then upgraded | the upgrade keeps the project's recorded `localOnly` flag in the new manifest | not executed | Reconcile.UpgradeResetsLocalOnly | Reconcile.UpgradeKeepsLocalOnly |
