/**
 * The test scaffolding of a new project (`generateTests`): four Vitest files,
 * or nothing at all. Jest is accepted as a test framework but has no branch
 * here, so a Jest project gets no test files from this generator.
 */
module TestsGen {
  import opened Types
  import Structure

  /** The four Vitest files; the example test's `describe` label is the display name. */
  function VitestFiles(displayName: string): seq<ScaffoldFile> {
    [ ScaffoldFile("vitest.config.ts", Template("vitest-config", [])),
      ScaffoldFile("tests/unit/example.test.ts", Template("vitest-example-test", [displayName])),
      ScaffoldFile("tests/setup.ts", Template("vitest-setup", [])),
      ScaffoldFile("tests/utils/test-helpers.ts", Template("vitest-helpers", [])) ]
  }

  /** `generateTests`: nothing without a test runner (early return), the Vitest
      files for Vitest, and nothing for Jest, which no branch handles. */
  method GenerateTests(config: NexusConfig) returns (files: seq<ScaffoldFile>)
    ensures config.testFramework == Vitest ==> files == VitestFiles(config.displayName)
    ensures config.testFramework != Vitest ==> files == []
  {
    if config.testFramework == NoTests {
      return [];
    }
    files := [];
    if config.testFramework == Vitest {
      files := files + [ScaffoldFile("vitest.config.ts", Template("vitest-config", []))];
      files := files + [ScaffoldFile("tests/unit/example.test.ts", Template("vitest-example-test", [config.displayName]))];
      files := files + [ScaffoldFile("tests/setup.ts", Template("vitest-setup", []))];
      files := files + [ScaffoldFile("tests/utils/test-helpers.ts", Template("vitest-helpers", []))];
    }
  }

  /** The Vitest files in order, with the display name as the example's label. */
  lemma VitestFilesLayout(displayName: string)
    ensures ScaffoldPaths(VitestFiles(displayName)) ==
      ["vitest.config.ts", "tests/unit/example.test.ts", "tests/setup.ts", "tests/utils/test-helpers.ts"]
    ensures VitestFiles(displayName)[1].body.args == [displayName]
    ensures Distinct(ScaffoldPaths(VitestFiles(displayName)))
  {
  }

  /** Every Vitest file outside the project root lands in a directory that
      `generateDirectories` creates for the same configuration. */
  lemma VitestFilesHaveDirectories(config: NexusConfig)
    requires config.testFramework == Vitest
    ensures "tests" in Structure.Directories(config.testFramework, config.frontendFramework)
    ensures "tests/unit" in Structure.Directories(config.testFramework, config.frontendFramework)
    ensures "tests/utils" in Structure.Directories(config.testFramework, config.frontendFramework)
  {
    Structure.TestDirsIffTests(config.testFramework, config.frontendFramework, "tests");
    Structure.TestDirsIffTests(config.testFramework, config.frontendFramework, "tests/unit");
    Structure.TestDirsIffTests(config.testFramework, config.frontendFramework, "tests/utils");
  }
}
