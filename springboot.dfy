/**
 * The Spring Boot (Maven) skeleton of `generateSpringBootFiles`: five files in
 * a fixed order, with the Java package and class names derived from the
 * project name. Only paths and the values interpolated into the templates
 * are modelled.
 */
module SpringBoot {
  import opened Types
  import opened Text

  /** `word.charAt(0).toUpperCase() + word.slice(1)`. */
  function Capitalize(w: string): (r: string)
    ensures |r| == |w|
    ensures ToLower(r) == ToLower(w)
    ensures w != [] ==> r[0] == ToUpperChar(w[0]) && !IsLower(r[0]) && r[1..] == w[1..]
  {
    if w == [] then [] else [ToUpperChar(w[0])] + w[1..]
  }

  function CapitalizeAll(ws: seq<string>): (r: seq<string>)
    ensures |r| == |ws|
    ensures forall k | 0 <= k < |ws| :: r[k] == Capitalize(ws[k])
  {
    seq(|ws|, k requires 0 <= k < |ws| => Capitalize(ws[k]))
  }

  /** `toPascalCase`: split on `-`, capitalise each piece, concatenate. */
  function ToPascalCase(s: string): string {
    Join(CapitalizeAll(Split(s, '-')), "")
  }

  /** `s.replace(/c/g, '')` distributes over concatenation. */
  lemma {:induction false} RemoveCharAppend(a: string, b: string, c: char)
    ensures RemoveChar(a + b, c) == RemoveChar(a, c) + RemoveChar(b, c)
  {
    if a != [] {
      RemoveCharAppend(a[1..], b, c);
      var h := if a[0] == c then [] else [a[0]];
      assert (a + b)[0] == a[0] && (a + b)[1..] == a[1..] + b;
      assert RemoveChar(a + b, c) == h + (RemoveChar(a[1..], c) + RemoveChar(b, c));
      assert RemoveChar(a, c) == h + RemoveChar(a[1..], c);
      AppendAssoc(h, RemoveChar(a[1..], c), RemoveChar(b, c));
    } else {
      assert a + b == b;
    }
  }

  lemma AppendAssoc(x: string, y: string, z: string)
    ensures x + (y + z) == (x + y) + z
  {
  }

  /** Removing the separators from the joined pieces gives the pieces run together. */
  lemma {:induction false} RemoveSeparators(parts: seq<string>, c: char)
    requires parts != []
    requires forall k | 0 <= k < |parts| :: c !in parts[k]
    ensures RemoveChar(Join(parts, [c]), c) == Join(parts, "")
  {
    if |parts| > 1 {
      RemoveSeparators(parts[1..], c);
      var rest := Join(parts[1..], [c]);
      assert Join(parts, [c]) == parts[0] + [c] + rest;
      RemoveCharAppend(parts[0] + [c], rest, c);
      RemoveCharAppend(parts[0], [c], c);
      assert RemoveChar([c], c) == [];
      assert RemoveChar(parts[0] + [c], c) == parts[0];
      assert Join(parts, "") == parts[0] + "" + Join(parts[1..], "");
      assert parts[0] + "" == parts[0];
    }
  }

  /** Capitalising the pieces changes no letter's lower-case form. */
  lemma {:induction false} LowerOfCapitalized(parts: seq<string>)
    ensures ToLower(Join(CapitalizeAll(parts), "")) == ToLower(Join(parts, ""))
  {
    if |parts| > 1 {
      LowerOfCapitalized(parts[1..]);
      assert CapitalizeAll(parts)[1..] == CapitalizeAll(parts[1..]);
      var c0 := Capitalize(parts[0]);
      var cr := Join(CapitalizeAll(parts[1..]), "");
      var pr := Join(parts[1..], "");
      assert Join(CapitalizeAll(parts), "") == c0 + cr by {
        assert c0 + "" == c0;
      }
      assert Join(parts, "") == parts[0] + pr by {
        assert parts[0] + "" == parts[0];
      }
      ToLowerAppend(c0, cr);
      ToLowerAppend(parts[0], pr);
    }
  }

  /** `toPascalCase` drops the hyphens and changes nothing else but letter case:
      in lower case it is the name with its hyphens removed. */
  lemma PascalCaseLower(s: string)
    ensures ToLower(ToPascalCase(s)) == ToLower(RemoveChar(s, '-'))
    ensures |ToPascalCase(s)| == |RemoveChar(s, '-')|
  {
    var parts := Split(s, '-');
    RemoveSeparators(parts, '-');
    LowerOfCapitalized(parts);
  }

  /** The PascalCase of `s` read one character at a time: hyphens are dropped, the
      first character and every character right after a hyphen is upper-cased, every
      other character is kept. `atStart` says whether a word starts here. */
  function Pascal(s: string, atStart: bool): string {
    if s == [] then []
    else if s[0] == '-' then Pascal(s[1..], true)
    else [if atStart then ToUpperChar(s[0]) else s[0]] + Pascal(s[1..], false)
  }

  /** On a single piece the scan keeps the piece, capitalised when it starts a word. */
  lemma {:induction false} PascalWord(a: string)
    requires '-' !in a
    ensures Pascal(a, false) == a
    ensures Pascal(a, true) == Capitalize(a)
  {
    if a != [] {
      assert '-' !in a[1..];
      PascalWord(a[1..]);
    }
  }

  /** The scan over a piece, a hyphen and the rest is the scan over the piece followed
      by the scan over the rest, which starts a new word. */
  lemma {:induction false} PascalPiece(a: string, t: string, atStart: bool)
    requires '-' !in a
    ensures Pascal(a + ['-'] + t, atStart) == Pascal(a, atStart) + Pascal(t, true)
  {
    if a == [] {
      assert a + ['-'] + t == ['-'] + t;
    } else {
      assert (a + ['-'] + t)[1..] == a[1..] + ['-'] + t;
      assert '-' !in a[1..];
      PascalPiece(a[1..], t, false);
    }
  }

  /** `toPascalCase` is the character-by-character scan: each `-` dropped, the first
      character and each one after a `-` upper-cased, every other one unchanged. */
  lemma {:induction false} ToPascalCaseScan(s: string)
    ensures ToPascalCase(s) == Pascal(s, true)
    decreases |s|
  {
    if '-' !in s {
      PascalWord(s);
    } else {
      var i := FirstIndex(s, '-');
      var rest := s[i + 1..];
      ToPascalCaseScan(rest);
      var parts := Split(s, '-');
      assert parts == [s[..i]] + Split(rest, '-');
      var caps := CapitalizeAll(parts);
      assert caps[1..] == CapitalizeAll(Split(rest, '-'));
      assert ToPascalCase(s) == Capitalize(s[..i]) + ToPascalCase(rest) by {
        assert Join(caps, "") == caps[0] + "" + Join(caps[1..], "");
        assert caps[0] + "" == caps[0];
      }
      PascalWord(s[..i]);
      assert s == s[..i] + ['-'] + rest;
      PascalPiece(s[..i], rest, true);
    }
  }

  /** The group id of the generated Maven project. */
  function GroupId(): string {
    "com.example"
  }

  /** `com.example.` followed by the project name with every `-` removed. */
  function PackageName(projectName: string): string {
    "com.example." + RemoveChar(projectName, '-')
  }

  /** The package as a directory path: every `.` becomes `/`. */
  function PackageDir(projectName: string): string {
    ReplaceChar(PackageName(projectName), '.', '/')
  }

  function ClassName(projectName: string): string {
    ToPascalCase(projectName) + "Application"
  }

  /** The package name has no hyphen, and its directory starts `com/example/` and
      has neither `.` nor `-`. */
  lemma PackageNameProps(projectName: string)
    ensures '-' !in PackageName(projectName)
    ensures var d := PackageDir(projectName);
      |d| >= 12 && d[..12] == "com/example/" && '.' !in d && '-' !in d
  {
    var p := PackageName(projectName);
    var d := PackageDir(projectName);
    assert p[..12] == "com.example.";
    forall i | 0 <= i < 12 ensures d[i] == "com/example/"[i] {
      assert p[i] == "com.example."[i];
    }
    assert forall i | 0 <= i < |p| :: p[i] != '-' by {
      forall i | 0 <= i < |p| ensures p[i] != '-' {
        if i >= 12 {
          assert p[i] == RemoveChar(projectName, '-')[i - 12];
        } else {
          assert p[i] == "com.example."[i];
        }
      }
    }
  }

  /** The five files in the order `generateSpringBootFiles` pushes them. */
  function SpringBootFiles(config: NexusConfig): seq<ScaffoldFile> {
    var name := config.projectName;
    [ ScaffoldFile("pom.xml", Template("pom", [GroupId(), name, config.displayName])),
      ScaffoldFile("src/main/resources/application.properties", Template("application-properties", [config.displayName, name])),
      ScaffoldFile("src/main/java/" + PackageDir(name) + "/" + ClassName(name) + ".java",
        Template("application-class", [PackageName(name), config.displayName, ClassName(name)])),
      ScaffoldFile("src/main/java/" + PackageDir(name) + "/controller/HelloController.java",
        Template("hello-controller", [PackageName(name), config.displayName, name])),
      ScaffoldFile("src/test/java/" + PackageDir(name) + "/" + ClassName(name) + "Tests.java",
        Template("application-test", [PackageName(name), config.displayName, ClassName(name)])) ]
  }

  /** `generateSpringBootFiles`: pushes the five files one by one. */
  method GenerateSpringBootFiles(config: NexusConfig) returns (files: seq<ScaffoldFile>)
    ensures files == SpringBootFiles(config)
  {
    var name := config.projectName;
    files := [];
    files := files + [ScaffoldFile("pom.xml", Template("pom", [GroupId(), name, config.displayName]))];
    files := files + [ScaffoldFile("src/main/resources/application.properties",
      Template("application-properties", [config.displayName, name]))];
    var className := ClassName(name);
    var packageName := PackageName(name);
    var dir := PackageDir(name);
    files := files + [ScaffoldFile("src/main/java/" + dir + "/" + className + ".java",
      Template("application-class", [packageName, config.displayName, className]))];
    files := files + [ScaffoldFile("src/main/java/" + dir + "/controller/HelloController.java",
      Template("hello-controller", [packageName, config.displayName, name]))];
    files := files + [ScaffoldFile("src/test/java/" + dir + "/" + className + "Tests.java",
      Template("application-test", [packageName, config.displayName, className]))];
  }

  /** `pom.xml`, `application.properties`, the application class, the sample
      controller and the application test, in that order. The Java files sit
      under the package directory; the test class is the application class with
      `Tests` appended, in the same package. The Maven coordinates are
      `com.example` and the project name. */
  lemma SpringBootLayout(config: NexusConfig)
    ensures var files := SpringBootFiles(config);
      var dir := PackageDir(config.projectName);
      var cls := ClassName(config.projectName);
      |files| == 5 &&
      files[0].path == "pom.xml" && files[0].body.args[..2] == ["com.example", config.projectName] &&
      files[1].path == "src/main/resources/application.properties" &&
      files[2].path == "src/main/java/" + dir + "/" + cls + ".java" &&
      files[3].path == "src/main/java/" + dir + "/controller/HelloController.java" &&
      files[4].path == "src/test/java/" + dir + "/" + cls + "Tests.java" &&
      files[4].body.args == files[2].body.args
  {
  }
}
