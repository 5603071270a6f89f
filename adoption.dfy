/**
 * The defaults offered when an existing project is adopted: its architecture
 * pattern and a one-line description of its stack, guessed from the dependencies.
 */
module Adoption {
  import opened Text
  import opened Types
  import opened ProjectDetector

  datatype ArchitectureType = Monolith | Microservices | ServerlessApp | ModularMonolith | OtherArchitecture

  function ArchitectureId(a: ArchitectureType): string {
    match a
    case Monolith => "monolith"
    case Microservices => "microservices"
    case ServerlessApp => "serverless"
    case ModularMonolith => "modular-monolith"
    case OtherArchitecture => "other"
  }

  /** `deps.map((d) => d.toLowerCase())`. */
  function LowerAll(deps: seq<string>): (r: seq<string>)
    ensures |r| == |deps|
    ensures forall i | 0 <= i < |deps| :: r[i] == ToLower(deps[i])
  {
    seq(|deps|, i requires 0 <= i < |deps| => ToLower(deps[i]))
  }

  predicate IsServerlessRuntime(d: string) {
    d == "firebase-functions" || d == "@google-cloud/functions-framework" || d == "aws-lambda" || d == "@vercel/node"
  }

  predicate MentionsMessaging(d: string) {
    Includes(d, "microservice") || Includes(d, "grpc") || Includes(d, "rabbitmq")
  }

  /** `detectArchitectureType`: serverless runtimes are looked for first, then names
      that mention microservices, gRPC or RabbitMQ; a monolith otherwise. */
  function DetectArchitectureType(deps: seq<string>): ArchitectureType {
    var lower := LowerAll(deps);
    if "firebase-functions" in lower || "@google-cloud/functions-framework" in lower
       || "aws-lambda" in lower || "@vercel/node" in lower then ServerlessApp
    else if exists d | d in lower :: MentionsMessaging(d) then Microservices
    else Monolith
  }

  /** How far the guess is from a plain monolith. */
  function Spread(a: ArchitectureType): nat {
    match a
    case ServerlessApp => 2
    case Microservices => 1
    case _ => 0
  }

  /** Only the three guessable answers come out, each exactly under its condition. */
  lemma ArchitectureTypeCases(deps: seq<string>)
    ensures var a := DetectArchitectureType(deps);
      && (a == ServerlessApp <==> exists i | 0 <= i < |deps| :: IsServerlessRuntime(ToLower(deps[i])))
      && (a == Microservices <==>
            (forall i | 0 <= i < |deps| :: !IsServerlessRuntime(ToLower(deps[i])))
            && exists i | 0 <= i < |deps| :: MentionsMessaging(ToLower(deps[i])))
      && (a == Monolith <==>
            forall i | 0 <= i < |deps| :: !IsServerlessRuntime(ToLower(deps[i])) && !MentionsMessaging(ToLower(deps[i])))
  {
    var lower := LowerAll(deps);
    if exists i | 0 <= i < |deps| :: IsServerlessRuntime(ToLower(deps[i])) {
      var i :| 0 <= i < |deps| && IsServerlessRuntime(ToLower(deps[i]));
      assert lower[i] in lower;
    }
    if exists i | 0 <= i < |deps| :: MentionsMessaging(ToLower(deps[i])) {
      var i :| 0 <= i < |deps| && MentionsMessaging(ToLower(deps[i]));
      assert lower[i] in lower;
    }
  }

  /** More dependencies never make the guess less distributed. */
  lemma ArchitectureMonotone(deps: seq<string>, more: seq<string>)
    ensures Spread(DetectArchitectureType(deps)) <= Spread(DetectArchitectureType(deps + more))
  {
    var all := deps + more;
    assert forall i | 0 <= i < |deps| :: all[i] == deps[i];
    ArchitectureTypeCases(deps);
    ArchitectureTypeCases(all);
  }

  /** The guess ignores letter case. */
  lemma ArchitectureIgnoresCase(deps: seq<string>)
    ensures DetectArchitectureType(LowerAll(deps)) == DetectArchitectureType(deps)
  {
    forall i | 0 <= i < |deps| ensures ToLower(ToLower(deps[i])) == ToLower(deps[i]) {
      ToLowerTwice(deps[i]);
    }
    assert LowerAll(LowerAll(deps)) == LowerAll(deps);
  }

  lemma ToLowerTwice(s: string)
    ensures ToLower(ToLower(s)) == ToLower(s)
  {
    assert forall i | 0 <= i < |s| :: ToLower(ToLower(s))[i] == ToLower(s)[i];
  }

  /* ── buildTechStackGuess ── */

  /** `parts.push(name)` when the test succeeds. */
  function Push(parts: seq<string>, test: bool, name: string): seq<string> {
    if test then parts + [name] else parts
  }

  /** `acc` followed by the outcome of every rule that fires, in table order. */
  function AllMatches(acc: seq<string>, rules: seq<Rule>, present: seq<string>): seq<string>
    decreases |rules|
  {
    if rules == [] then acc
    else AllMatches(Push(acc, Fires(rules[0], present), rules[0].outcome), rules[1..], present)
  }

  lemma AllMatchesUnfold(acc: seq<string>, rules: seq<Rule>, present: seq<string>)
    requires rules != []
    ensures AllMatches(acc, rules, present)
      == AllMatches(Push(acc, Fires(rules[0], present), rules[0].outcome), rules[1..], present)
  {
  }

  lemma {:induction false} AllMatchesAppend(acc: seq<string>, a: seq<Rule>, b: seq<Rule>, present: seq<string>)
    ensures AllMatches(acc, a + b, present) == AllMatches(AllMatches(acc, a, present), b, present)
    decreases |a|
  {
    if a != [] {
      assert (a + b)[1..] == a[1..] + b;
      AllMatchesAppend(Push(acc, Fires(a[0], present), a[0].outcome), a[1..], b, present);
    } else {
      assert a + b == b;
    }
  }

  /** An outcome is listed exactly when it was already there or a rule with that
      outcome fires. */
  lemma {:induction false} AllMatchesMembers(acc: seq<string>, rules: seq<Rule>, present: seq<string>, x: string)
    ensures x in AllMatches(acc, rules, present) <==>
      x in acc || exists i | 0 <= i < |rules| :: rules[i].outcome == x && Fires(rules[i], present)
    decreases |rules|
  {
    if rules != [] {
      var acc' := Push(acc, Fires(rules[0], present), rules[0].outcome);
      AllMatchesMembers(acc', rules[1..], present, x);
      assert forall i | 1 <= i < |rules| :: rules[i] == rules[1..][i - 1];
      if exists i | 0 <= i < |rules| :: rules[i].outcome == x && Fires(rules[i], present) {
        var i :| 0 <= i < |rules| && rules[i].outcome == x && Fires(rules[i], present);
        if i > 0 {
          assert rules[1..][i - 1] == rules[i];
        }
      }
    }
  }

  predicate DistinctOutcomes(rules: seq<Rule>) {
    forall i, j | 0 <= i < j < |rules| :: rules[i].outcome != rules[j].outcome
  }

  /** With distinct outcomes in the table, none of them already listed, no outcome is
      listed twice. */
  lemma {:induction false} AllMatchesDistinct(acc: seq<string>, rules: seq<Rule>, present: seq<string>)
    requires Distinct(acc) && DistinctOutcomes(rules)
    requires forall i | 0 <= i < |rules| :: rules[i].outcome !in acc
    ensures Distinct(AllMatches(acc, rules, present))
    decreases |rules|
  {
    if rules != [] {
      var rest := rules[1..];
      var acc' := Push(acc, Fires(rules[0], present), rules[0].outcome);
      assert Distinct(acc') by {
        if Fires(rules[0], present) {
          forall i, j | 0 <= i < j < |acc'| ensures acc'[i] != acc'[j] {
            if j == |acc| {
              assert acc'[i] == acc[i];
              assert acc[i] in acc;
            }
          }
        }
      }
      forall i, j | 0 <= i < j < |rest| ensures rest[i].outcome != rest[j].outcome {
        assert rest[i] == rules[i + 1] && rest[j] == rules[j + 1];
      }
      forall i | 0 <= i < |rest| ensures rest[i].outcome !in acc' {
        assert rest[i] == rules[i + 1];
      }
      AllMatchesDistinct(acc', rest, present);
    }
  }

  /** The backend framework and database tests of `buildTechStackGuess`, in order. */
  function TechRules(): seq<Rule> {
    BackendRules() + DatabaseRules()
  }

  function BackendRules(): seq<Rule> {
    [ Rule(["express"], "Express"), Rule(["fastify"], "Fastify"), Rule(["koa"], "Koa"),
      Rule(["hapi"], "Hapi"), Rule(["nestjs"], "NestJS")]
  }

  function DatabaseRules(): seq<Rule> {
    [ Rule(["mongodb", "mongoose"], "MongoDB"), Rule(["pg", "postgres"], "PostgreSQL"),
      Rule(["mysql", "mysql2"], "MySQL"), Rule(["prisma"], "Prisma")]
  }

  /** The detected framework is named unless it is missing, empty, `node` or `unknown`. */
  predicate ShowsFramework(framework: Option<string>) {
    framework.Some? && framework.value != "" && framework.value != "node" && framework.value != "unknown"
  }

  /** The labels of the guess: every matching rule's, then the framework's. */
  function TechStackParts(deps: seq<string>, framework: Option<string>): seq<string> {
    WithFramework(AllMatches([], TechRules(), deps), framework)
  }

  /** `parts` followed by the framework when it is named. */
  function WithFramework(parts: seq<string>, framework: Option<string>): seq<string> {
    if ShowsFramework(framework) then parts + [framework.value] else parts
  }

  /** The labels joined with ` + `, or `Node.js` when there are none. */
  function TechStackText(parts: seq<string>): string {
    if |parts| > 0 then Join(parts, " + ") else "Node.js"
  }

  /** `buildTechStackGuess`: collects labels test by test. */
  method BuildTechStackGuess(deps: seq<string>, framework: Option<string>) returns (guess: string)
    ensures guess == TechStackText(TechStackParts(deps, framework))
  {
    var parts: seq<string> := [];
    parts := Push(parts, "express" in deps, "Express");
    parts := Push(parts, "fastify" in deps, "Fastify");
    parts := Push(parts, "koa" in deps, "Koa");
    parts := Push(parts, "hapi" in deps, "Hapi");
    parts := Push(parts, "nestjs" in deps, "NestJS");
    BackendRulesMatch(deps);
    assert parts == AllMatches([], BackendRules(), deps);
    ghost var backend := parts;
    parts := Push(parts, "mongodb" in deps || "mongoose" in deps, "MongoDB");
    parts := Push(parts, "pg" in deps || "postgres" in deps, "PostgreSQL");
    parts := Push(parts, "mysql" in deps || "mysql2" in deps, "MySQL");
    parts := Push(parts, "prisma" in deps, "Prisma");
    DatabaseRulesMatch(backend, deps);
    AllMatchesAppend([], BackendRules(), DatabaseRules(), deps);
    ghost var matched := parts;
    assert matched == AllMatches([], TechRules(), deps);
    if framework.Some? && framework.value != "" && framework.value != "node" && framework.value != "unknown" {
      parts := parts + [framework.value];
    }
    assert parts == WithFramework(matched, framework);
    guess := if |parts| > 0 then Join(parts, " + ") else "Node.js";
  }

  lemma BackendRulesMatch(deps: seq<string>)
    ensures AllMatches([], BackendRules(), deps)
      == Push(Push(Push(Push(Push([], "express" in deps, "Express"), "fastify" in deps, "Fastify"),
                             "koa" in deps, "Koa"), "hapi" in deps, "Hapi"), "nestjs" in deps, "NestJS")
  {
    FiresOne("express", "Express", deps);
    FiresOne("fastify", "Fastify", deps);
    FiresOne("koa", "Koa", deps);
    FiresOne("hapi", "Hapi", deps);
    FiresOne("nestjs", "NestJS", deps);
    var t0 := BackendRules();
    var a0: seq<string> := [];
    AllMatchesUnfold(a0, t0, deps);
    var t1, a1 := t0[1..], Push(a0, "express" in deps, "Express");
    AllMatchesUnfold(a1, t1, deps);
    var t2, a2 := t1[1..], Push(a1, "fastify" in deps, "Fastify");
    AllMatchesUnfold(a2, t2, deps);
    var t3, a3 := t2[1..], Push(a2, "koa" in deps, "Koa");
    AllMatchesUnfold(a3, t3, deps);
    var t4, a4 := t3[1..], Push(a3, "hapi" in deps, "Hapi");
    AllMatchesUnfold(a4, t4, deps);
    assert t4[1..] == [];
  }

  lemma DatabaseRulesMatch(acc: seq<string>, deps: seq<string>)
    ensures AllMatches(acc, DatabaseRules(), deps)
      == Push(Push(Push(Push(acc, "mongodb" in deps || "mongoose" in deps, "MongoDB"),
                        "pg" in deps || "postgres" in deps, "PostgreSQL"),
                   "mysql" in deps || "mysql2" in deps, "MySQL"), "prisma" in deps, "Prisma")
  {
    FiresTwo("mongodb", "mongoose", "MongoDB", deps);
    FiresTwo("pg", "postgres", "PostgreSQL", deps);
    FiresTwo("mysql", "mysql2", "MySQL", deps);
    FiresOne("prisma", "Prisma", deps);
    var t0 := DatabaseRules();
    AllMatchesUnfold(acc, t0, deps);
    var t1, a1 := t0[1..], Push(acc, "mongodb" in deps || "mongoose" in deps, "MongoDB");
    AllMatchesUnfold(a1, t1, deps);
    var t2, a2 := t1[1..], Push(a1, "pg" in deps || "postgres" in deps, "PostgreSQL");
    AllMatchesUnfold(a2, t2, deps);
    var t3, a3 := t2[1..], Push(a2, "mysql" in deps || "mysql2" in deps, "MySQL");
    AllMatchesUnfold(a3, t3, deps);
    assert t3[1..] == [];
  }

  lemma TechRulesDistinct()
    ensures DistinctOutcomes(TechRules())
  {
    var labels := ["Express", "Fastify", "Koa", "Hapi", "NestJS", "MongoDB", "PostgreSQL", "MySQL", "Prisma"];
    assert forall i | 0 <= i < |TechRules()| :: TechRules()[i].outcome == labels[i];
    assert Distinct(labels);
  }

  /** A backend or database label is in the guess exactly when one of its dependencies
      is, and no label is repeated, provided the framework is not itself such a label. */
  lemma TechStackLabels(deps: seq<string>, framework: Option<string>, i: nat)
    requires i < |TechRules()|
    requires ShowsFramework(framework) ==> forall j | 0 <= j < |TechRules()| :: TechRules()[j].outcome != framework.value
    ensures TechRules()[i].outcome in TechStackParts(deps, framework) <==> Fires(TechRules()[i], deps)
    ensures Distinct(TechStackParts(deps, framework))
  {
    TechRulesDistinct();
    WithFrameworkLabels(TechRules(), deps, framework, i);
  }

  /** The table-generic part of TechStackLabels. */
  lemma WithFrameworkLabels(rules: seq<Rule>, deps: seq<string>, framework: Option<string>, i: nat)
    requires i < |rules| && DistinctOutcomes(rules)
    requires ShowsFramework(framework) ==> forall j | 0 <= j < |rules| :: rules[j].outcome != framework.value
    ensures rules[i].outcome in WithFramework(AllMatches([], rules, deps), framework) <==> Fires(rules[i], deps)
    ensures Distinct(WithFramework(AllMatches([], rules, deps), framework))
  {
    var m := AllMatches([], rules, deps);
    AllMatchesMembers([], rules, deps, rules[i].outcome);
    AllMatchesDistinct([], rules, deps);
    var parts := WithFramework(m, framework);
    if ShowsFramework(framework) {
      AllMatchesMembers([], rules, deps, framework.value);
      assert parts == m + [framework.value];
      forall a, b | 0 <= a < b < |parts| ensures parts[a] != parts[b] {
        if b == |m| {
          assert parts[a] == m[a];
          assert m[a] in m;
        }
      }
    } else {
      assert parts == m;
    }
  }

  /** The guess is `Node.js` exactly when no test fires and the framework is not named. */
  lemma TechStackDefault(deps: seq<string>, framework: Option<string>)
    ensures TechStackParts(deps, framework) == [] <==>
      (forall i | 0 <= i < |TechRules()| :: !Fires(TechRules()[i], deps)) && !ShowsFramework(framework)
    ensures TechStackParts(deps, framework) == [] ==> TechStackText(TechStackParts(deps, framework)) == "Node.js"
  {
    var rules := TechRules();
    if exists i | 0 <= i < |rules| :: Fires(rules[i], deps) {
      var i :| 0 <= i < |rules| && Fires(rules[i], deps);
      AllMatchesMembers([], rules, deps, rules[i].outcome);
    } else if AllMatches([], rules, deps) != [] {
      AllMatchesMembers([], rules, deps, AllMatches([], rules, deps)[0]);
    }
  }
}
