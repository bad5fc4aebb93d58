/**
 * The `@TestBean` processor: a test bean is produced by a static factory
 * method of the test class, chosen among candidate names. The rule is a
 * unique match or an error; the fixtures are the test classes that pin it.
 */
module ConventionOverride {
  import opened Wrappers
  import opened JavaLang
  import opened Reflection

  /** The `methodName` attribute of `@TestBean` (empty when not given). */
  datatype TestBean = TestBean(methodName: string)

  datatype ProcessorError =
    | NoCandidateNames
    | FactoryMethodNotFound(className: ClassName, returnType: TypeName, candidates: seq<string>)
    | CompetingFactoryMethods(count: nat, className: ClassName, returnType: TypeName, candidates: seq<string>)

  /** `MethodConventionOverrideMetadata`: the field, the factory method when
      it was resolved up front, and the type to override. */
  datatype ConventionMetadata = ConventionMetadata(
    field: FieldInfo,
    overrideMethod: Option<MethodInfo>,
    typeToOverride: TypeName)

  predicate IsCandidate(m: MethodInfo, returnType: TypeName, candidates: seq<string>)
  {
    m.isStatic && m.name in candidates && m.returnType == returnType
  }

  /** The declared methods that qualify, in the order reflection lists the
      declared methods (the JDK leaves it unspecified). */
  function Matching(methods: seq<MethodInfo>, returnType: TypeName, candidates: seq<string>): (r: seq<MethodInfo>)
    ensures |r| <= |methods|
    ensures forall m :: m in r <==> m in methods && IsCandidate(m, returnType, candidates)
  {
    if methods == [] then []
    else if IsCandidate(methods[0], returnType, candidates)
    then [methods[0]] + Matching(methods[1..], returnType, candidates)
    else Matching(methods[1..], returnType, candidates)
  }

  /** `findTestBeanFactoryMethod(clazz, returnType, candidates...)`. */
  function FindTestBeanFactoryMethod(clazz: ClassInfo, returnType: TypeName, candidates: seq<string>)
    : (r: Result<MethodInfo, ProcessorError>)
    ensures |candidates| == 0 ==> r == Err(NoCandidateNames)
    ensures r.Ok? ==> r.value in clazz.declaredMethods && IsCandidate(r.value, returnType, candidates)
    ensures r.Err? && r.error.FactoryMethodNotFound? ==>
      forall m :: m in clazz.declaredMethods ==> !IsCandidate(m, returnType, candidates)
    ensures r.Err? && r.error.CompetingFactoryMethods? ==> r.error.count >= 2
  {
    if |candidates| == 0 then Err(NoCandidateNames)
    else
      var found := Matching(clazz.declaredMethods, returnType, candidates);
      if |found| == 0 then Err(FactoryMethodNotFound(clazz.name, returnType, candidates))
      else if |found| > 1 then Err(CompetingFactoryMethods(|found|, clazz.name, returnType, candidates))
      else Ok(found[0])
  }

  lemma {:induction false} NothingQualifiesNothingMatches(methods: seq<MethodInfo>, returnType: TypeName, candidates: seq<string>)
    requires forall m :: m in methods ==> !IsCandidate(m, returnType, candidates)
    ensures Matching(methods, returnType, candidates) == []
  {
    if methods != [] {
      assert methods[0] in methods;
      NothingQualifiesNothingMatches(methods[1..], returnType, candidates);
    }
  }

  lemma {:induction false} MatchingSingleton(methods: seq<MethodInfo>, returnType: TypeName, candidates: seq<string>, j: int)
    requires 0 <= j < |methods| && IsCandidate(methods[j], returnType, candidates)
    requires forall k :: 0 <= k < |methods| && k != j ==> !IsCandidate(methods[k], returnType, candidates)
    ensures Matching(methods, returnType, candidates) == [methods[j]]
    decreases j
  {
    if j == 0 {
      forall m | m in methods[1..] ensures !IsCandidate(m, returnType, candidates) {
        var k :| 0 <= k < |methods[1..]| && methods[1..][k] == m;
        assert methods[k + 1] == m;
      }
      NothingQualifiesNothingMatches(methods[1..], returnType, candidates);
    } else {
      forall k | 0 <= k < |methods[1..]| && k != j - 1
        ensures !IsCandidate(methods[1..][k], returnType, candidates)
      {
        assert methods[1..][k] == methods[k + 1];
      }
      MatchingSingleton(methods[1..], returnType, candidates, j - 1);
    }
  }

  /** The result is the one qualifying method: it is static, named among the
      candidates, of the return type, and every qualifying method is it. */
  lemma ResolvedMethodIsTheUniqueMatch(clazz: ClassInfo, returnType: TypeName, candidates: seq<string>)
    ensures var r := FindTestBeanFactoryMethod(clazz, returnType, candidates);
      r.Ok? ==>
        && r.value in clazz.declaredMethods
        && IsCandidate(r.value, returnType, candidates)
        && forall m :: m in clazz.declaredMethods && IsCandidate(m, returnType, candidates) ==> m == r.value
  {
  }

  /** Conversely, a method that alone qualifies is found. */
  lemma UniqueMatchIsResolved(clazz: ClassInfo, returnType: TypeName, candidates: seq<string>, j: int)
    requires |candidates| > 0
    requires 0 <= j < |clazz.declaredMethods| && IsCandidate(clazz.declaredMethods[j], returnType, candidates)
    requires forall k :: 0 <= k < |clazz.declaredMethods| && k != j ==>
      !IsCandidate(clazz.declaredMethods[k], returnType, candidates)
    ensures FindTestBeanFactoryMethod(clazz, returnType, candidates) == Ok(clazz.declaredMethods[j])
  {
    MatchingSingleton(clazz.declaredMethods, returnType, candidates, j);
  }

  /** The errors: no candidates is refused before any search; no match is
      "failed to find"; several matches are "competing", with their count. */
  lemma ResolutionErrors(clazz: ClassInfo, returnType: TypeName, candidates: seq<string>)
    ensures FindTestBeanFactoryMethod(clazz, returnType, candidates) == Err(NoCandidateNames) <==> |candidates| == 0
    ensures |candidates| > 0 ==>
      ((forall m :: m in clazz.declaredMethods ==> !IsCandidate(m, returnType, candidates)) <==>
       FindTestBeanFactoryMethod(clazz, returnType, candidates) == Err(FactoryMethodNotFound(clazz.name, returnType, candidates)))
    ensures var r := FindTestBeanFactoryMethod(clazz, returnType, candidates);
      r.Err? && r.error.CompetingFactoryMethods? ==>
        r.error.count == |Matching(clazz.declaredMethods, returnType, candidates)| >= 2
    ensures |candidates| > 0 && |Matching(clazz.declaredMethods, returnType, candidates)| >= 2 ==>
      FindTestBeanFactoryMethod(clazz, returnType, candidates) ==
        Err(CompetingFactoryMethods(|Matching(clazz.declaredMethods, returnType, candidates)|, clazz.name, returnType, candidates))
  {
    var found := Matching(clazz.declaredMethods, returnType, candidates);
    if |candidates| > 0 && found != [] {
      assert found[0] in found;
    }
  }

  /** `createMetadata`: an explicit method name is resolved at once, among
      the declaring class's methods, and its failure is the metadata's;
      without one (convention mode) nothing is checked yet. */
  function CreateMetadata(field: FieldInfo, annotation: TestBean, typeToOverride: TypeName)
    : (r: Result<ConventionMetadata, ProcessorError>)
    ensures !HasText(Some(annotation.methodName)) ==> r == Ok(ConventionMetadata(field, None, typeToOverride))
    ensures HasText(Some(annotation.methodName)) ==>
      var found := FindTestBeanFactoryMethod(field.declaringClass, typeToOverride, [annotation.methodName]);
      && (r.Ok? <==> found.Ok?)
      && (r.Ok? ==> r.value == ConventionMetadata(field, Some(found.value), typeToOverride))
      && (r.Err? ==> r.error == found.error)
  {
    if HasText(Some(annotation.methodName)) then
      match FindTestBeanFactoryMethod(field.declaringClass, typeToOverride, [annotation.methodName])
      case Ok(m) => Ok(ConventionMetadata(field, Some(m), typeToOverride))
      case Err(e) => Err(e)
    else
      Ok(ConventionMetadata(field, None, typeToOverride))
  }

  /** With an explicit name, metadata fails exactly when no static method of
      that name and return type exists, or more than one does. */
  lemma ExplicitNameIsCheckedUpFront(field: FieldInfo, annotation: TestBean, typeToOverride: TypeName)
    requires HasText(Some(annotation.methodName))
    ensures CreateMetadata(field, annotation, typeToOverride).Err? <==>
      |Matching(field.declaringClass.declaredMethods, typeToOverride, [annotation.methodName])| != 1
  {
  }

  // ---------------------------------------------------------------- fixtures

  const ExampleService: TypeName := "ExampleService"

  const Example1: MethodInfo := MethodInfo("example1", false, ExampleService)
  const Example2: MethodInfo := MethodInfo("example2", true, ExampleService)
  const Example4: MethodInfo := MethodInfo("example4", true, ExampleService)

  /** `MethodConventionConf`: an instance `@Bean` method `example1` and two
      static factory methods `example2` and `example4`. */
  const MethodConventionConf: ClassInfo := ClassInfo("MethodConventionConf", [Example1, Example2, Example4])

  const Explicit2: MethodInfo := MethodInfo("explicit2", true, ExampleService)

  /** `ExplicitMethodNameConf`: fields `a` (naming `explicit1`, absent) and
      `b` (naming `explicit2`, present). */
  const ExplicitMethodNameConf: ClassInfo := ClassInfo("ExplicitMethodNameConf", [Explicit2])

  lemma FindsFromCandidateNames()
    ensures FindTestBeanFactoryMethod(MethodConventionConf, ExampleService, ["example1", "example2", "example3"]) == Ok(Example2)
  {
    UniqueMatchIsResolved(MethodConventionConf, ExampleService, ["example1", "example2", "example3"], 1);
  }

  lemma NotFound()
    ensures FindTestBeanFactoryMethod(MethodConventionConf, ExampleService, ["example1", "example3"])
      == Err(FactoryMethodNotFound("MethodConventionConf", ExampleService, ["example1", "example3"]))
  {
    ResolutionErrors(MethodConventionConf, ExampleService, ["example1", "example3"]);
  }

  lemma TwoFound()
    ensures FindTestBeanFactoryMethod(MethodConventionConf, ExampleService, ["example2", "example4"])
      == Err(CompetingFactoryMethods(2, "MethodConventionConf", ExampleService, ["example2", "example4"]))
  {
    var candidates := ["example2", "example4"];
    var methods := MethodConventionConf.declaredMethods;
    assert methods[1..] == [Example2, Example4] && methods[1..][1..] == [Example4];
    assert Matching([Example4], ExampleService, candidates) == [Example4];
    assert Matching(methods, ExampleService, candidates) == [Example2, Example4];
  }

  lemma NoNameProvided()
    ensures FindTestBeanFactoryMethod(MethodConventionConf, ExampleService, []) == Err(NoCandidateNames)
  {
  }

  lemma UnknownExplicitMethod()
    ensures CreateMetadata(FieldInfo(ExplicitMethodNameConf, "a"), TestBean("explicit1"), ExampleService)
      == Err(FactoryMethodNotFound("ExplicitMethodNameConf", ExampleService, ["explicit1"]))
  {
    assert !IsWhitespace("explicit1"[0]);
    assert "explicit2" != "explicit1" by { assert "explicit2"[8] != "explicit1"[8]; }
    ResolutionErrors(ExplicitMethodNameConf, ExampleService, ["explicit1"]);
  }

  lemma KnownExplicitMethod()
    ensures CreateMetadata(FieldInfo(ExplicitMethodNameConf, "b"), TestBean("explicit2"), ExampleService)
      == Ok(ConventionMetadata(FieldInfo(ExplicitMethodNameConf, "b"), Some(Explicit2), ExampleService))
  {
    assert !IsWhitespace("explicit2"[0]);
    UniqueMatchIsResolved(ExplicitMethodNameConf, ExampleService, ["explicit2"], 0);
  }

  lemma DeferredCheckInConventionMode()
    ensures CreateMetadata(FieldInfo(MethodConventionConf, "field"), TestBean(""), ExampleService)
      == Ok(ConventionMetadata(FieldInfo(MethodConventionConf, "field"), None, ExampleService))
  {
  }
}
