# Bean-override descriptors of the Spring test context, in Dafny

This project models three small pieces of the "bean override" mechanism of
Spring's test support. A test class annotates a field to ask that a bean in
the application context be replaced by a mock or by a value from a factory
method. The pieces modelled here are:

- **`MockDefinition`** (module `MockDefinitions`, `mock_definition.dfy`). This is
  the immutable description of a Mockito mock. Its constructor normalises the
  options. A missing answer becomes `RETURNS_DEFAULTS`. The extra interfaces
  become an insertion-ordered, duplicate-free set. A missing type to mock is
  refused. The strategy is always replace-or-create. `equals` and
  `hashCode` are structural. `createMock` turns the options into Mockito
  settings, which are kept as a record built by a builder class
  (`Mockito.SettingsBuilder`, `mockito.dfy`).
- **`TestOverrideMetadata`** (module `ExampleOverride`,
  `test_override_metadata.dfy`). This is the example override used by the
  framework's own tests. `findMethod` scans the declared methods for the first
  static method with the requested name. It has one error per kind of annotated
  element and a sentinel default value that means "no method". The strategy
  follows `createIfMissing`. An explicit bean name with text wins.
  `createOverride` falls back to the default value.
- **`@TestBean` factory-method resolution** (module `ConventionOverride`,
  `test_bean_override_processor.dfy`). This is the rule that
  `TestBeanOverrideProcessorTests` pins for `findTestBeanFactoryMethod` and
  `createMetadata`. A factory method must be static, named among the
  candidates, and of the return type. It must be unique. No candidates, no
  match and several matches are three distinct errors. The test fixtures are
  constants, and each test is a lemma about them.

Reflection is reduced to records. A method is `MethodInfo(name, isStatic,
returnType)`. A class is its name and its declared methods, in the order reflection lists
them (the JDK leaves that order unspecified). An annotated element is a field, a method, a class or something else
(`reflection.dfy`). Nullable Java references are `Option`s, and exceptions
are the `Err` side of a `Result` (`wrappers.dfy`). Spring's
`StringUtils.hasLength`/`hasText` and Java's 32-bit `int` wrap-around are in
`java_lang.dfy`. The strategy enum and the base override metadata are in
`bean_override.dfy`.

Parts that depend on code outside this fragment are parameters:

- `super.equals` of the base `Definition`.
- `super.hashCode`, `MULTIPLIER`, and the hash codes of types, classes and answers. These are a `HashBasis` record.
- What an invoked factory method returns. This is the opaque `FactoryProduct(method)`.

Extra interfaces are compared the way Java sets are compared, by membership.
They are hashed the way `AbstractSet` hashes, as the sum of the element hashes.
So hash consistency rests on one lemma: two duplicate-free sequences with the
same members have the same hash sum.

## Model

| member | source | states |
|---|---|---|
| MockDefinitions.AsClassSet | spring-test/src/main/java/org/springframework/test/context/bean/override/mockito/MockDefinition.java:82-88 | a null array gives the empty set; otherwise the result holds exactly the array's classes, each once, in order of first occurrence |
| MockDefinitions.NewMockDefinition | spring-test/src/main/java/org/springframework/test/context/bean/override/mockito/MockDefinition.java:61-69 | fails exactly when the type to mock is null; otherwise the strategy is replace-or-create, the extra interfaces are the ordered duplicate-free set of the array, a null answer becomes RETURNS_DEFAULTS and a given one is kept, and the serializable flag is kept |
| MockDefinitions.FromAnnotation | spring-test/src/main/java/org/springframework/test/context/bean/override/mockito/MockDefinition.java:56-59 | the annotation's name, reset, extra interfaces, answer and serializable flag end up in the definition; fails only for a null type |
| MockDefinitions.Equals | spring-test/src/main/java/org/springframework/test/context/bean/override/mockito/MockDefinition.java:114-129 | true for the same reference; false for null or another class; otherwise true iff base equality, same type, same extra-interface set, same answer and same serializable flag all hold |
| MockDefinitions.EqualsSymmetric | spring-test/src/main/java/org/springframework/test/context/bean/override/mockito/MockDefinition.java:114-129 | equals is symmetric whenever the base equality is |
| MockDefinitions.HashCode | spring-test/src/main/java/org/springframework/test/context/bean/override/mockito/MockDefinition.java:131-139 | the hash is a Java `int`: the fold of the base hash, the type, the sum of the set's element hashes, the answer and the flag, wrapping around at every step; its agreement with `equals` is the next row |
| MockDefinitions.EqualDefinitionsHaveEqualHashCodes | spring-test/src/main/java/org/springframework/test/context/bean/override/mockito/MockDefinition.java:131-139 | equal definitions have equal hash codes, even when their extra interfaces are in different orders, provided the base class's equals and hashCode agree |
| MockDefinitions.CreateMockNamed | spring-test/src/main/java/org/springframework/test/context/bean/override/mockito/MockDefinition.java:157-171 | the settings carry the reset policy; a name iff the name has length; extra interfaces iff there are any, and then exactly them; always the definition's answer; serializable iff the flag is set; the mocked type is the type to override |
| MockDefinitions.DescribesMockDeterminesRequest | spring-test/src/main/java/org/springframework/test/context/bean/override/mockito/MockDefinition.java:158-171 | the settings handed to Mockito depend only on the definition and the name |
| MockDefinitions.CreateMock | spring-test/src/main/java/org/springframework/test/context/bean/override/mockito/MockDefinition.java:153-155 | the mock is described with the definition's own name |
| MockDefinitions.CreateOverride | spring-test/src/main/java/org/springframework/test/context/bean/override/mockito/MockDefinition.java:77-80 | the mock is described with the bean name alone; the existing definition and instance play no part |
| Mockito.SettingsBuilder.WithSettings | spring-test/src/main/java/org/springframework/test/context/bean/override/mockito/MockDefinition.java:159 | fresh settings carry the reset policy and no other option |
| Mockito.SettingsBuilder.Name | spring-test/src/main/java/org/springframework/test/context/bean/override/mockito/MockDefinition.java:160-162 | records the name and changes nothing else |
| Mockito.SettingsBuilder.ExtraInterfaces | spring-test/src/main/java/org/springframework/test/context/bean/override/mockito/MockDefinition.java:163-165 | records a non-empty list of extra interfaces and changes nothing else |
| Mockito.SettingsBuilder.DefaultAnswer | spring-test/src/main/java/org/springframework/test/context/bean/override/mockito/MockDefinition.java:166 | records the default answer and changes nothing else |
| Mockito.SettingsBuilder.Serializable | spring-test/src/main/java/org/springframework/test/context/bean/override/mockito/MockDefinition.java:167-169 | marks the settings serializable and changes nothing else |
| ExampleOverride.FirstFactory | spring-test/src/test/java/org/springframework/test/context/bean/override/example/TestOverrideMetadata.java:48-56 | a found method is among the declared methods, static and of the name; nothing is found iff no declared method is both |
| ExampleOverride.FirstFactoryIsFirst | spring-test/src/test/java/org/springframework/test/context/bean/override/example/TestOverrideMetadata.java:49-56 | the scan yields the first static method of the name in the order reflection lists the declared methods (the JDK leaves it unspecified) |
| ExampleOverride.FirstStaticMethodNamed | spring-test/src/test/java/org/springframework/test/context/bean/override/example/TestOverrideMetadata.java:49-56 | the loop that skips instance methods and returns on the first name match computes exactly the first static method of that name |
| ExampleOverride.FindMethod | spring-test/src/test/java/org/springframework/test/context/bean/override/example/TestOverrideMetadata.java:44-77 | the lookup method computes the lookup specification |
| ExampleOverride.LookupDefaultValue | spring-test/src/test/java/org/springframework/test/context/bean/override/example/TestOverrideMetadata.java:45-47 | the default value yields "no method" for every element kind and never fails |
| ExampleOverride.LookupNoMethodOnlyForDefault | spring-test/src/test/java/org/springframework/test/context/bean/override/example/TestOverrideMetadata.java:44-77 | "no method" is returned iff the requested name is the default value |
| ExampleOverride.LookupOnField | spring-test/src/test/java/org/springframework/test/context/bean/override/example/TestOverrideMetadata.java:48-58 | on a field, the result is the first static method of that name in the declaring class; the error naming the field is raised iff there is none |
| ExampleOverride.LookupOnMethod | spring-test/src/test/java/org/springframework/test/context/bean/override/example/TestOverrideMetadata.java:59-64 | on a method, the result is that method iff it is static and has the name; otherwise an error |
| ExampleOverride.LookupOnClass | spring-test/src/test/java/org/springframework/test/context/bean/override/example/TestOverrideMetadata.java:65-76 | on a class, the result is the first static declared method of the name, with an error naming the class iff there is none; any other element is an error |
| ExampleOverride.StrategyFor | spring-test/src/test/java/org/springframework/test/context/bean/override/example/TestOverrideMetadata.java:80-81 | replace-or-create iff createIfMissing, replace-only otherwise |
| ExampleOverride.NewTestOverrideMetadata | spring-test/src/test/java/org/springframework/test/context/bean/override/example/TestOverrideMetadata.java:79-84 | succeeds iff the lookup beside the field succeeds, and then carries that method, the annotation's bean name and the strategy createIfMissing selects; an annotation left at the default value always succeeds with no method; a lookup failure is the constructor's failure |
| ExampleOverride.ExpectedBeanName | spring-test/src/test/java/org/springframework/test/context/bean/override/example/TestOverrideMetadata.java:94-99 | an explicit bean name with text is the expected name; otherwise the inherited one |
| ExampleOverride.CreateOverride | spring-test/src/test/java/org/springframework/test/context/bean/override/example/TestOverrideMetadata.java:107-118 | the default value when no method was resolved, otherwise the product of that method; the product is a value distinct from the default value (see Left out) |
| ConventionOverride.Matching | spring-test/src/test/java/org/springframework/test/context/bean/override/convention/TestBeanOverrideProcessorTests.java:133-150 | the qualifying methods are exactly the declared methods that are static, named among the candidates and of the return type |
| ConventionOverride.FindTestBeanFactoryMethod | spring-test/src/test/java/org/springframework/test/context/bean/override/convention/TestBeanOverrideProcessorTests.java:45-86 | no candidates give the argument error; a resolved method is declared, static, named among the candidates and of the return type; "failed to find" only when nothing qualifies; "competing" only with a count of at least two (the lemmas below give the converse directions) |
| ConventionOverride.ResolvedMethodIsTheUniqueMatch | spring-test/src/test/java/org/springframework/test/context/bean/override/convention/TestBeanOverrideProcessorTests.java:46-53 | a resolved method is declared, static, named among the candidates and of the return type, and every qualifying method is it |
| ConventionOverride.UniqueMatchIsResolved | spring-test/src/test/java/org/springframework/test/context/bean/override/convention/TestBeanOverrideProcessorTests.java:46-53 | a method that alone qualifies is the result |
| ConventionOverride.ResolutionErrors | spring-test/src/test/java/org/springframework/test/context/bean/override/convention/TestBeanOverrideProcessorTests.java:55-86 | an empty candidate list is the argument error and nothing else is; with candidates, "failed to find" (naming the class, the return type and the candidates) is raised iff nothing qualifies; a "competing" error carries the number of qualifying methods, at least two; and, with candidates, two or more qualifying methods always give the "competing" error with their count |
| ConventionOverride.CreateMetadata | spring-test/src/test/java/org/springframework/test/context/bean/override/convention/TestBeanOverrideProcessorTests.java:88-130 | without an explicit method name, metadata is created without any lookup; with one, it is resolved at once among the declaring class's methods, and its failure is the metadata's failure, and the metadata carries the field and the type to override |
| ConventionOverride.ExplicitNameIsCheckedUpFront | spring-test/src/test/java/org/springframework/test/context/bean/override/convention/TestBeanOverrideProcessorTests.java:89-115 | with an explicit name, metadata creation fails iff not exactly one static method of that name and type exists |
| ConventionOverride.FindsFromCandidateNames | spring-test/src/test/java/org/springframework/test/context/bean/override/convention/TestBeanOverrideProcessorTests.java:45-53 | candidates example1, example2, example3 resolve to the static example2; the instance method example1 and the absent example3 do not qualify |
| ConventionOverride.NotFound | spring-test/src/test/java/org/springframework/test/context/bean/override/convention/TestBeanOverrideProcessorTests.java:55-66 | candidates example1, example3 give "failed to find", naming the class, the return type and the candidates |
| ConventionOverride.TwoFound | spring-test/src/test/java/org/springframework/test/context/bean/override/convention/TestBeanOverrideProcessorTests.java:68-79 | candidates example2, example4 give "competing" with count 2 |
| ConventionOverride.NoNameProvided | spring-test/src/test/java/org/springframework/test/context/bean/override/convention/TestBeanOverrideProcessorTests.java:81-86 | no candidates give the argument error |
| ConventionOverride.UnknownExplicitMethod | spring-test/src/test/java/org/springframework/test/context/bean/override/convention/TestBeanOverrideProcessorTests.java:88-103 | the explicit name explicit1 fails with "failed to find" for ExplicitMethodNameConf |
| ConventionOverride.KnownExplicitMethod | spring-test/src/test/java/org/springframework/test/context/bean/override/convention/TestBeanOverrideProcessorTests.java:105-115 | the explicit name explicit2 yields metadata holding that method |
| ConventionOverride.DeferredCheckInConventionMode | spring-test/src/test/java/org/springframework/test/context/bean/override/convention/TestBeanOverrideProcessorTests.java:117-130 | convention mode creates metadata without resolving a method |

## Left out

- The post-processor and its container lifecycle are not modelled. That covers bean-definition replacement, factory beans, early initialisation, and copying scope and the primary flag. The implementation is not part of this model, and it depends on the host container.
- The data-access configuration snippet under framework-docs is not modelled. It only wires a connection-pool bean.
- Mockito's `mock(...)` is not modelled. The model stops at the request it would receive: the type and the settings record.
- `MockReset.withSettings` is not part of this model. The settings record only keeps the reset policy, not the invocation listener it would install.
- Mockito.SettingsBuilder.ExtraInterfaces: Mockito's own check that the classes are interfaces is not modelled. Only its refusal of an empty list is, as a precondition.
- Reflection mechanics are not modelled: `setAccessible`, `Method.invoke` and the `RuntimeException` that wraps its failures, and `ResolvableType.resolve()`. A factory method's product is the opaque `FactoryProduct(method)`.
- `Definition`/`OverrideMetadata` equality and hashing, and `MULTIPLIER`, are defined in files that are not part of this model. They are parameters, and the hash lemma assumes that the base class's equals and hashCode agree.
- `getBeanOverrideDescription` (the constants "mock" and "test") and `toString` are not modelled. They are fixed strings and formatting.
- The no-argument `TestOverrideMetadata()` constructor is not modelled. It exists only to trigger duplicate detection in a parser test. The nullable fields it leaves behind are still covered, since the bean name and method are `Option`s.
- The annotation instance is kept only as its type name (`AnnotationRef`).
- `ExampleBeanOverrideAnnotation` is not part of this model. Its `DEFAULT_VALUE` is taken to be `"TEST OVERRIDE"`, and no property depends on the text.
- `TestBeanOverrideProcessor` is not part of this model. Its behaviour comes from the tests. The model makes these choices:
  - it searches the class's declared methods only, with no walk of superclasses;
  - it matches the return type by equality;
  - in explicit mode it matches against the type to override that is passed in, not a declared type of the field, which the model's field record does not carry (the tests use the same type for both);
  - it uses `hasText` on the method name to decide between explicit and convention mode;
  - class names are simple names.
- Error messages are reduced to their kind and the data they name.
- The source does not fix which of several static methods with the same name `findMethod` returns. It returns the first in the array `getDeclaredMethods()` gives, and the JDK leaves the order of that array unspecified. The model takes the order as a given sequence.
- ExampleOverride.CreateOverride: a factory method's product is treated as distinct from the default value. In the source, a factory method that returns the string `DEFAULT_VALUE` yields the default value even though a method was resolved. So the "only if" half of "the default value iff no method was resolved" comes from this abstraction, not from the program.
- Strings are sequences of Unicode characters, not UTF-16 code units.
