/**
 * `MockDefinition`: the immutable description of a Mockito mock that replaces
 * a bean. Construction normalises the options, equality and hashing are
 * structural, and creating the mock turns the options into Mockito settings.
 */
module MockDefinitions {
  import opened Wrappers
  import opened JavaLang
  import opened Reflection
  import opened BeanOverride
  import opened Mockito

  /** The state of `Definition`, the base shared by mock and spy definitions:
      a display name, the reset policy, whether the mock is proxy-target aware,
      and the override metadata. */
  datatype Definition = Definition(
    name: Option<string>,
    reset: MockReset,
    proxyTargetAware: bool,
    metadata: OverrideMetadata)

  datatype MockDefinition = MockDefinition(
    base: Definition,
    extraInterfaces: seq<ClassName>,
    answer: Answers,
    serializable: bool)
  {
    function TypeToOverride(): Option<TypeName>
    {
      base.metadata.typeToOverride
    }
  }

  /** The attributes of a `@MockitoBean` annotation. */
  datatype MockitoBean = MockitoBean(
    name: string,
    reset: MockReset,
    extraInterfaces: seq<ClassName>,
    answers: Answers,
    serializable: bool)

  /** `Assert.notNull(typeToMock, ...)` failing. */
  datatype DefinitionError = TypeToMockMissing

  /** What `mock(type, settings)` is handed. */
  datatype MockRequest = MockRequest(typeToMock: Option<TypeName>, settings: MockSettings)

  /** The object `equals` is called with: null, this very object, another
      `MockDefinition` object, or an object of some other class. */
  datatype Argument = Null | Self | AnotherMock(other: MockDefinition) | OtherClass

  /** `super.hashCode()`, `MULTIPLIER` and the hash codes of the values a
      definition holds, none of which this model defines. */
  datatype HashBasis = HashBasis(
    multiplier: int,
    definitionHash: Definition -> int,
    typeHash: TypeName -> int,
    classHash: ClassName -> int,
    answerHash: Answers -> int)

  // ---------------------------------------------------------------- sequences

  predicate NoDuplicates<T(==)>(s: seq<T>)
  {
    forall i, j :: 0 <= i < j < |s| ==> s[i] != s[j]
  }

  function Members<T(==)>(s: seq<T>): set<T>
  {
    set x | x in s
  }

  /** The position at which `x` first occurs in `xs`. */
  function FirstIndex<T(==)>(xs: seq<T>, x: T): (i: nat)
    requires x in xs
    ensures i < |xs| && xs[i] == x && x !in xs[..i]
  {
    if xs[0] == x then 0
    else
      var i := FirstIndex(xs[1..], x);
      assert xs[..i + 1] == [xs[0]] + xs[1..][..i];
      i + 1
  }

  lemma FirstIndexOfNew<T>(xs: seq<T>, k: nat)
    requires k < |xs| && xs[k] !in xs[..k]
    ensures FirstIndex(xs, xs[k]) == k
  {
    var i := FirstIndex(xs, xs[k]);
  }

  /** `s` is the `LinkedHashSet` built from `xs`: every element of `xs` once,
      in the order of first occurrence. */
  ghost predicate IsClassSetOf(s: seq<ClassName>, xs: seq<ClassName>)
  {
    && NoDuplicates(s)
    && (forall c :: c in s <==> c in xs)
    && (forall i, j :: 0 <= i < j < |s| ==> FirstIndex(xs, s[i]) < FirstIndex(xs, s[j]))
  }

  function Elements(classes: Option<seq<ClassName>>): seq<ClassName>
  {
    if classes.Some? then classes.value else []
  }

  // ------------------------------------------------------------- construction

  /** `asClassSet`: a null array gives the empty set, otherwise the array's
      classes are added one by one to an insertion-ordered set. */
  method AsClassSet(classes: Option<seq<ClassName>>) returns (classSet: seq<ClassName>)
    ensures IsClassSetOf(classSet, Elements(classes))
  {
    classSet := [];
    if classes.Some? {
      var xs := classes.value;
      var k := 0;
      while k < |xs|
        invariant 0 <= k <= |xs|
        invariant NoDuplicates(classSet)
        invariant forall c :: c in classSet <==> c in xs[..k]
        invariant forall i :: 0 <= i < |classSet| ==> classSet[i] in xs && FirstIndex(xs, classSet[i]) < k
        invariant forall i, j :: 0 <= i < j < |classSet| ==> FirstIndex(xs, classSet[i]) < FirstIndex(xs, classSet[j])
      {
        if xs[k] !in classSet {
          FirstIndexOfNew(xs, k);
          classSet := classSet + [xs[k]];
        }
        assert xs[..k + 1] == xs[..k] + [xs[k]];
        k := k + 1;
      }
      assert xs[..k] == xs;
    }
  }

  /** What every constructed definition satisfies. */
  ghost predicate Valid(d: MockDefinition)
  {
    && NoDuplicates(d.extraInterfaces)
    && d.TypeToOverride().Some?
    && d.base.metadata.strategy == Some(ReplaceOrCreateDefinition)
    && !d.base.proxyTargetAware
  }

  /** The full constructor. */
  method NewMockDefinition(
    name: Option<string>, reset: MockReset, field: Option<FieldInfo>, annotation: Option<AnnotationRef>,
    typeToMock: Option<TypeName>, extraInterfaces: Option<seq<ClassName>>, answer: Option<Answers>,
    serializable: bool)
    returns (r: Result<MockDefinition, DefinitionError>)
    ensures r.Err? <==> typeToMock.None?
    ensures r.Err? ==> r.error == TypeToMockMissing
    ensures r.Ok? ==> Valid(r.value)
    ensures r.Ok? ==> r.value.base == Definition(name, reset, false, OverrideMetadata(field, annotation, typeToMock, Some(ReplaceOrCreateDefinition)))
    ensures r.Ok? ==> IsClassSetOf(r.value.extraInterfaces, Elements(extraInterfaces))
    ensures r.Ok? && answer.Some? ==> r.value.answer == answer.value
    ensures r.Ok? && answer.None? ==> r.value.answer == ReturnsDefaults
    ensures r.Ok? ==> r.value.serializable == serializable
  {
    var base := Definition(name, reset, false, OverrideMetadata(field, annotation, typeToMock, Some(ReplaceOrCreateDefinition)));
    if typeToMock.None? {
      return Err(TypeToMockMissing);
    }
    var classSet := AsClassSet(extraInterfaces);
    var a := if answer.Some? then answer.value else ReturnsDefaults;
    return Ok(MockDefinition(base, classSet, a, serializable));
  }

  /** The constructor that reads its options from a `@MockitoBean` annotation. */
  method FromAnnotation(annotation: MockitoBean, field: FieldInfo, typeToMock: Option<TypeName>)
    returns (r: Result<MockDefinition, DefinitionError>)
    ensures r.Err? <==> typeToMock.None?
    ensures r.Ok? ==> Valid(r.value)
    ensures r.Ok? ==> r.value.base.name == Some(annotation.name) && r.value.base.reset == annotation.reset
    ensures r.Ok? ==> r.value.base.metadata == OverrideMetadata(Some(field), Some(AnnotationRef("MockitoBean")), typeToMock, Some(ReplaceOrCreateDefinition))
    ensures r.Ok? ==> IsClassSetOf(r.value.extraInterfaces, annotation.extraInterfaces)
    ensures r.Ok? ==> r.value.answer == annotation.answers && r.value.serializable == annotation.serializable
  {
    r := NewMockDefinition(Some(annotation.name), annotation.reset, Some(field), Some(AnnotationRef("MockitoBean")),
                           typeToMock, Some(annotation.extraInterfaces), Some(annotation.answers), annotation.serializable);
  }

  // ----------------------------------------------------------------- equality

  /** `equals`, given the base class's `equals` on the `Definition` part.
      Extra interfaces are compared as Java sets, by membership. */
  function Equals(self: MockDefinition, obj: Argument, superEquals: (Definition, Definition) -> bool): (r: bool)
    ensures obj.Self? ==> r
    ensures obj.Null? || obj.OtherClass? ==> !r
    ensures obj.AnotherMock? ==> (r <==>
      && superEquals(self.base, obj.other.base)
      && self.TypeToOverride() == obj.other.TypeToOverride()
      && Members(self.extraInterfaces) == Members(obj.other.extraInterfaces)
      && self.answer == obj.other.answer
      && self.serializable == obj.other.serializable)
  {
    match obj
    case Self => true
    case Null => false
    case OtherClass => false
    case AnotherMock(other) =>
      var result := superEquals(self.base, other.base);
      var result := result && self.TypeToOverride() == other.TypeToOverride();
      var result := result && Members(self.extraInterfaces) == Members(other.extraInterfaces);
      var result := result && self.answer == other.answer;
      result && self.serializable == other.serializable
  }

  /** When the base equality is symmetric, so is `equals`. */
  lemma EqualsSymmetric(x: MockDefinition, y: MockDefinition, superEquals: (Definition, Definition) -> bool)
    requires forall a, b :: superEquals(a, b) == superEquals(b, a)
    ensures Equals(x, AnotherMock(y), superEquals) == Equals(y, AnotherMock(x), superEquals)
  {
  }

  // ------------------------------------------------------------------ hashing

  /** `AbstractSet.hashCode` before wrap-around: the sum of the element hashes. */
  function SumHash(s: seq<ClassName>, h: ClassName -> int): int
  {
    if s == [] then 0 else h(s[0]) + SumHash(s[1..], h)
  }

  /** `ObjectUtils.nullSafeHashCode` of the type to override. */
  function TypeHash(t: Option<TypeName>, basis: HashBasis): int
  {
    if t.Some? then basis.typeHash(t.value) else 0
  }

  /** `hashCode`: fold of the compared fields into the base hash. */
  function HashCode(d: MockDefinition, basis: HashBasis): (h: int)
    ensures -TwoTo31 <= h < TwoTo31
  {
    var result := Int32(basis.definitionHash(d.base));
    var result := Int32(basis.multiplier * result + TypeHash(d.TypeToOverride(), basis));
    var result := Int32(basis.multiplier * result + Int32(SumHash(d.extraInterfaces, basis.classHash)));
    var result := Int32(basis.multiplier * result + basis.answerHash(d.answer));
    Int32(basis.multiplier * result + BooleanHash(d.serializable))
  }

  lemma {:induction false} SumHashConcat(p: seq<ClassName>, q: seq<ClassName>, h: ClassName -> int)
    ensures SumHash(p + q, h) == SumHash(p, h) + SumHash(q, h)
  {
    if p == [] {
      assert p + q == q;
    } else {
      assert (p + q)[1..] == p[1..] + q;
      SumHashConcat(p[1..], q, h);
    }
  }

  lemma SumHashWithout(b: seq<ClassName>, i: nat, h: ClassName -> int)
    requires i < |b|
    ensures SumHash(b, h) == h(b[i]) + SumHash(b[..i] + b[i + 1..], h)
  {
    var tail := [b[i]] + b[i + 1..];
    assert b == b[..i] + tail;
    SumHashConcat(b[..i], tail, h);
    assert tail[1..] == b[i + 1..];
    SumHashConcat(b[..i], b[i + 1..], h);
  }

  /** Two duplicate-free sequences with the same members hash alike. */
  lemma {:induction false} SameMembersSameSum(a: seq<ClassName>, b: seq<ClassName>, h: ClassName -> int)
    requires NoDuplicates(a) && NoDuplicates(b)
    requires Members(a) == Members(b)
    ensures SumHash(a, h) == SumHash(b, h)
    decreases |a|
  {
    if a == [] {
      assert forall j :: 0 <= j < |b| ==> b[j] in Members(b);
    } else {
      var x := a[0];
      assert x in Members(b);
      var i :| 0 <= i < |b| && b[i] == x;
      var rest := b[..i] + b[i + 1..];
      SumHashWithout(b, i, h);
      forall p, q | 0 <= p < q < |rest|
        ensures rest[p] != rest[q]
      {
        var p' := if p < i then p else p + 1;
        var q' := if q < i then q else q + 1;
        assert rest[p] == b[p'] && rest[q] == b[q'];
      }
      forall c
        ensures c in Members(a[1..]) <==> c in Members(rest)
      {
        if c in a[1..] {
          var k :| 1 <= k < |a| && a[k] == c;
          assert c in Members(b);
          var j :| 0 <= j < |b| && b[j] == c;
          assert j != i;
          assert rest[if j < i then j else j - 1] == c;
        }
        if c in rest {
          var j :| 0 <= j < |rest| && rest[j] == c;
          var j' := if j < i then j else j + 1;
          assert b[j'] == c && j' != i;
          assert c in Members(a);
          var k :| 0 <= k < |a| && a[k] == c;
          assert k != 0;
          assert a[1..][k - 1] == c;
        }
      }
      SameMembersSameSum(a[1..], rest, h);
    }
  }

  /** Equal definitions have equal hash codes, provided the base class keeps
      its own `equals` and `hashCode` consistent. */
  lemma EqualDefinitionsHaveEqualHashCodes(
    x: MockDefinition, y: MockDefinition, superEquals: (Definition, Definition) -> bool, basis: HashBasis)
    requires Valid(x) && Valid(y)
    requires forall a, b :: superEquals(a, b) ==> basis.definitionHash(a) == basis.definitionHash(b)
    requires Equals(x, AnotherMock(y), superEquals)
    ensures HashCode(x, basis) == HashCode(y, basis)
  {
    SameMembersSameSum(x.extraInterfaces, y.extraInterfaces, basis.classHash);
  }

  // ------------------------------------------------------------ mock creation

  /** `req` is what `createMock(name)` hands to Mockito for `d`. */
  predicate DescribesMock(d: MockDefinition, name: Option<string>, req: MockRequest)
  {
    && req.typeToMock == d.TypeToOverride()
    && req.settings.reset == d.base.reset
    && (req.settings.name.Some? <==> HasLength(name))
    && (req.settings.name.Some? ==> req.settings.name == name)
    && (req.settings.extraInterfaces.Some? <==> |d.extraInterfaces| > 0)
    && (req.settings.extraInterfaces.Some? ==> req.settings.extraInterfaces.value == d.extraInterfaces)
    && req.settings.defaultAnswer == Some(d.answer)
    && req.settings.serializable == d.serializable
  }

  /** The settings are a function of the definition and the name alone. */
  lemma DescribesMockDeterminesRequest(d: MockDefinition, name: Option<string>, r1: MockRequest, r2: MockRequest)
    requires DescribesMock(d, name, r1) && DescribesMock(d, name, r2)
    ensures r1 == r2
  {
  }

  /** `createMock(String name)`: builds the settings step by step. */
  method CreateMockNamed(d: MockDefinition, name: Option<string>) returns (req: MockRequest)
    ensures DescribesMock(d, name, req)
  {
    var settings := new SettingsBuilder.WithSettings(d.base.reset);
    if HasLength(name) {
      settings.Name(name.value);
    }
    if |d.extraInterfaces| > 0 {
      settings.ExtraInterfaces(d.extraInterfaces);
    }
    settings.DefaultAnswer(d.answer);
    if d.serializable {
      settings.Serializable();
    }
    req := MockRequest(d.TypeToOverride(), settings.Snapshot());
  }

  /** `createMock()`: the mock is named after the definition. */
  method CreateMock(d: MockDefinition) returns (req: MockRequest)
    ensures DescribesMock(d, d.base.name, req)
  {
    req := CreateMockNamed(d, d.base.name);
  }

  /** `createOverride`: a mock named after the bean; the existing definition
      and instance play no part. */
  method CreateOverride(d: MockDefinition, beanName: string, existingBeanDefinition: Option<BeanDefinition>,
                        existingBeanInstance: Option<BeanInstance>)
    returns (req: MockRequest)
    ensures DescribesMock(d, Some(beanName), req)
  {
    req := CreateMockNamed(d, Some(beanName));
  }
}
