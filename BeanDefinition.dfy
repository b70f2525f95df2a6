/**
 * Spring's BeanDefinition: the mutable metadata record describing one bean
 * (parent, class, scope, laziness, dependencies, autowiring flags, factory
 * names, constructor arguments, property values, lifecycle methods, role,
 * description, provenance), the rules its documentation states for choosing
 * among autowiring candidates, and the walk along the chain of originating
 * definitions.
 */
module BeanDefinitions {
  import opened Basics

  /** Scope identifier of the standard singleton scope. */
  const SCOPE_SINGLETON: string := "singleton"
  /** Scope identifier of the standard prototype scope. */
  const SCOPE_PROTOTYPE: string := "prototype"

  /** Role hint: a major part of the application, typically a user-defined bean. */
  const ROLE_APPLICATION: int := 0
  /** Role hint: a supporting part of some larger configuration. */
  const ROLE_SUPPORT: int := 1
  /** Role hint: an entirely background bean, of no relevance to the end user. */
  const ROLE_INFRASTRUCTURE: int := 2

  lemma RoleHintsAreDistinct()
    ensures ROLE_APPLICATION == 0 && ROLE_SUPPORT == 1 && ROLE_INFRASTRUCTURE == 2
    ensures ROLE_APPLICATION != ROLE_SUPPORT && ROLE_SUPPORT != ROLE_INFRASTRUCTURE
    ensures ROLE_APPLICATION != ROLE_INFRASTRUCTURE
    ensures SCOPE_SINGLETON != SCOPE_PROTOTYPE
  {
  }

  /** The constructor argument values, each an uninterpreted value. */
  datatype ConstructorArgumentValues = ConstructorArgumentValues(arguments: seq<string>) {
    predicate IsEmpty() { arguments == [] }
  }

  datatype PropertyValue = PropertyValue(name: string, value: string)

  /** The property values to apply to a new instance of the bean. */
  datatype MutablePropertyValues = MutablePropertyValues(values: seq<PropertyValue>) {
    predicate IsEmpty() { values == [] }
  }

  /** Every attribute of a definition, as one value. */
  datatype Attributes = Attributes(
    parentName: Option<string>,
    beanClassName: Option<string>,
    scope: Option<string>,
    lazyInit: bool,
    dependsOn: Option<seq<string>>,
    autowireCandidate: bool,
    primary: bool,
    factoryBeanName: Option<string>,
    factoryMethodName: Option<string>,
    constructorArgumentValues: ConstructorArgumentValues,
    propertyValues: MutablePropertyValues,
    initMethodName: Option<string>,
    destroyMethodName: Option<string>,
    role: int,
    description: Option<string>,
    resourceDescription: Option<string>,
    originatingBeanDefinition: BeanDefinition?)

  /**
   * A bean definition. Each Java getter is the read of the field of the same
   * name; each setter replaces that one field and nothing else.
   */
  class BeanDefinition {
    var parentName: Option<string>
    var beanClassName: Option<string>
    var scope: Option<string>
    var lazyInit: bool
    var dependsOn: Option<seq<string>>
    var autowireCandidate: bool
    var primary: bool
    var factoryBeanName: Option<string>
    var factoryMethodName: Option<string>
    var constructorArgumentValues: ConstructorArgumentValues
    var propertyValues: MutablePropertyValues
    var initMethodName: Option<string>
    var destroyMethodName: Option<string>
    var role: int
    var description: Option<string>
    /** Read-only: where the definition came from. */
    const resourceDescription: Option<string>
    /** Read-only: the definition this one decorates, if any. */
    const originatingBeanDefinition: BeanDefinition?

    function Snapshot(): Attributes
      reads this
    {
      Attributes(parentName, beanClassName, scope, lazyInit, dependsOn, autowireCandidate,
                 primary, factoryBeanName, factoryMethodName, constructorArgumentValues,
                 propertyValues, initMethodName, destroyMethodName, role, description,
                 resourceDescription, originatingBeanDefinition)
    }

    constructor (initial: Attributes)
      ensures Snapshot() == initial
    {
      parentName := initial.parentName;
      beanClassName := initial.beanClassName;
      scope := initial.scope;
      lazyInit := initial.lazyInit;
      dependsOn := initial.dependsOn;
      autowireCandidate := initial.autowireCandidate;
      primary := initial.primary;
      factoryBeanName := initial.factoryBeanName;
      factoryMethodName := initial.factoryMethodName;
      constructorArgumentValues := initial.constructorArgumentValues;
      propertyValues := initial.propertyValues;
      initMethodName := initial.initMethodName;
      destroyMethodName := initial.destroyMethodName;
      role := initial.role;
      description := initial.description;
      resourceDescription := initial.resourceDescription;
      originatingBeanDefinition := initial.originatingBeanDefinition;
    }

    method SetParentName(parentName: Option<string>)
      modifies this
      ensures this.parentName == parentName
      ensures Snapshot() == old(Snapshot()).(parentName := parentName)
    {
      this.parentName := parentName;
    }

    method SetBeanClassName(beanClassName: Option<string>)
      modifies this
      ensures this.beanClassName == beanClassName
      ensures Snapshot() == old(Snapshot()).(beanClassName := beanClassName)
    {
      this.beanClassName := beanClassName;
    }

    method SetScope(scope: Option<string>)
      modifies this
      ensures this.scope == scope
      ensures Snapshot() == old(Snapshot()).(scope := scope)
    {
      this.scope := scope;
    }

    method SetLazyInit(lazyInit: bool)
      modifies this
      ensures this.lazyInit == lazyInit
      ensures Snapshot() == old(Snapshot()).(lazyInit := lazyInit)
    {
      this.lazyInit := lazyInit;
    }

    method SetDependsOn(dependsOn: Option<seq<string>>)
      modifies this
      ensures this.dependsOn == dependsOn
      ensures Snapshot() == old(Snapshot()).(dependsOn := dependsOn)
    {
      this.dependsOn := dependsOn;
    }

    method SetAutowireCandidate(autowireCandidate: bool)
      modifies this
      ensures this.autowireCandidate == autowireCandidate
      ensures Snapshot() == old(Snapshot()).(autowireCandidate := autowireCandidate)
    {
      this.autowireCandidate := autowireCandidate;
    }

    method SetPrimary(primary: bool)
      modifies this
      ensures this.primary == primary
      ensures Snapshot() == old(Snapshot()).(primary := primary)
    {
      this.primary := primary;
    }

    method SetFactoryBeanName(factoryBeanName: Option<string>)
      modifies this
      ensures this.factoryBeanName == factoryBeanName
      ensures Snapshot() == old(Snapshot()).(factoryBeanName := factoryBeanName)
    {
      this.factoryBeanName := factoryBeanName;
    }

    method SetFactoryMethodName(factoryMethodName: Option<string>)
      modifies this
      ensures this.factoryMethodName == factoryMethodName
      ensures Snapshot() == old(Snapshot()).(factoryMethodName := factoryMethodName)
    {
      this.factoryMethodName := factoryMethodName;
    }

    method SetInitMethodName(initMethodName: Option<string>)
      modifies this
      ensures this.initMethodName == initMethodName
      ensures Snapshot() == old(Snapshot()).(initMethodName := initMethodName)
    {
      this.initMethodName := initMethodName;
    }

    method SetDestroyMethodName(destroyMethodName: Option<string>)
      modifies this
      ensures this.destroyMethodName == destroyMethodName
      ensures Snapshot() == old(Snapshot()).(destroyMethodName := destroyMethodName)
    {
      this.destroyMethodName := destroyMethodName;
    }

    method SetRole(role: int)
      modifies this
      ensures this.role == role
      ensures Snapshot() == old(Snapshot()).(role := role)
    {
      this.role := role;
    }

    method SetDescription(description: Option<string>)
      modifies this
      ensures this.description == description
      ensures Snapshot() == old(Snapshot()).(description := description)
    {
      this.description := description;
    }

    /** Whether at least one constructor argument value is defined. */
    predicate HasConstructorArgumentValues()
      reads this
      ensures HasConstructorArgumentValues() <==> |constructorArgumentValues.arguments| > 0
    {
      !constructorArgumentValues.IsEmpty()
    }

    /** Whether at least one property value is defined. */
    predicate HasPropertyValues()
      reads this
      ensures HasPropertyValues() <==> exists pv :: pv in propertyValues.values
    {
      assert !propertyValues.IsEmpty() ==> propertyValues.values[0] in propertyValues.values;
      !propertyValues.IsEmpty()
    }

    /** This definition as it takes part in the choice among autowiring candidates. */
    function AsCandidate(beanName: string): Candidate
      reads this
    {
      Candidate(beanName, primary, autowireCandidate)
    }

    /**
     * The original definition, as the user defined it: the end of the chain
     * of originating definitions that starts here.
     */
    method OriginalBeanDefinition(ghost chain: seq<BeanDefinition>) returns (original: BeanDefinition)
      requires OriginatorChain(this, chain)
      ensures original == chain[|chain| - 1]
      ensures original.originatingBeanDefinition == null
      ensures original == this <==> originatingBeanDefinition == null
    {
      var current := this;
      ghost var k := 0;
      while current.originatingBeanDefinition != null
        invariant 0 <= k < |chain| && current == chain[k]
        decreases |chain| - k
      {
        current := current.originatingBeanDefinition;
        k := k + 1;
      }
      original := current;
      ChainIsAcyclic(this, chain);
      assert |chain| > 1 ==> originatingBeanDefinition == chain[1] && chain[0] != chain[|chain| - 1];
    }
  }

  /**
   * `chain` lists the definitions met by following originatingBeanDefinition
   * from `start` until it is null: a finite chain.
   */
  ghost predicate OriginatorChain(start: BeanDefinition, chain: seq<BeanDefinition>) {
    && |chain| > 0
    && chain[0] == start
    && forall i :: 0 <= i < |chain| ==>
         && (chain[i].originatingBeanDefinition == null <==> i == |chain| - 1)
         && (i < |chain| - 1 ==> chain[i].originatingBeanDefinition == chain[i + 1])
  }

  /** Two equal positions of a chain stay equal as one walks on from both. */
  lemma {:induction false} ChainShift(start: BeanDefinition, chain: seq<BeanDefinition>, i: nat, j: nat, k: nat)
    requires OriginatorChain(start, chain)
    requires i < j && j + k < |chain|
    ensures chain[i] == chain[j] ==> chain[i + k] == chain[j + k]
  {
    if k > 0 {
      ChainShift(start, chain, i, j, k - 1);
      assert chain[i + k - 1].originatingBeanDefinition == chain[i + k];
      assert chain[j + k - 1].originatingBeanDefinition == chain[j + k];
    }
  }

  /** A finite chain of originators never meets the same definition twice. */
  lemma ChainIsAcyclic(start: BeanDefinition, chain: seq<BeanDefinition>)
    requires OriginatorChain(start, chain)
    ensures forall i, j :: 0 <= i < j < |chain| ==> chain[i] != chain[j]
  {
    forall i, j | 0 <= i < j < |chain| ensures chain[i] != chain[j] {
      var k := |chain| - 1 - j;
      ChainShift(start, chain, i, j, k);
      assert chain[i + k].originatingBeanDefinition == chain[i + k + 1];
    }
  }

  /** The chain of originators of a definition is determined by the definition alone. */
  lemma ChainIsUnique(start: BeanDefinition, chain: seq<BeanDefinition>, other: seq<BeanDefinition>)
    requires OriginatorChain(start, chain) && OriginatorChain(start, other)
    ensures chain == other
  {
    var k := 0;
    while k < |chain| && k < |other|
      invariant 0 <= k <= |chain| && k <= |other|
      invariant forall m :: 0 <= m < k ==> chain[m] == other[m]
    {
      if k > 0 {
        assert chain[k - 1].originatingBeanDefinition == chain[k];
        assert other[k - 1].originatingBeanDefinition == other[k];
      }
      k := k + 1;
    }
    assert chain[k - 1] == other[k - 1];
  }

  /** A bean among the candidates of an autowiring lookup. */
  datatype Candidate = Candidate(beanName: string, primary: bool, autowireCandidate: bool)

  /** Candidate `i` is marked primary and no other candidate is. */
  ghost predicate UniquePrimary(candidates: seq<Candidate>, i: int) {
    && 0 <= i < |candidates|
    && candidates[i].primary
    && forall j :: 0 <= j < |candidates| && j != i ==> !candidates[j].primary
  }

  /** The positions of the candidates marked primary. */
  ghost function PrimarySet(candidates: seq<Candidate>): set<nat> {
    set i: nat | i < |candidates| && candidates[i].primary
  }

  /** The positions of the primary candidates, each once, in increasing order. */
  function PrimaryPositions(candidates: seq<Candidate>): (positions: seq<nat>)
    ensures forall k :: 0 <= k < |positions| ==> positions[k] in PrimarySet(candidates)
    ensures forall i :: i in PrimarySet(candidates) ==> i in positions
    ensures forall k, l :: 0 <= k < l < |positions| ==> positions[k] < positions[l]
    ensures |positions| == |PrimarySet(candidates)|
    decreases |candidates|
  {
    if candidates == [] then
      assert PrimarySet(candidates) == {};
      []
    else
      var n := |candidates| - 1;
      var prefix := candidates[..n];
      var earlier := PrimaryPositions(prefix);
      assert PrimarySet(candidates) == PrimarySet(prefix) + (if candidates[n].primary then {n} else {});
      assert n !in PrimarySet(prefix);
      if candidates[n].primary then earlier + [n] else earlier
  }

  /**
   * The primary tie-break: the candidate marked primary when exactly one of
   * the matching candidates is; `None` when none or several are, so that
   * the flag breaks no tie.
   */
  function PrimaryCandidate(candidates: seq<Candidate>): (chosen: Option<Candidate>)
    ensures chosen.Some? <==> exists i :: UniquePrimary(candidates, i)
    ensures forall i :: UniquePrimary(candidates, i) ==> chosen == Some(candidates[i])
  {
    var positions := PrimaryPositions(candidates);
    assert forall i :: UniquePrimary(candidates, i) ==> PrimarySet(candidates) == {i};
    if |positions| == 1 then
      var p := positions[0];
      SingletonSet(PrimarySet(candidates), p);
      assert forall j :: 0 <= j < |candidates| && candidates[j].primary ==> j in PrimarySet(candidates);
      assert UniquePrimary(candidates, p);
      Some(candidates[p])
    else
      None
  }

  lemma SingletonSet(s: set<nat>, x: nat)
    requires x in s && |s| == 1
    ensures s == {x}
  {
    assert |s - {x}| == 0;
  }

  /**
   * The candidates a type-based lookup may autowire: those whose
   * autowireCandidate flag is set.
   */
  function TypeBasedCandidates(matching: seq<Candidate>): (candidates: seq<Candidate>)
    ensures forall c :: c in candidates <==> c in matching && c.autowireCandidate
    ensures |candidates| <= |matching|
    ensures UniqueNames(matching) ==> UniqueNames(candidates)
    decreases |matching|
  {
    if matching == [] then []
    else
      var prefix := matching[..|matching| - 1];
      var earlier := TypeBasedCandidates(prefix);
      var last := matching[|matching| - 1];
      assert matching == prefix + [last];
      assert UniqueNames(matching) ==> forall c :: c in prefix ==> c.beanName != last.beanName;
      if last.autowireCandidate then earlier + [last] else earlier
  }

  /**
   * The bean a type-based lookup settles on: the sole autowire candidate
   * when there is just one, and otherwise the one the primary tie-break
   * picks among the several candidates.
   */
  function AutowireByType(matching: seq<Candidate>): (chosen: Option<Candidate>)
    ensures chosen.Some? ==> chosen.value in matching && chosen.value.autowireCandidate
    ensures chosen.Some? ==> chosen.value.primary || |TypeBasedCandidates(matching)| == 1
    ensures |TypeBasedCandidates(matching)| == 1 ==> chosen == Some(TypeBasedCandidates(matching)[0])
    ensures |TypeBasedCandidates(matching)| != 1 ==> chosen == PrimaryCandidate(TypeBasedCandidates(matching))
  {
    var candidates := TypeBasedCandidates(matching);
    if |candidates| == 1 then
      assert candidates[0] in candidates;
      Some(candidates[0])
    else
      PrimaryCandidate(candidates)
  }

  /** An explicit reference by name: the first bean of that name, whatever its autowiring flags. */
  function ResolveByName(beans: seq<Candidate>, name: string): (resolved: Option<Candidate>)
    ensures resolved.Some? <==> exists c :: c in beans && c.beanName == name
    ensures resolved.Some? ==> resolved.value in beans && resolved.value.beanName == name
    ensures resolved.Some? ==>
      exists i :: 0 <= i < |beans| && beans[i] == resolved.value &&
        forall j :: 0 <= j < i ==> beans[j].beanName != name
  {
    if beans == [] then None
    else if beans[0].beanName == name then Some(beans[0])
    else
      var rest := ResolveByName(beans[1..], name);
      if rest.Some? then
        var i :| 0 <= i < |beans| - 1 && beans[1..][i] == rest.value &&
          forall j :: 0 <= j < i ==> beans[1..][j].beanName != name;
        assert beans[i + 1] == rest.value;
        assert forall j :: 0 <= j < i + 1 ==> beans[j].beanName != name by {
          forall j | 0 < j < i + 1 ensures beans[j].beanName != name {
            assert beans[j] == beans[1..][j - 1];
          }
        }
        rest
      else
        rest
  }

  /**
   * A definition whose autowireCandidate flag is cleared (by
   * SetAutowireCandidate(false)) is left out of every type-based lookup,
   * and a definition whose flag is set takes part in every one it matches.
   */
  lemma DefinitionFlagDecidesTypeBasedLookup(definition: BeanDefinition, beanName: string, matching: seq<Candidate>)
    ensures definition.AsCandidate(beanName) in TypeBasedCandidates(matching) <==>
      definition.AsCandidate(beanName) in matching && definition.autowireCandidate
    ensures !definition.autowireCandidate ==> AutowireByType(matching) != Some(definition.AsCandidate(beanName))
  {
  }

  ghost predicate UniqueNames(beans: seq<Candidate>) {
    forall i, j :: 0 <= i < j < |beans| ==> beans[i].beanName != beans[j].beanName
  }

  /**
   * Clearing autowireCandidate only affects type-based lookup: such a bean
   * is never chosen by type, even when marked primary, yet an explicit
   * reference to its name still resolves to it.
   */
  lemma NonCandidateOnlyByName(beans: seq<Candidate>, bean: Candidate)
    requires UniqueNames(beans) && bean in beans && !bean.autowireCandidate
    ensures bean !in TypeBasedCandidates(beans)
    ensures AutowireByType(beans) != Some(bean)
    ensures ResolveByName(beans, bean.beanName) == Some(bean)
  {
  }

  /**
   * A primary bean that is the only primary autowire candidate wins the
   * type-based lookup, whatever primary flags non-candidates carry.
   */
  lemma PrimaryAutowireCandidateWins(matching: seq<Candidate>, bean: Candidate)
    requires UniqueNames(matching)
    requires bean in matching && bean.autowireCandidate && bean.primary
    requires forall c :: c in matching && c.autowireCandidate && c.primary ==> c == bean
    ensures AutowireByType(matching) == Some(bean)
  {
  }
}
