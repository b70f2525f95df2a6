# A verified model of three contracts of the Spring Framework

This project models, in Dafny, the parts of this Spring Framework slice that have behaviour:

- **TransactionManagementConfigurationSelector** (module `TransactionManagementConfigurationSelector`).
  It decides which configuration classes `@EnableTransactionManagement` imports for a given advice mode.
  PROXY imports `AutoProxyRegistrar` and then `ProxyTransactionManagementConfiguration`.
  ASPECTJ imports one AspectJ aspect configuration.
  That configuration is the JTA variant exactly when `javax.transaction.Transactional` is on the classpath.
  Any other mode imports nothing (`null`, here `None`).
  The classpath probe is a `bool` parameter.
  The selector keeps no state, so it is a pair of functions, and its result depends on the mode and the probe alone.
- **AliasRegistry** (module `AliasRegistries`).
  A reference registry class holds the alias-to-canonical-name table as a `map` and a flag that says whether
  an alias in use may be overridden.
  `RegisterAlias` and `RemoveAlias` update the table in place.
  They return `IllegalStateException` in the cases the interface documents, and then leave the table unchanged.
  `IsAlias` and `GetAliases` are queries over the table.
- **BeanDefinition** (module `BeanDefinitions`).
  It is a class with one field per attribute and a setter per modifiable attribute.
  Each setter replaces its one field and leaves everything else as it was, as stated through `Snapshot()`.
  A Java getter is the read of the field of the same name.
  The module also holds:
  - the scope and role constants;
  - `hasConstructorArgumentValues` and `hasPropertyValues`;
  - the two selection rules the documentation states: the `primary` tie-break, and `autowireCandidate`
    affecting only type-based lookup;
  - the walk along the chain of originating definitions to the definition the user wrote.

Java `null` is `Option.None` (module `Basics`).
Strings are `seq<char>`.

## Model

| member | source | states |
|---|---|---|
| TransactionManagementConfigurationSelector.DetermineTransactionAspectClass | spring-tx/src/main/java/org/springframework/transaction/annotation/TransactionManagementConfigurationSelector.java:47-52 | yields the JTA aspect configuration class name exactly when the JTA annotation type is present, and the plain aspect configuration name exactly when it is absent |
| TransactionManagementConfigurationSelector.SelectImports | spring-tx/src/main/java/org/springframework/transaction/annotation/TransactionManagementConfigurationSelector.java:35-45 | the result is non-null exactly for PROXY and ASPECTJ; PROXY yields exactly [AutoProxyRegistrar, ProxyTransactionManagementConfiguration] in that order; ASPECTJ yields one name, the one DetermineTransactionAspectClass picks; a function of (mode, probe) only, hence deterministic |
| TransactionManagementConfigurationSelector.ImportsAreDistinctKnownClasses | spring-tx/src/main/java/org/springframework/transaction/annotation/TransactionManagementConfigurationSelector.java:36-44 | every imported name is one of the four configuration classes, none is imported twice, and the two proxy-based classes are imported exactly in PROXY mode |
| TransactionManagementConfigurationSelector.ProbeOnlyAffectsAspectJ | spring-tx/src/main/java/org/springframework/transaction/annotation/TransactionManagementConfigurationSelector.java:36-51 | the classpath probe changes the result for ASPECTJ and for no other mode |
| AliasRegistries.AliasRegistry.constructor | spring-core/src/main/java/org/springframework/core/AliasRegistry.java:7 | a new registry has no aliases and keeps the given overriding policy |
| AliasRegistries.AliasRegistry.IsAlias | spring-core/src/main/java/org/springframework/core/AliasRegistry.java:26-33 | a name is an alias exactly when some canonical name lists it among its aliases |
| AliasRegistries.AliasRegistry.RegisterAlias | spring-core/src/main/java/org/springframework/core/AliasRegistry.java:9-16 | throws IllegalStateException exactly when the alias is in use for another name and overriding is not allowed, leaving the table unchanged; otherwise maps alias to name, after which IsAlias(alias) holds and alias is among the aliases of name |
| AliasRegistries.AliasRegistry.RemoveAlias | spring-core/src/main/java/org/springframework/core/AliasRegistry.java:18-24 | throws IllegalStateException exactly when no such alias is registered, leaving the table unchanged; otherwise drops just that alias; afterwards it is not an alias, and every other alias keeps its name |
| AliasRegistries.AliasRegistry.GetAliases | spring-core/src/main/java/org/springframework/core/AliasRegistry.java:35-41 | returns exactly the aliases registered for name, each once; the result is empty exactly when name has no aliases |
| AliasRegistries.RegisterMovesAlias | spring-core/src/main/java/org/springframework/core/AliasRegistry.java:9-16 | after registering, the aliases of name gain alias, the aliases of every other name lose it and are otherwise unchanged |
| AliasRegistries.RemoveDropsOnlyThatAlias | spring-core/src/main/java/org/springframework/core/AliasRegistry.java:18-24 | removing an alias takes it out of the aliases of its name and changes no other alias set |
| AliasRegistries.RemoveUndoesRegister | spring-core/src/main/java/org/springframework/core/AliasRegistry.java:9-24 | removing an alias that was just registered for the first time restores the table |
| AliasRegistries.CanonicalNameIsNotAlias | spring-core/src/main/java/org/springframework/core/AliasRegistry.java:26-33 | a name that is only the canonical name of aliases, not itself registered as an alias, is not an alias |
| BeanDefinitions.RoleHintsAreDistinct | spring-beans/src/main/java/org/springframework/beans/factory/config/BeanDefinition.java:26-79 | ROLE_APPLICATION = 0, ROLE_SUPPORT = 1, ROLE_INFRASTRUCTURE = 2 are three distinct hints; the singleton and prototype scope identifiers differ |
| BeanDefinitions.BeanDefinition.constructor | spring-beans/src/main/java/org/springframework/beans/factory/config/BeanDefinition.java:24 | a new definition carries exactly the given attributes |
| BeanDefinitions.BeanDefinition.SetParentName | spring-beans/src/main/java/org/springframework/beans/factory/config/BeanDefinition.java:88-97 | the parent name becomes the given value; every other attribute is unchanged |
| BeanDefinitions.BeanDefinition.SetBeanClassName | spring-beans/src/main/java/org/springframework/beans/factory/config/BeanDefinition.java:104-129 | the bean class name becomes the given value; every other attribute is unchanged |
| BeanDefinitions.BeanDefinition.SetScope | spring-beans/src/main/java/org/springframework/beans/factory/config/BeanDefinition.java:131-143 | the scope becomes the given value (null allowed); every other attribute is unchanged |
| BeanDefinitions.BeanDefinition.SetLazyInit | spring-beans/src/main/java/org/springframework/beans/factory/config/BeanDefinition.java:150-161 | the lazy-init flag becomes the given value; every other attribute is unchanged |
| BeanDefinitions.BeanDefinition.SetDependsOn | spring-beans/src/main/java/org/springframework/beans/factory/config/BeanDefinition.java:168-178 | the depends-on names become the given ordered sequence (or null); every other attribute is unchanged |
| BeanDefinitions.BeanDefinition.SetAutowireCandidate | spring-beans/src/main/java/org/springframework/beans/factory/config/BeanDefinition.java:180-192 | the autowire-candidate flag becomes the given value; every other attribute is unchanged |
| BeanDefinitions.BeanDefinition.SetPrimary | spring-beans/src/main/java/org/springframework/beans/factory/config/BeanDefinition.java:194-204 | the primary flag becomes the given value; every other attribute is unchanged |
| BeanDefinitions.BeanDefinition.SetFactoryBeanName | spring-beans/src/main/java/org/springframework/beans/factory/config/BeanDefinition.java:206-218 | the factory bean name becomes the given value; every other attribute is unchanged |
| BeanDefinitions.BeanDefinition.SetFactoryMethodName | spring-beans/src/main/java/org/springframework/beans/factory/config/BeanDefinition.java:220-234 | the factory method name becomes the given value; every other attribute is unchanged |
| BeanDefinitions.BeanDefinition.SetInitMethodName | spring-beans/src/main/java/org/springframework/beans/factory/config/BeanDefinition.java:273-286 | the init method name becomes the given value; every other attribute is unchanged |
| BeanDefinitions.BeanDefinition.SetDestroyMethodName | spring-beans/src/main/java/org/springframework/beans/factory/config/BeanDefinition.java:288-301 | the destroy method name becomes the given value; every other attribute is unchanged |
| BeanDefinitions.BeanDefinition.SetRole | spring-beans/src/main/java/org/springframework/beans/factory/config/BeanDefinition.java:303-324 | the role hint becomes the given value; every other attribute is unchanged |
| BeanDefinitions.BeanDefinition.SetDescription | spring-beans/src/main/java/org/springframework/beans/factory/config/BeanDefinition.java:326-337 | the description becomes the given value; every other attribute is unchanged |
| BeanDefinitions.BeanDefinition.HasConstructorArgumentValues | spring-beans/src/main/java/org/springframework/beans/factory/config/BeanDefinition.java:236-251 | true exactly when at least one constructor argument value is defined, i.e. the values are not empty |
| BeanDefinitions.BeanDefinition.HasPropertyValues | spring-beans/src/main/java/org/springframework/beans/factory/config/BeanDefinition.java:253-271 | true exactly when some property value is defined, i.e. the property values are not empty |
| BeanDefinitions.BeanDefinition.OriginalBeanDefinition | spring-beans/src/main/java/org/springframework/beans/factory/config/BeanDefinition.java:369-376 | following the originating definitions from this one over a finite chain ends at the chain's last definition, which has no originator; the result is this definition exactly when it has no originator |
| BeanDefinitions.ChainIsAcyclic | spring-beans/src/main/java/org/springframework/beans/factory/config/BeanDefinition.java:369-376 | a finite chain of originators never meets the same definition twice |
| BeanDefinitions.ChainIsUnique | spring-beans/src/main/java/org/springframework/beans/factory/config/BeanDefinition.java:369-376 | the chain of originators of a definition is determined by the definition alone |
| BeanDefinitions.PrimaryPositions | spring-beans/src/main/java/org/springframework/beans/factory/config/BeanDefinition.java:194-198 | lists every primary candidate position, each once, in increasing order, and nothing else |
| BeanDefinitions.PrimaryCandidate | spring-beans/src/main/java/org/springframework/beans/factory/config/BeanDefinition.java:194-198 | picks a candidate exactly when exactly one candidate is primary, and then picks that one |
| BeanDefinitions.TypeBasedCandidates | spring-beans/src/main/java/org/springframework/beans/factory/config/BeanDefinition.java:180-186 | keeps exactly the matching beans that are autowire candidates; keeps bean names unique |
| BeanDefinitions.AutowireByType | spring-beans/src/main/java/org/springframework/beans/factory/config/BeanDefinition.java:180-198 | a bean chosen by type is one of the matching beans and an autowire candidate; a sole autowire candidate is chosen without any tie-break; among several, the choice is the primary tie-break, so a chosen bean is then primary |
| BeanDefinitions.ResolveByName | spring-beans/src/main/java/org/springframework/beans/factory/config/BeanDefinition.java:182-185 | resolves a name exactly when some bean has it, whatever its autowiring flag, and yields the first bean of that name |
| BeanDefinitions.DefinitionFlagDecidesTypeBasedLookup | spring-beans/src/main/java/org/springframework/beans/factory/config/BeanDefinition.java:180-192 | a definition takes part in a type-based lookup exactly when it matches and its autowireCandidate flag is set; with the flag cleared it is never chosen by type |
| BeanDefinitions.NonCandidateOnlyByName | spring-beans/src/main/java/org/springframework/beans/factory/config/BeanDefinition.java:180-186 | a bean that is not an autowire candidate is never chosen by type, even when primary, yet its name still resolves to it |
| BeanDefinitions.PrimaryAutowireCandidateWins | spring-beans/src/main/java/org/springframework/beans/factory/config/BeanDefinition.java:194-198 | the only primary autowire candidate among the matching beans is the one a type-based lookup chooses |

## Left out

- `ImportSelector.selectImports(AnnotationMetadata)` and `AdviceModeImportSelector`: they read the advice mode from
  annotation metadata by reflection, which is not part of this model, so only `selectImports(AdviceMode)` is modelled.
- Java's `AdviceMode` has just PROXY and ASPECTJ.
  The `default` branch is modelled by a third value, `Unrecognized`, so that its `null` result can be stated.
- `ClassUtils.isPresent` (a class-loader probe) is the `jtaPresent` parameter.
  `Class.getName()` is replaced by string constants.
  The two aspect class names are the values of Spring's `TransactionManagementConfigUtils`, which is not part of this model.
  The proofs depend only on the four names being distinct.
- AliasRegistry: the interface fixes no order for `getAliases`, and the model promises none.
  Only direct aliases are modelled.
  Alias chains, cycle checks and the rule that an alias equal to its name is dropped belong to implementations
  that are not part of this model.
- AliasRegistries.AliasRegistry.RegisterAlias: "in use" is read as "registered for another name".
  Re-registering the identical mapping therefore succeeds and leaves the table as it was.
- BeanDefinitions.PrimaryCandidate: among several candidates, a lookup with zero or several primaries is not
  decided by the flag. The result is then `None`, and what the container does next is not modelled.
- BeanDefinition `isSingleton`, `isPrototype`, `isAbstract`: the interface declares them without saying how they
  follow from the scope or other attributes, so they are not modelled.
- The `AttributeAccessor` and `BeanMetadataElement` super-interfaces are not part of this model.
  Neither are the internals of `ConstructorArgumentValues` and `MutablePropertyValues`.
  Here they are opaque sequences with an emptiness test.
- The getters of these two containers return live objects that post-processors may modify.
  The model holds them as values, so updates made through such a shared reference (aliasing) are not modelled.
- `getResourceDescription` and `getOriginatingBeanDefinition` have no setter in the interface.
  They are read-only (`const`) fields fixed when a definition is constructed.
- BeanDefinitions.BeanDefinition.OriginalBeanDefinition: it requires the chain of originators to be finite, given as a
  ghost sequence, because the interface asserts no acyclicity that Dafny could rely on.
- Type matching of candidates is not modelled: the candidate rules take the beans that already match the required type.
- Bean instantiation (singleton caching, depends-on ordering, circular-dependency detection) is not part of this model.
  Neither are ApplicationContext, HierarchicalBeanFactory, ListenableFuture (asynchronous callbacks),
  SmartTransactionObject (datastore flushing and JTA state) and the empty marker AopInfrastructureBean.
