# Query parameters, reactive wrappers and type information of Spring Data Commons, in Dafny

This project models four pieces of Spring Data Commons. Each piece is proved against the properties its code promises.

- **`Parameter`** classifies one parameter of a repository query method. It decides whether the parameter is special or bindable:
  - special parameters are paging, sorting, limiting, scroll positions, Kotlin continuations and dynamic projections;
  - bindable parameters are bound as query arguments.

  It also computes the parameter's effective type (at most one wrapper layer is removed), its flags, its name and its bind placeholder (`:name` or `?index`). The static `TYPES` list is a constant sequence. `isSpecialParameterType` is a method with a search loop, proved equal to an existential predicate.
- **`ReactiveWrapperConverters`** covers:
  - the ordered list of wrapper descriptors that the static initialiser builds from the reactive libraries on the class path (RxJava 3, Project Reactor, Kotlin coroutines, Mutiny);
  - first-match dispatch of `map`, including the Publisher descriptor's own dispatch;
  - recursive unwrapping of wrapper types;
  - `toWrapper`;
  - the converters `registerConvertersIn` adds;
  - the adapter-backed converter factory;
  - the error paths of the registry holder.

  The static initialiser and `registerConvertersIn` change state, so they are a class (`StaticState`) and a `ConversionService` class that collects registrations.
- **`ClassTypeInformation`** is the type information of a plain class. It stores the resolved class (Object when the type does not resolve) and compares raw classes only. It is its own raw view, and `specialize` is the identity.
- **`FluentQuery`** models the default methods of the fluent query interfaces:
  - `limit` and `scroll` are unsupported;
  - varargs `project` delegates to the collection form;
  - `one` and `first` are the Optional views of `oneValue` and `firstValue`;
  - `slice` is `page`.

The module `JavaTypes` supplies the type universe:
- class identifiers;
- a class hierarchy given as the set of supertypes of each class;
- `Class.isAssignableFrom`;
- ResolvableType-like descriptors, which are no type, a type variable with its bound, or a class with generic arguments.

`Wrappers` holds `Option`, `Result` and the exceptions the code throws. `Decimal` renders the positional index and proves that parsing the rendering gives the index back.

Library operators (`Mono.map`, `Flux.from`, `FlowKt.map`, `ReactiveFlowKt.asFlow`, the adapters' `toPublisher`/`fromPublisher`) are not executed. Each result is a tagged `Reactive` value that records which operator was applied to what. Collaborators whose code is not part of this model are inputs:
- `QueryExecutionConverters` is a datatype of three functions.
- Spring's `ReactiveAdapterRegistry` is a lookup from a class to the reactive type of its adapter.
- The conversion step of `GenericConversionService` is a function parameter of `ToWrapper`.
- The class hierarchy is a value of type `Hierarchy`.

Behaviour of the code worth knowing:
- `potentiallyUnwrapParameterType` removes one wrapper level only (Parameter.java:341-350). An `Optional<Optional<User>>` parameter has the effective type `Optional`, which is itself a wrapper (`Parameter.NestedWrapperUnwrapsOneLevel`).
- `ReactiveWrapperConverters.supports` asks the reactive adapter registry (ReactiveWrapperConverters.java:141-144). It does not check assignability to the registered wrapper classes, so it is false whenever Project Reactor is absent (`ReactiveWrapperConverters.NothingSupportedWithoutReactor`).
- A `Class` parameter without `@Param` and without an owning method makes the constructor throw IllegalArgumentException (Parameter.java:294-298). With `@Param` the test returns false first (Parameter.java:290-292). The model returns this as a `Failure` of `Parameter.Create` rather than treating it as a precondition.
- For a class used raw, `ResolvableType.getGeneric(0)` is the class's own type variable. So a raw `Range` parameter is a score range (`Parameter.RawRangeIsScoreRange`).

## Model

| member | source | states |
|---|---|---|
| ClassTypeInformation.New | src/main/java/org/springframework/data/util/ClassTypeInformation.java:60-63 | the stored type is the class the ResolvableType resolves to: the raw class, a variable's bound, or Object when there is no type |
| ClassTypeInformation.FromClass | src/main/java/org/springframework/data/util/ClassTypeInformation.java:70-72 | from(Class) yields type information whose type is that class and whose toString is the class name |
| ClassTypeInformation.From | src/main/java/org/springframework/data/util/ClassTypeInformation.java:74-79 | a null type is rejected with IllegalArgumentException "Type must not be null"; any other type succeeds with a valid instance for it |
| ClassTypeInformation.ClassTypeInformation.GetType | src/main/java/org/springframework/data/util/ClassTypeInformation.java:81-84 | the class stored by the constructor |
| ClassTypeInformation.ClassTypeInformation.GetRawTypeInformation | src/main/java/org/springframework/data/util/ClassTypeInformation.java:86-89 | the receiver itself |
| ClassTypeInformation.ClassTypeInformation.IsAssignableFrom | src/main/java/org/springframework/data/util/ClassTypeInformation.java:91-94 | Class.isAssignableFrom of the stored class and the target's erased class |
| ClassTypeInformation.ClassTypeInformation.Specialize | src/main/java/org/springframework/data/util/ClassTypeInformation.java:96-99 | the argument, unchanged |
| ClassTypeInformation.ClassTypeInformation.ToString | src/main/java/org/springframework/data/util/ClassTypeInformation.java:101-104 | the name of the stored class; stated for every class through the ensures of ClassTypeInformation.FromClass |
| ClassTypeInformation.ConstantsStandForTheirClasses | src/main/java/org/springframework/data/util/ClassTypeInformation.java:43-56 | OBJECT, COLLECTION, LIST, SET and MAP have their classes as type; OBJECT is assignable from every reference type and, in a well-formed hierarchy, from no primitive |
| ClassTypeInformation.RawTypeInformationIsItself | src/main/java/org/springframework/data/util/ClassTypeInformation.java:86-89 | getRawTypeInformation returns the same instance |
| ClassTypeInformation.SpecializeIsIdentity | src/main/java/org/springframework/data/util/ClassTypeInformation.java:96-99 | specialize returns its argument unchanged |
| ClassTypeInformation.AssignabilityComparesRawClassesOnly | src/main/java/org/springframework/data/util/ClassTypeInformation.java:91-94 | two targets with the same raw class get the same answer from isAssignableFrom, whatever their generic arguments |
| ClassTypeInformation.AssignabilityIsAPreorder | src/main/java/org/springframework/data/util/ClassTypeInformation.java:91-94 | isAssignableFrom is reflexive, and transitive in a well-formed hierarchy |
| ReactiveWrapperConverters.WrapperOrderContents | src/main/java/org/springframework/data/repository/util/ReactiveWrapperConverters.java:75-99 | a descriptor is in the list iff its library is present |
| ReactiveWrapperConverters.WrapperOrderIsRegistrationOrder | src/main/java/org/springframework/data/repository/util/ReactiveWrapperConverters.java:75-99 | the list is in strictly increasing initialiser order (RxJava 3 Single, Maybe, Observable, Flowable; Flux, Mono, Publisher; Flow; Uni, Multi), so no descriptor appears twice, for every combination of present libraries |
| ReactiveWrapperConverters.AllPresentOrder | src/main/java/org/springframework/data/repository/util/ReactiveWrapperConverters.java:75-99 | with every library present the list holds the ten descriptors in initialiser order |
| ReactiveWrapperConverters.StaticState.constructor | src/main/java/org/springframework/data/repository/util/ReactiveWrapperConverters.java:75-102 | after the static initialiser, REACTIVE_WRAPPERS is the ordered descriptor list, the registry holder holds the shared registry iff Reactor is present, and the fresh conversion service holds exactly the registrations registerConvertersIn makes |
| ReactiveWrapperConverters.StaticState.AddWrapper | src/main/java/org/springframework/data/repository/util/ReactiveWrapperConverters.java:79-98 | REACTIVE_WRAPPERS.add appends the descriptor at the end |
| ReactiveWrapperConverters.StaticState.RegisterConvertersIn | src/main/java/org/springframework/data/repository/util/ReactiveWrapperConverters.java:111-128 | the service's registrations are extended by exactly the converters the present libraries and the registry allow, in order |
| ReactiveWrapperConverters.RegistrationConditions | src/main/java/org/springframework/data/repository/util/ReactiveWrapperConverters.java:111-128 | Publisher→Mono and Publisher→Flux are registered iff Reactor is present; Publisher→Flow iff Reactor and coroutines are; the adapter factory iff Reactor is present and the registry is not null |
| ReactiveWrapperConverters.NothingSupportedWithoutReactor | src/main/java/org/springframework/data/repository/util/ReactiveWrapperConverters.java:141-144 | without Project Reactor the registry is absent and no type is supported |
| ReactiveWrapperConverters.UnwrapWrapperTypes | src/main/java/org/springframework/data/repository/util/ReactiveWrapperConverters.java:153-160 | an unsupported type is returned unchanged; a result is not supported and every layer above it is a supported wrapper, so it is the first unsupported layer; the call fails with IllegalStateException exactly when the supported layers end at a type without a component type |
| ReactiveWrapperConverters.UnwrapStopsAtFirstUnsupported | src/main/java/org/springframework/data/repository/util/ReactiveWrapperConverters.java:153-160 | any unsupported type reached from the input through supported layers only is what unwrapping returns |
| ReactiveWrapperConverters.Supports | src/main/java/org/springframework/data/repository/util/ReactiveWrapperConverters.java:141-144 | true iff the registry holder has a registry and it has an adapter for the type |
| ReactiveWrapperConverters.WrapperOrder | src/main/java/org/springframework/data/repository/util/ReactiveWrapperConverters.java:75-99 | the descriptor list: each library's group in initialiser order, when the library is present |
| ReactiveWrapperConverters.FactoryMatches | src/main/java/org/springframework/data/repository/util/ReactiveWrapperConverters.java:523-530 | the factory matches when the registry supports the source type or the target type |
| ReactiveWrapperConverters.RegisteredConverters | src/main/java/org/springframework/data/repository/util/ReactiveWrapperConverters.java:111-128 | the registrations registerConvertersIn makes, in order: Publisher to Mono and to Flux with Reactor, to Flow with coroutines too, then the factory when there is a registry |
| ReactiveWrapperConverters.UnwrapIsIdempotent | src/main/java/org/springframework/data/repository/util/ReactiveWrapperConverters.java:153-160 | unwrapping an unwrapped type changes nothing |
| ReactiveWrapperConverters.NestedWrappersUnwrapToInnermost | src/main/java/org/springframework/data/repository/util/ReactiveWrapperConverters.java:153-160 | Mono<Flux<User>> unwraps to User through both layers; a raw Mono fails only because the model takes the component type of a class used raw as absent (see Left out) |
| ReactiveWrapperConverters.ToWrapper | src/main/java/org/springframework/data/repository/util/ReactiveWrapperConverters.java:170-186 | the object itself when the target type is assignable from its class; otherwise the conversion result, the conversion's own exception, or IllegalStateException "Wait, what?" for a null result |
| ReactiveWrapperConverters.ToWrapperIdentity | src/main/java/org/springframework/data/repository/util/ReactiveWrapperConverters.java:175-177 | converting to the object's own class, or to Object for a reference type, returns the object without any conversion |
| ReactiveWrapperConverters.MapElements | src/main/java/org/springframework/data/repository/util/ReactiveWrapperConverters.java:196-204 | map fails with IllegalStateException iff no registered descriptor accepts the object's class; otherwise the result is the map of the first accepting descriptor in list order |
| ReactiveWrapperConverters.WrapperClass | src/main/java/org/springframework/data/repository/util/ReactiveWrapperConverters.java:258-454 | each descriptor's getWrapperClass: Mono, Flux, Flow, Publisher, the four RxJava 3 types, Uni and Multi |
| ReactiveWrapperConverters.GetFirst | src/main/java/org/springframework/data/repository/util/ReactiveWrapperConverters.java:206-210 | the index found accepts the class and no earlier descriptor does; none is found iff no descriptor accepts it |
| ReactiveWrapperConverters.GetFirstIsLeast | src/main/java/org/springframework/data/repository/util/ReactiveWrapperConverters.java:206-210 | an accepting descriptor with no accepting descriptor before it is the one getFirst finds |
| ReactiveWrapperConverters.MapPreservesWrapperClass | src/main/java/org/springframework/data/repository/util/ReactiveWrapperConverters.java:196-204 | the mapped object is still accepted by the descriptor that was chosen |
| ReactiveWrapperConverters.FlowablePrefersRxJava3Descriptor | src/main/java/org/springframework/data/repository/util/ReactiveWrapperConverters.java:206-210 | with every library present a Flowable, although a Publisher, is mapped by the RxJava 3 Flowable descriptor, which comes first |
| ReactiveWrapperConverters.MonoMapsThroughMonoDescriptor | src/main/java/org/springframework/data/repository/util/ReactiveWrapperConverters.java:196-210 | with every library present a Mono is mapped by the Mono descriptor, ahead of the Publisher descriptor |
| ReactiveWrapperConverters.NoReactorNoMonoMapping | src/main/java/org/springframework/data/repository/util/ReactiveWrapperConverters.java:196-204 | without Reactor no descriptor accepts a Mono, and map throws IllegalStateException |
| ReactiveWrapperConverters.DescriptorMap | src/main/java/org/springframework/data/repository/util/ReactiveWrapperConverters.java:258-454 | each descriptor maps with its own library's operator; the Publisher descriptor never maps with itself but defers to Mono or Flux |
| ReactiveWrapperConverters.PublisherWrapperDispatch | src/main/java/org/springframework/data/repository/util/ReactiveWrapperConverters.java:324-335 | a Mono goes to the Mono mapping, a Flux to the Flux mapping, any other publisher through Flux.from and then the Flux mapping |
| ReactiveWrapperConverters.PublisherMapsThroughFluxFrom | src/main/java/org/springframework/data/repository/util/ReactiveWrapperConverters.java:324-335 | with every library present a plain Publisher is lifted with Flux.from and mapped by Flux |
| ReactiveWrapperConverters.ApplyConverter | src/main/java/org/springframework/data/repository/util/ReactiveWrapperConverters.java:466-513 | each converter wraps its source with Mono.from, Flux.from or asFlow, giving a Mono, Flux or Flow |
| ReactiveWrapperConverters.FactoryMatchRule | src/main/java/org/springframework/data/repository/util/ReactiveWrapperConverters.java:523-530 | every successful conversion by the factory is of a pair the factory matches; a pair that matches on the source alone still fails with IllegalArgumentException "No ReactiveAdapter for …"; a pair that does not match cannot be converted |
| ReactiveWrapperConverters.FactoryConvert | src/main/java/org/springframework/data/repository/util/ReactiveWrapperConverters.java:534-543 | a Publisher source is used directly, any other source is first adapted to a Publisher by its own adapter; the result comes from the target type's adapter |
| ReactiveWrapperConverters.FactoryConvertFailures | src/main/java/org/springframework/data/repository/util/ReactiveWrapperConverters.java:534-543 | the converter fails iff the target type has no adapter or a non-Publisher source has none; without a registry it fails with the registry-not-available error; a non-Publisher source without an adapter fails with IllegalArgumentException "Cannot convert Reactive Type 'org.reactivestreams.Publisher' (…) to Publisher" |
| ReactiveWrapperConverters.RegistryHolderInit | src/main/java/org/springframework/data/repository/util/ReactiveWrapperConverters.java:557-564 | the registry holder has the shared registry iff Project Reactor is present |
| ReactiveWrapperConverters.GetReactiveAdapterRegistry | src/main/java/org/springframework/data/repository/util/ReactiveWrapperConverters.java:566-574 | IllegalStateException with the exact message when the registry is null, the registry otherwise |
| ReactiveWrapperConverters.GetAdapterForSource | src/main/java/org/springframework/data/repository/util/ReactiveWrapperConverters.java:576-586 | succeeds iff the registry has an adapter for the source's class, and then returns it; IllegalArgumentException naming both classes when there is none |
| ReactiveWrapperConverters.GetAdapter | src/main/java/org/springframework/data/repository/util/ReactiveWrapperConverters.java:588-598 | succeeds iff the type is supported; IllegalArgumentException naming the type when no adapter is registered |
| Parameter.Types | src/main/java/org/springframework/data/repository/query/Parameter.java:65-76 | TYPES starts with ScrollPosition, Pageable, Sort and Limit, and holds Continuation iff it is on the class path |
| Parameter.ContinuationIsSpecialIffPresent | src/main/java/org/springframework/data/repository/query/Parameter.java:65-76 | a Continuation parameter type is special exactly when Continuation is on the class path |
| Parameter.IsSpecialParameterType | src/main/java/org/springframework/data/repository/query/Parameter.java:359-368 | the early-return search answers true iff some member of TYPES is assignable from the class |
| Parameter.SpecialTypeIsCovariant | src/main/java/org/springframework/data/repository/query/Parameter.java:352-368 | a subtype of a special type is special |
| Parameter.PageRequestIsSpecial | src/main/java/org/springframework/data/repository/query/Parameter.java:352-368 | a PageRequest parameter is pageable, special and not bindable |
| Parameter.Create | src/main/java/org/springframework/data/repository/query/Parameter.java:86-100 | the constructor fails exactly when the dynamic-projection test throws, with its exception; otherwise the parameter keeps the method parameter and gets the unwrapped type, the score-range flag and the projection flag |
| Parameter.PotentiallyUnwrapParameterType | src/main/java/org/springframework/data/repository/query/Parameter.java:341-350 | the effective type is the declared class unless the class is both wrapped and unwrappable; then it is the erasure of the first type argument, or Object when there is none |
| Parameter.IsWrapped | src/main/java/org/springframework/data/repository/query/Parameter.java:318-321 | the declared class is a synchronous wrapper QueryExecutionConverters supports or a reactive type the registry supports |
| Parameter.ShouldUnwrap | src/main/java/org/springframework/data/repository/query/Parameter.java:330-332 | QueryExecutionConverters says the declared class is to be unwrapped |
| Parameter.IsScoreRangeType | src/main/java/org/springframework/data/repository/query/Parameter.java:92-93 | the declared class is a Range and its first generic, a raw Range's own type variable included, accepts Score |
| Parameter.RawRangeIsScoreRange | src/main/java/org/springframework/data/repository/query/Parameter.java:92-93 | a raw Range parameter is a score range |
| Parameter.Parameter.IsSpecialParameter | src/main/java/org/springframework/data/repository/query/Parameter.java:108-110 | a dynamic projection, or a declared class some member of TYPES is assignable from |
| Parameter.Parameter.IsBindable | src/main/java/org/springframework/data/repository/query/Parameter.java:117-119 | not special |
| Parameter.Parameter.IsDynamicProjectionParameter | src/main/java/org/springframework/data/repository/query/Parameter.java:126-128 | the dynamic-projection flag the constructor computed |
| Parameter.Parameter.GetPlaceholder | src/main/java/org/springframework/data/repository/query/Parameter.java:136-143 | ":" and the name for a named parameter, "?" and the decimal index otherwise |
| Parameter.Parameter.GetIndex | src/main/java/org/springframework/data/repository/query/Parameter.java:150-152 | the method parameter's position |
| Parameter.Parameter.IsNamedParameter | src/main/java/org/springframework/data/repository/query/Parameter.java:161-163 | bindable and with a name |
| Parameter.Parameter.IsExplicitlyNamed | src/main/java/org/springframework/data/repository/query/Parameter.java:172-174 | the parameter carries @Param |
| Parameter.Parameter.GetType | src/main/java/org/springframework/data/repository/query/Parameter.java:208-210 | the effective type the constructor computed |
| Parameter.Parameter.IsVector | src/main/java/org/springframework/data/repository/query/Parameter.java:222-224 | Vector is assignable from the effective type |
| Parameter.Parameter.IsScore | src/main/java/org/springframework/data/repository/query/Parameter.java:230-232 | Score is assignable from the effective type |
| Parameter.Parameter.IsScoreRange | src/main/java/org/springframework/data/repository/query/Parameter.java:238-240 | the score-range flag the constructor computed |
| Parameter.Parameter.IsScrollPosition | src/main/java/org/springframework/data/repository/query/Parameter.java:246-248 | ScrollPosition is assignable from the effective type |
| Parameter.Parameter.IsPageable | src/main/java/org/springframework/data/repository/query/Parameter.java:253-255 | Pageable is assignable from the effective type |
| Parameter.Parameter.IsSort | src/main/java/org/springframework/data/repository/query/Parameter.java:260-262 | Sort is assignable from the effective type |
| Parameter.Parameter.IsLimit | src/main/java/org/springframework/data/repository/query/Parameter.java:268-270 | Limit is assignable from the effective type |
| Parameter.NestedWrapperUnwrapsOneLevel | src/main/java/org/springframework/data/repository/query/Parameter.java:341-350 | Optional<Optional<User>> has the effective type Optional, itself a wrapper |
| Parameter.ScoreRangeIsNotScore | src/main/java/org/springframework/data/repository/query/Parameter.java:226-240 | a Range<Score> parameter is a score range but not a score |
| Parameter.SpecialOrBindable | src/main/java/org/springframework/data/repository/query/Parameter.java:108-119 | exactly one of special and bindable holds; a dynamic projection is special and not bindable |
| Parameter.WrappedPageableIsBindable | src/main/java/org/springframework/data/repository/query/Parameter.java:108-110 | the special test uses the declared class: Optional<Pageable> is pageable yet bindable |
| Parameter.SpecialFlagsMakeSpecial | src/main/java/org/springframework/data/repository/query/Parameter.java:246-270 | when the declared class is kept, a scroll-position, pageable, sort or limit parameter is special |
| Parameter.Parameter.GetName | src/main/java/org/springframework/data/repository/query/Parameter.java:96-99 | the @Param value when the annotation is present, otherwise the discovered name; absent iff neither exists |
| Parameter.Parameter.GetRequiredName | src/main/java/org/springframework/data/repository/query/Parameter.java:197-201 | the name when present; IllegalStateException with the parameter in its message when absent |
| Parameter.Parameter.ToString | src/main/java/org/springframework/data/repository/query/Parameter.java:214-216 | "Optional[name]" for a named parameter, "#index" otherwise, then a colon and the effective type's name |
| Parameter.ToStringReadsBack | src/main/java/org/springframework/data/repository/query/Parameter.java:214-216 | an unnamed parameter's text starts with "#" and its leading digits read back as the index; a named one starts with "Optional["; both end with ":" and the effective type's name |
| Parameter.SpecialParametersArePositional | src/main/java/org/springframework/data/repository/query/Parameter.java:136-143 | a special parameter is never named and gets "?" and its index, even when it has a name |
| Parameter.PlaceholderRoundTrip | src/main/java/org/springframework/data/repository/query/Parameter.java:136-143 | the placeholder reads back as the name for a named parameter and as the index otherwise |
| Parameter.ExplicitNameDecidesPlaceholder | src/main/java/org/springframework/data/repository/query/Parameter.java:136-143 | bindable parameters with the same @Param value get the same ":name" placeholder, whatever their positions |
| Parameter.PositionalPlaceholdersAreDistinct | src/main/java/org/springframework/data/repository/query/Parameter.java:136-152 | unnamed parameters at different positions get different placeholders |
| Parameter.DetectDynamicProjection | src/main/java/org/springframework/data/repository/query/Parameter.java:284-309 | throws exactly for a Class parameter without @Param whose method is missing (IllegalArgumentException) or whose return type cannot be unwrapped; true only for such a parameter whose type argument is not a reactive wrapper, is not assignable to the domain type and is reached from the return type through supported reactive wrapper layers only |
| Parameter.DynamicProjectionCharacterisation | src/main/java/org/springframework/data/repository/query/Parameter.java:284-309 | both directions: a dynamic projection iff a Class parameter without @Param, with a method, whose fully unwrapped return type equals its type argument and is not assignable to the domain type |
| Parameter.DynamicProjectionTypeArgument | src/main/java/org/springframework/data/repository/query/Parameter.java:284-309 | a created dynamic-projection parameter is special, is a Class parameter without @Param, and its type argument is neither a reactive wrapper nor assignable to the domain type |
| Parameter.GenericClassParameterIsDynamicProjection | src/main/java/org/springframework/data/repository/query/Parameter.java:284-309 | for `<T> List<T> findByName(String, Class<T>)` on a User repository, the Class parameter is a dynamic projection, not bindable, with placeholder "?1" |
| Parameter.ConcreteClassParameterIsBindable | src/main/java/org/springframework/data/repository/query/Parameter.java:284-309 | for `List<User> findByType(Class<User>)` on a User repository, the parameter is not a dynamic projection and binds as ":type" |
| Parameter.ClassParameterWithoutMethodFails | src/main/java/org/springframework/data/repository/query/Parameter.java:294-298 | a Class parameter without @Param and without an owning method fails with IllegalArgumentException; with @Param it is created and is no dynamic projection |
| Decimal.NatToString | src/main/java/org/springframework/data/repository/query/Parameter.java:141 | the index is written as decimal digits with no leading zero |
| Decimal.ParseNatToString | src/main/java/org/springframework/data/repository/query/Parameter.java:141 | reading the written digits back gives the index |
| Decimal.NatToStringInjective | src/main/java/org/springframework/data/repository/query/Parameter.java:141 | different indexes are written differently |
| FluentQuery.DefaultLimit | src/main/java/org/springframework/data/repository/query/FluentQuery.java:71-73 | limit throws UnsupportedOperationException "Limit not supported" for every limit, negative or not |
| FluentQuery.FetchableFluentQuery.Limit | src/main/java/org/springframework/data/repository/query/FluentQuery.java:128-130 | a fetchable query's default limit throws UnsupportedOperationException "Limit not supported" |
| FluentQuery.DefaultScroll | src/main/java/org/springframework/data/repository/query/FluentQuery.java:315-317 | scroll throws UnsupportedOperationException "Scrolling not supported" |
| FluentQuery.FetchableFluentQuery.Scroll | src/main/java/org/springframework/data/repository/query/FluentQuery.java:201-203 | a fetchable query's default scroll throws UnsupportedOperationException "Scrolling not supported" for every position |
| FluentQuery.FetchableFluentQuery.Project | src/main/java/org/springframework/data/repository/query/FluentQuery.java:144-147 | project(Collection), the abstract builder step: a new query in the implementation's new state, with everything else kept; the receiver is a value and unchanged |
| FluentQuery.FetchableFluentQuery.ProjectVarargs | src/main/java/org/springframework/data/repository/query/FluentQuery.java:140-142 | varargs project is the collection project of the same properties in the same order |
| FluentQuery.FetchableFluentQuery.One | src/main/java/org/springframework/data/repository/query/FluentQuery.java:155-157 | one() is empty iff oneValue() is null, holds the value otherwise, and passes oneValue's exception through |
| FluentQuery.FetchableFluentQuery.First | src/main/java/org/springframework/data/repository/query/FluentQuery.java:173-175 | first() is empty iff firstValue() is null and holds the value otherwise |
| FluentQuery.OptionalViewsRoundTrip | src/main/java/org/springframework/data/repository/query/FluentQuery.java:155-175 | reading one() and first() back as nullable values gives exactly what oneValue() and firstValue() returned |
| FluentQuery.FetchableFluentQuery.Slice | src/main/java/org/springframework/data/repository/query/FluentQuery.java:223-225 | slice(p) is page(p) |

## Left out

- I/O and class-path probing: which reactive libraries and whether Continuation are present are input flags (`LibraryPresence`, `Environment.continuationPresent`).
- The library operators of Reactor, RxJava 3, Mutiny and Kotlin Flow are not executed. Their results are tagged `Reactive` values, so laziness and element-level behaviour of the mapped streams are not modelled.
- `ReactiveAdapterRegistry` is a lookup from a class to the reactive type of its adapter. The two-argument `getAdapter(type, source)` looks up the source's class, which is how Spring's registry resolves a non-null source.
- `GenericConversionService` is seen only through the registrations made on it. `canConvert` delegates to the service and is left out. In `ToWrapper`, the service's `convert` is a function parameter.
- `QueryExecutionConverters` is not part of this model. Its `supports`, `supportsUnwrapping` and `unwrapWrapperTypes` are fields of an input datatype.
- ResolvableType resolution, wildcards, arrays and type-variable binding are reduced to no type, a type variable with its bound, or a class with generic arguments. The component type is the first generic argument.
- Type parameters are declared only for the library classes the core names. A class known only by name (`Named`) declares none, so when it is used raw its `getGeneric(0)` is NONE rather than its own type variable. `getGeneric` of a parameter declared as a type variable is NONE as well.
- TypeInformation.getComponentType of a class used raw is taken as absent. TypeDiscoverer is not part of this model.
- Primitive types are in the type universe only as far as `Class.isAssignableFrom` goes: they are assignable only to themselves. The boxing that `ClassUtils.isAssignable` allows in `getFirst` is not modelled, because an object's class is never primitive.
- Parameter.DetectDynamicProjection: the comparison at Parameter.java:308 (`TypeInformation.equals`) is taken as equality of the type descriptors, so two distinct type variables are different even when both erase to the same class. TypeDiscoverer, which defines that equality, is not part of this model.
- UnwrapWrapperTypes: the IllegalStateException of `getRequiredComponentType` carries the placeholder message `MissingComponentType`. TypeInformation is not part of this model, so only the exception type is promised.
- `TypeInformation.fromReturnTypeOf`, parameter-name discovery and annotation lookup are inputs: the method's return type, the discovered name and the @Param value of `MethodParameter`.
- The domain type of `Parameter.DetectDynamicProjection` is class-backed type information (`ClassTypeInformation`). Other `TypeInformation` implementations are not part of this model.
- The caches (`ConcurrentLruCache` of ClassTypeInformation, `cache.get`) and the `Lazy` memoisation of the parameter name: only the values they produce are modelled.
- `Assert.notNull` checks cannot fail in the model, because every argument is a value.
- MapElements: its IllegalStateException message is only the fixed start "Cannot apply converter to ". The object's `toString()` that follows it is not modelled.
- Parameter.Parameter.GetRequiredName: the message embeds `MethodParameter.toString()` as the input string `display` rather than Spring's rendering of it.
- The descriptors' `map` for RxJava 3 and Mutiny and the Kotlin Flow conversion are tags only (`Mapped(descriptor, source, f)`). The continuation argument of `FlowKt.map` is not modelled.
- `FluentQuery`: the abstract members (`sortBy`, `as`, `project(Collection)`, `oneValue`, `firstValue`, `all`, `page`, `stream`, `count`, `exists`) are implementation-supplied functions. `as` changes the result type and is not modelled.
- `FluentQuery`: the base `FluentQuery` and `ReactiveFluentQuery` share the `limit` and varargs `project` defaults with `FetchableFluentQuery`. Only the fetchable form carries them as members.
- `FluentQuery`: the reactive `slice` (`page(pageable).map(identity)`) and the other reactive `Mono`/`Flux` result types are left out, because Reactor values are not modelled.
- `FluentQuery`: the IllegalArgumentException for a negative limit is an obligation of overriding implementations. The interface default throws UnsupportedOperationException first.
- The context files of the repository (web support, Querydsl, Kotlin bean info, AOT, tests) are not part of this model.
