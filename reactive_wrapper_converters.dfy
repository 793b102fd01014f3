/**
 * Reactive wrapper support: the ordered registry of wrapper descriptors built
 * from the libraries on the class path, first-match dispatch of `map`,
 * recursive unwrapping of wrapper types, `toWrapper`, the converters that get
 * registered, and the adapter-registry-backed converter factory.
 *
 * Library operators (Mono.map, Flux.from, FlowKt.map, ...) are not executed:
 * their results are tagged values recording which operator was applied to what.
 */
module ReactiveWrapperConverters {
  import opened Wrappers
  import opened JavaTypes

  // ---------------------------------------------------------------------------
  // Class-path capabilities
  // ---------------------------------------------------------------------------

  /** Which reactive libraries were found on the class path when the class was initialised. */
  datatype LibraryPresence = LibraryPresence(rxJava3: bool, projectReactor: bool, kotlinCoroutines: bool, mutiny: bool)

  datatype ReactiveLibrary = RxJava3 | ProjectReactor | KotlinCoroutines | Mutiny

  predicate IsPresent(presence: LibraryPresence, library: ReactiveLibrary) {
    match library
    case RxJava3 => presence.rxJava3
    case ProjectReactor => presence.projectReactor
    case KotlinCoroutines => presence.kotlinCoroutines
    case Mutiny => presence.mutiny
  }

  // ---------------------------------------------------------------------------
  // Wrapper descriptors
  // ---------------------------------------------------------------------------

  /** One descriptor per supported wrapper type (the enum singletons of ReactiveWrapperConverters). */
  datatype WrapperKind =
    | RxJava3SingleWrapper | RxJava3MaybeWrapper | RxJava3ObservableWrapper | RxJava3FlowableWrapper
    | FluxWrapper | MonoWrapper | PublisherWrapper
    | FlowWrapper
    | UniWrapper | MultiWrapper

  /** getWrapperClass() */
  function WrapperClass(k: WrapperKind): ClassId {
    match k
    case RxJava3SingleWrapper => Single
    case RxJava3MaybeWrapper => Maybe
    case RxJava3ObservableWrapper => Observable
    case RxJava3FlowableWrapper => Flowable
    case FluxWrapper => Flux
    case MonoWrapper => Mono
    case PublisherWrapper => Publisher
    case FlowWrapper => Flow
    case UniWrapper => Uni
    case MultiWrapper => Multi
  }

  /** The library whose presence decides whether the descriptor is registered. */
  function LibraryOf(k: WrapperKind): ReactiveLibrary {
    match k
    case RxJava3SingleWrapper | RxJava3MaybeWrapper | RxJava3ObservableWrapper | RxJava3FlowableWrapper => RxJava3
    case FluxWrapper | MonoWrapper | PublisherWrapper => ProjectReactor
    case FlowWrapper => KotlinCoroutines
    case UniWrapper | MultiWrapper => Mutiny
  }

  /** The position of each descriptor in the static initialiser. */
  function RegistrationRank(k: WrapperKind): nat {
    match k
    case RxJava3SingleWrapper => 0
    case RxJava3MaybeWrapper => 1
    case RxJava3ObservableWrapper => 2
    case RxJava3FlowableWrapper => 3
    case FluxWrapper => 4
    case MonoWrapper => 5
    case PublisherWrapper => 6
    case FlowWrapper => 7
    case UniWrapper => 8
    case MultiWrapper => 9
  }

  /** The descriptors each library contributes, in the order the static initialiser adds them. */
  function Group(library: ReactiveLibrary): seq<WrapperKind> {
    match library
    case RxJava3 => [RxJava3SingleWrapper, RxJava3MaybeWrapper, RxJava3ObservableWrapper, RxJava3FlowableWrapper]
    case ProjectReactor => [FluxWrapper, MonoWrapper, PublisherWrapper]
    case KotlinCoroutines => [FlowWrapper]
    case Mutiny => [UniWrapper, MultiWrapper]
  }

  /** The group of a library when it is present, nothing otherwise. */
  function GroupIfPresent(presence: LibraryPresence, library: ReactiveLibrary): seq<WrapperKind> {
    if IsPresent(presence, library) then Group(library) else []
  }

  /** The descriptor list the static initialiser builds: each library's group, in order, when the library is present. */
  function WrapperOrder(presence: LibraryPresence): seq<WrapperKind> {
    GroupIfPresent(presence, RxJava3) + GroupIfPresent(presence, ProjectReactor)
    + GroupIfPresent(presence, KotlinCoroutines) + GroupIfPresent(presence, Mutiny)
  }

  /** A list in strictly increasing registration rank: the initialiser's order, with no descriptor twice. */
  ghost predicate InRegistrationOrder(ws: seq<WrapperKind>) {
    forall i, j | 0 <= i < j < |ws| :: RegistrationRank(ws[i]) < RegistrationRank(ws[j])
  }

  /** A descriptor is registered iff its library is present. */
  lemma WrapperOrderContents(presence: LibraryPresence, k: WrapperKind)
    ensures k in WrapperOrder(presence) <==> IsPresent(presence, LibraryOf(k))
  {
  }

  /** The descriptor list keeps the initialiser's order and holds no descriptor twice. */
  lemma WrapperOrderIsRegistrationOrder(presence: LibraryPresence)
    ensures InRegistrationOrder(WrapperOrder(presence))
  {
    var rx := GroupIfPresent(presence, RxJava3);
    var reactor := GroupIfPresent(presence, ProjectReactor);
    var flow := GroupIfPresent(presence, KotlinCoroutines);
    var mutiny := GroupIfPresent(presence, Mutiny);
    GroupRanks(presence, RxJava3, 0, 4);
    GroupRanks(presence, ProjectReactor, 4, 7);
    GroupRanks(presence, KotlinCoroutines, 7, 8);
    GroupRanks(presence, Mutiny, 8, 10);
    ConcatInOrder(rx, reactor, 4, 7);
    ConcatInOrder(rx + reactor, flow, 7, 8);
    ConcatInOrder(rx + reactor + flow, mutiny, 8, 10);
  }

  /** Each group is in order and occupies its own band of ranks. */
  lemma GroupRanks(presence: LibraryPresence, library: ReactiveLibrary, lo: nat, hi: nat)
    requires (library, lo, hi) in {(RxJava3, 0, 4), (ProjectReactor, 4, 7), (KotlinCoroutines, 7, 8), (Mutiny, 8, 10)}
    ensures InRegistrationOrder(GroupIfPresent(presence, library))
    ensures forall k | k in GroupIfPresent(presence, library) :: lo <= RegistrationRank(k) < hi
  {
  }

  /** Two lists in registration order, the first wholly ranked below the second, stay in order when joined. */
  lemma ConcatInOrder(a: seq<WrapperKind>, b: seq<WrapperKind>, split: nat, bound: nat)
    requires InRegistrationOrder(a) && InRegistrationOrder(b)
    requires forall k | k in a :: RegistrationRank(k) < split
    requires forall k | k in b :: split <= RegistrationRank(k) < bound
    ensures InRegistrationOrder(a + b)
  {
    forall i, j | 0 <= i < j < |a + b|
      ensures RegistrationRank((a + b)[i]) < RegistrationRank((a + b)[j])
    {
      if j < |a| {
      } else if i < |a| {
        assert (a + b)[i] in a && (a + b)[j] in b;
      } else {
        assert (a + b)[i] == b[i - |a|] && (a + b)[j] == b[j - |a|];
      }
    }
  }

  // ---------------------------------------------------------------------------
  // Reactive values
  // ---------------------------------------------------------------------------

  /** A java.util.function.Function<Object, Object>, known only by name. */
  datatype Fn = Fn(name: string)

  /** A reactive object: one handed in, or the tagged result of a library operator. */
  datatype Reactive =
    | Instance(cls: ClassId, id: nat)
    /** The map operator of the library behind descriptor `operator` (Mono.map, Flux.map, FlowKt.map, ...). */
    | Mapped(operator: WrapperKind, source: Reactive, f: Fn)
    /** Flux.from(source) */
    | FluxFrom(source: Reactive)
    /** Mono.from(source) */
    | MonoFrom(source: Reactive)
    /** ReactiveFlowKt.asFlow(source) */
    | AsFlow(source: Reactive)
    /** adapter.toPublisher(source) of the adapter for reactive type `adapter` */
    | AdapterToPublisher(adapter: ClassId, source: Reactive)
    /** adapter.fromPublisher(source) of the adapter for reactive type `adapter` */
    | AdapterFromPublisher(adapter: ClassId, source: Reactive)

  /** getClass(): a library operator returns an instance of its own wrapper type. */
  function RuntimeClass(o: Reactive): ClassId {
    match o
    case Instance(cls, _) => cls
    case Mapped(k, _, _) => WrapperClass(k)
    case FluxFrom(_) => Flux
    case MonoFrom(_) => Mono
    case AsFlow(_) => Flow
    case AdapterToPublisher(_, _) => Publisher
    case AdapterFromPublisher(adapter, _) => adapter
  }

  /** A descriptor matches an object when its wrapper class is assignable from the object's class. */
  predicate Accepts(h: Hierarchy, k: WrapperKind, cls: ClassId) {
    IsAssignable(h, WrapperClass(k), cls)
  }

  /**
   * getFirst: the position of the first descriptor, in list order, whose
   * wrapper class is assignable from `cls`; None when no descriptor is.
   */
  function GetFirst(ws: seq<WrapperKind>, h: Hierarchy, cls: ClassId): (r: Option<nat>)
    ensures r.Some? ==> r.value < |ws| && Accepts(h, ws[r.value], cls)
    ensures r.Some? ==> forall j | 0 <= j < r.value :: !Accepts(h, ws[j], cls)
    ensures r.None? <==> forall j | 0 <= j < |ws| :: !Accepts(h, ws[j], cls)
  {
    if |ws| == 0 then None
    else if Accepts(h, ws[0], cls) then Some(0)
    else
      match GetFirst(ws[1..], h, cls)
      case None => None
      case Some(i) => Some(i + 1)
  }

  /**
   * ReactiveTypeWrapper.map of descriptor `k`. Every descriptor casts the
   * object to its wrapper class; the Publisher descriptor hands Monos and
   * Fluxes to their own descriptors and lifts any other publisher with Flux.from.
   */
  function DescriptorMap(h: Hierarchy, k: WrapperKind, o: Reactive, f: Fn): (r: Reactive)
    requires Accepts(h, k, RuntimeClass(o))
    ensures r.Mapped? && r.f == f && r.operator != PublisherWrapper
    ensures k != PublisherWrapper ==> r == Mapped(k, o, f)
  {
    if k != PublisherWrapper then Mapped(k, o, f)
    else if IsAssignable(h, Mono, RuntimeClass(o)) then Mapped(MonoWrapper, o, f)
    else if IsAssignable(h, Flux, RuntimeClass(o)) then Mapped(FluxWrapper, o, f)
    else Mapped(FluxWrapper, FluxFrom(o), f)
  }

  /** PublisherWrapper.map: a Mono goes to the Mono mapping, a Flux to the Flux mapping, anything else through Flux.from first. */
  lemma PublisherWrapperDispatch(h: Hierarchy, o: Reactive, f: Fn)
    requires Accepts(h, PublisherWrapper, RuntimeClass(o))
    ensures IsAssignable(h, Mono, RuntimeClass(o)) ==> DescriptorMap(h, PublisherWrapper, o, f) == Mapped(MonoWrapper, o, f)
    ensures !IsAssignable(h, Mono, RuntimeClass(o)) && IsAssignable(h, Flux, RuntimeClass(o)) ==>
      DescriptorMap(h, PublisherWrapper, o, f) == Mapped(FluxWrapper, o, f)
    ensures !IsAssignable(h, Mono, RuntimeClass(o)) && !IsAssignable(h, Flux, RuntimeClass(o)) ==>
      DescriptorMap(h, PublisherWrapper, o, f) == Mapped(FluxWrapper, FluxFrom(o), f)
  {
  }

  /** The start of map's message; the rest is the object's toString(), which is not modelled. */
  const CannotApplyConverter := "Cannot apply converter to "

  /**
   * map: apply `f` inside the object through the first matching descriptor;
   * IllegalStateException when no registered descriptor matches.
   */
  function MapElements(ws: seq<WrapperKind>, h: Hierarchy, o: Reactive, f: Fn): (r: Result<Reactive>)
    ensures r.Failure? <==> forall k | k in ws :: !Accepts(h, k, RuntimeClass(o))
    ensures r.Failure? ==> r.error == IllegalStateException(CannotApplyConverter)
    ensures r.Success? ==> exists i | 0 <= i < |ws| ::
      && Accepts(h, ws[i], RuntimeClass(o))
      && (forall j | 0 <= j < i :: !Accepts(h, ws[j], RuntimeClass(o)))
      && r.value == DescriptorMap(h, ws[i], o, f)
  {
    match GetFirst(ws, h, RuntimeClass(o))
    case None => Failure(IllegalStateException(CannotApplyConverter))
    case Some(i) => Success(DescriptorMap(h, ws[i], o, f))
  }

  /**
   * The result of map is still an instance of the wrapper class of the
   * descriptor that was chosen, the first matching one.
   */
  lemma MapPreservesWrapperClass(ws: seq<WrapperKind>, h: Hierarchy, o: Reactive, f: Fn)
    requires ReactorTypesArePublishers(h)
    requires GetFirst(ws, h, RuntimeClass(o)).Some?
    ensures MapElements(ws, h, o, f).Success?
    ensures Accepts(h, ws[GetFirst(ws, h, RuntimeClass(o)).value], RuntimeClass(MapElements(ws, h, o, f).value))
  {
    var i := GetFirst(ws, h, RuntimeClass(o)).value;
    var k := ws[i];
    var r := DescriptorMap(h, k, o, f);
    assert MapElements(ws, h, o, f) == Success(r);
    if k == PublisherWrapper {
      assert r.operator == MonoWrapper || r.operator == FluxWrapper;
    }
  }

  /** GetFirst finds the least accepting position: an accepting descriptor with none accepting before it. */
  lemma GetFirstIsLeast(ws: seq<WrapperKind>, h: Hierarchy, cls: ClassId, i: nat)
    requires i < |ws| && Accepts(h, ws[i], cls)
    requires forall j | 0 <= j < i :: !Accepts(h, ws[j], cls)
    ensures GetFirst(ws, h, cls) == Some(i)
  {
  }

  /** The descriptor list with every library present. */
  const AllPresent := LibraryPresence(true, true, true, true)

  lemma AllPresentOrder()
    ensures WrapperOrder(AllPresent) == [RxJava3SingleWrapper, RxJava3MaybeWrapper, RxJava3ObservableWrapper, RxJava3FlowableWrapper,
                                        FluxWrapper, MonoWrapper, PublisherWrapper, FlowWrapper, UniWrapper, MultiWrapper]
  {
  }

  /** With every library present, a Flowable goes to the RxJava 3 Flowable descriptor although it is also a Publisher. */
  lemma FlowablePrefersRxJava3Descriptor(o: Reactive, f: Fn)
    requires RuntimeClass(o) == Flowable
    ensures GetFirst(WrapperOrder(AllPresent), StandardHierarchy, Flowable) == Some(3)
    ensures MapElements(WrapperOrder(AllPresent), StandardHierarchy, o, f) == Success(Mapped(RxJava3FlowableWrapper, o, f))
  {
    var ws := WrapperOrder(AllPresent);
    AllPresentOrder();
    assert Accepts(StandardHierarchy, ws[3], Flowable);
    assert forall j | 0 <= j < 3 :: !Accepts(StandardHierarchy, ws[j], Flowable);
    GetFirstIsLeast(ws, StandardHierarchy, Flowable, 3);
  }

  /** With every library present, a Mono is mapped by the Mono descriptor, ahead of the Publisher one. */
  lemma MonoMapsThroughMonoDescriptor(mono: Reactive, f: Fn)
    requires RuntimeClass(mono) == Mono
    ensures MapElements(WrapperOrder(AllPresent), StandardHierarchy, mono, f) == Success(Mapped(MonoWrapper, mono, f))
  {
    var ws := WrapperOrder(AllPresent);
    AllPresentOrder();
    assert Accepts(StandardHierarchy, ws[5], Mono);
    assert forall j | 0 <= j < 5 :: !Accepts(StandardHierarchy, ws[j], Mono);
    GetFirstIsLeast(ws, StandardHierarchy, Mono, 5);
  }

  /** With every library present, a plain Publisher reaches the Publisher descriptor and is lifted with Flux.from. */
  lemma PublisherMapsThroughFluxFrom(publisher: Reactive, f: Fn)
    requires RuntimeClass(publisher) == Publisher
    ensures MapElements(WrapperOrder(AllPresent), StandardHierarchy, publisher, f) == Success(Mapped(FluxWrapper, FluxFrom(publisher), f))
  {
    var ws := WrapperOrder(AllPresent);
    AllPresentOrder();
    assert Accepts(StandardHierarchy, ws[6], Publisher);
    assert forall j | 0 <= j < 6 :: !Accepts(StandardHierarchy, ws[j], Publisher);
    GetFirstIsLeast(ws, StandardHierarchy, Publisher, 6);
    assert !IsAssignable(StandardHierarchy, Mono, Publisher) && !IsAssignable(StandardHierarchy, Flux, Publisher);
    PublisherWrapperDispatch(StandardHierarchy, publisher, f);
  }

  /** Without Project Reactor a Mono matches no descriptor, so map fails. */
  lemma NoReactorNoMonoMapping(mono: Reactive, f: Fn)
    requires RuntimeClass(mono) == Mono
    ensures MapElements(WrapperOrder(LibraryPresence(true, false, true, true)), StandardHierarchy, mono, f)
      == Failure(IllegalStateException(CannotApplyConverter))
  {
    var ws := WrapperOrder(LibraryPresence(true, false, true, true));
    assert ws == [RxJava3SingleWrapper, RxJava3MaybeWrapper, RxJava3ObservableWrapper, RxJava3FlowableWrapper,
                  FlowWrapper, UniWrapper, MultiWrapper];
    assert forall k | k in ws :: !Accepts(StandardHierarchy, k, Mono);
  }

  // ---------------------------------------------------------------------------
  // The adapter registry and its holder
  // ---------------------------------------------------------------------------

  /**
   * Spring's ReactiveAdapterRegistry, as a lookup from a reactive type to the
   * reactive type of the adapter it finds (None: getAdapter returns null).
   */
  datatype AdapterRegistry = AdapterRegistry(getAdapter: ClassId -> Option<ClassId>)

  /** RegistryHolder.REACTIVE_ADAPTER_REGISTRY: the shared registry with Project Reactor present, null without. */
  function RegistryHolderInit(projectReactorPresent: bool, shared: AdapterRegistry): (r: Option<AdapterRegistry>)
    ensures r.Some? <==> projectReactorPresent
    ensures r.Some? ==> r.value == shared
  {
    if projectReactorPresent then Some(shared) else None
  }

  /** supports: the registry is there and has an adapter for the type. */
  predicate Supports(registry: Option<AdapterRegistry>, t: ClassId) {
    registry.Some? && registry.value.getAdapter(t).Some?
  }

  /** Without Project Reactor there is no registry, so no type is supported. */
  lemma NothingSupportedWithoutReactor(shared: AdapterRegistry, t: ClassId)
    ensures !Supports(RegistryHolderInit(false, shared), t)
  {
  }

  const RegistryNotAvailable := "ReactiveAdapterRegistry not available. Make sure to have Project Reactor on your classpath!"
  function CannotConvertToPublisher(reactiveType: ClassId, sourceClass: ClassId): string {
    "Cannot convert Reactive Type '" + ClassName(reactiveType) + "' (" + ClassName(sourceClass) + ") to Publisher"
  }

  function NoAdapterRegistered(reactiveType: ClassId): string {
    "No ReactiveAdapter for '" + ClassName(reactiveType) + "' conversion registered."
  }

  /** RegistryHolder.getReactiveAdapterRegistry: IllegalStateException when the registry is null. */
  function GetReactiveAdapterRegistry(registry: Option<AdapterRegistry>): (r: Result<AdapterRegistry>)
    ensures r.Failure? <==> registry.None?
    ensures r.Failure? ==> r.error == IllegalStateException(RegistryNotAvailable)
    ensures r.Success? ==> r.value == registry.value
  {
    match registry
    case None => Failure(IllegalStateException(RegistryNotAvailable))
    case Some(reg) => Success(reg)
  }

  /**
   * RegistryHolder.getAdapter(reactiveType, source): the registry looks the
   * adapter up by the class of the source; IllegalArgumentException when it has none.
   */
  function GetAdapterForSource(registry: Option<AdapterRegistry>, reactiveType: ClassId, source: Reactive): (r: Result<ClassId>)
    ensures registry.None? ==> r == Failure(IllegalStateException(RegistryNotAvailable))
    ensures registry.Some? && registry.value.getAdapter(RuntimeClass(source)).None? ==>
      r == Failure(IllegalArgumentException(CannotConvertToPublisher(reactiveType, RuntimeClass(source))))
    ensures r.Success? <==> Supports(registry, RuntimeClass(source))
    ensures r.Success? ==> r.value == registry.value.getAdapter(RuntimeClass(source)).value
  {
    var reg :- GetReactiveAdapterRegistry(registry);
    match reg.getAdapter(RuntimeClass(source))
    case None => Failure(IllegalArgumentException(CannotConvertToPublisher(reactiveType, RuntimeClass(source))))
    case Some(a) => Success(a)
  }

  /** RegistryHolder.getAdapter(reactiveType): IllegalArgumentException when no adapter is registered for the type. */
  function GetAdapter(registry: Option<AdapterRegistry>, reactiveType: ClassId): (r: Result<ClassId>)
    ensures registry.None? ==> r == Failure(IllegalStateException(RegistryNotAvailable))
    ensures registry.Some? && !Supports(registry, reactiveType) ==> r == Failure(IllegalArgumentException(NoAdapterRegistered(reactiveType)))
    ensures r.Success? <==> Supports(registry, reactiveType)
    ensures r.Success? ==> r.value == registry.value.getAdapter(reactiveType).value
  {
    var reg :- GetReactiveAdapterRegistry(registry);
    match reg.getAdapter(reactiveType)
    case None => Failure(IllegalArgumentException(NoAdapterRegistered(reactiveType)))
    case Some(a) => Success(a)
  }

  // ---------------------------------------------------------------------------
  // Unwrapping
  // ---------------------------------------------------------------------------

  /**
   * `u` is `t`, or is reached from `t` by taking component types through
   * layers whose raw type the registry supports: every layer strictly above
   * `u` is a supported wrapper.
   */
  ghost predicate ReachedThroughSupported(registry: Option<AdapterRegistry>, u: ResolvableType, t: ResolvableType)
    decreases t
  {
    u == t || (Supports(registry, RawType(t)) && ComponentType(t).Some? && ReachedThroughSupported(registry, u, t.generics[0]))
  }

  /** The supported layers starting at `t` run out at a supported type that has no component type. */
  ghost predicate EndsInBareWrapper(registry: Option<AdapterRegistry>, t: ResolvableType)
    decreases t
  {
    Supports(registry, RawType(t)) && (ComponentType(t).None? || EndsInBareWrapper(registry, t.generics[0]))
  }

  /**
   * Stands for the message of TypeInformation.getRequiredComponentType, which
   * is not part of this model; only the exception type is promised.
   */
  const MissingComponentType := "Can't resolve required component type"

  /**
   * unwrapWrapperTypes: a supported wrapper type is replaced by its component
   * type, again and again, until the raw type is not supported; a supported
   * type without a component type raises IllegalStateException
   * (getRequiredComponentType). The result is the first unsupported layer.
   */
  function UnwrapWrapperTypes(registry: Option<AdapterRegistry>, t: ResolvableType): (r: Result<ResolvableType>)
    ensures !Supports(registry, RawType(t)) ==> r == Success(t)
    ensures r.Success? ==> !Supports(registry, RawType(r.value)) && ReachedThroughSupported(registry, r.value, t)
    ensures r.Failure? <==> EndsInBareWrapper(registry, t)
    ensures r.Failure? ==> r.error == IllegalStateException(MissingComponentType)
    decreases t
  {
    if !Supports(registry, RawType(t)) then Success(t)
    else
      match ComponentType(t)
      case None => Failure(IllegalStateException(MissingComponentType))
      case Some(c) => UnwrapWrapperTypes(registry, c)
  }

  /** Unwrapping is idempotent: a second pass returns the first pass's result. */
  lemma UnwrapIsIdempotent(registry: Option<AdapterRegistry>, t: ResolvableType)
    requires UnwrapWrapperTypes(registry, t).Success?
    ensures UnwrapWrapperTypes(registry, UnwrapWrapperTypes(registry, t).value) == UnwrapWrapperTypes(registry, t)
  {
  }

  /**
   * Any unsupported type reached through supported layers only is the result:
   * unwrapping stops at the first unsupported layer and at no other.
   */
  lemma {:induction false} UnwrapStopsAtFirstUnsupported(registry: Option<AdapterRegistry>, u: ResolvableType, t: ResolvableType)
    requires ReachedThroughSupported(registry, u, t)
    requires !Supports(registry, RawType(u))
    ensures UnwrapWrapperTypes(registry, t) == Success(u)
    decreases t
  {
    if u != t {
      UnwrapStopsAtFirstUnsupported(registry, u, t.generics[0]);
    }
  }

  /** The adapters of a registry over the standard hierarchy: Mono, Flux, Flowable and Publisher. */
  function StandardAdapter(c: ClassId): Option<ClassId> {
    match c
    case Mono | Flux | Flowable | Publisher => Some(c)
    case _ => None
  }

  const StandardRegistry := Some(AdapterRegistry(StandardAdapter))

  /** Mono<Flux<User>> unwraps to User; a raw Mono with no type argument is an error. */
  lemma NestedWrappersUnwrapToInnermost()
    ensures UnwrapWrapperTypes(StandardRegistry,
      ClassType(Mono, [ClassType(Flux, [ClassType(Named("User"), [])])])) == Success(ClassType(Named("User"), []))
    ensures UnwrapWrapperTypes(StandardRegistry, ClassType(Mono, [])).Failure?
  {
    var user := ClassType(Named("User"), []);
    var flux := ClassType(Flux, [user]);
    var mono := ClassType(Mono, [flux]);
    assert !Supports(StandardRegistry, RawType(user));
    assert UnwrapWrapperTypes(StandardRegistry, user) == Success(user);
    assert Supports(StandardRegistry, RawType(flux)) && ComponentType(flux) == Some(user);
    assert UnwrapWrapperTypes(StandardRegistry, flux) == Success(user);
    assert Supports(StandardRegistry, RawType(mono)) && ComponentType(mono) == Some(flux);
    assert Supports(StandardRegistry, RawType(ClassType(Mono, []))) && ComponentType(ClassType(Mono, [])).None?;
  }

  // ---------------------------------------------------------------------------
  // toWrapper
  // ---------------------------------------------------------------------------

  const WaitWhat := "Wait, what?"

  /**
   * toWrapper: the object itself when the target type is assignable from its
   * class; otherwise what the conversion service produces (`convert`, whose
   * own exceptions pass through), with IllegalStateException for a null result.
   */
  function ToWrapper(h: Hierarchy, o: Reactive, target: ClassId, convert: (Reactive, ClassId) -> Result<Option<Reactive>>): (r: Result<Reactive>)
    ensures IsAssignable(h, target, RuntimeClass(o)) ==> r == Success(o)
    ensures !IsAssignable(h, target, RuntimeClass(o)) ==>
      match convert(o, target)
      case Failure(e) => r == Failure(e)
      case Success(None) => r == Failure(IllegalStateException(WaitWhat))
      case Success(Some(v)) => r == Success(v)
  {
    if IsAssignable(h, target, RuntimeClass(o)) then Success(o)
    else
      var converted :- convert(o, target);
      match converted
      case None => Failure(IllegalStateException(WaitWhat))
      case Some(v) => Success(v)
  }

  /**
   * Converting an object to its own class, or to Object, never calls the
   * conversion service (an object's class is a reference type, never a primitive).
   */
  lemma ToWrapperIdentity(h: Hierarchy, o: Reactive, convert: (Reactive, ClassId) -> Result<Option<Reactive>>)
    ensures ToWrapper(h, o, RuntimeClass(o), convert) == Success(o)
    ensures !RuntimeClass(o).Primitive? ==> ToWrapper(h, o, Object, convert) == Success(o)
  {
  }

  // ---------------------------------------------------------------------------
  // Converters and their registration
  // ---------------------------------------------------------------------------

  datatype Converter = PublisherToMonoConverter | PublisherToFluxConverter | PublisherToFlowConverter

  datatype ConverterFactory = ReactiveAdapterConverterFactory

  /** One addConverter or addConverterFactory call on the conversion service. */
  datatype Registration = ConverterRegistration(converter: Converter) | FactoryRegistration(factory: ConverterFactory)

  /** Converter.convert of each converter. */
  function ApplyConverter(c: Converter, source: Reactive): (r: Reactive)
    ensures !r.Instance? && r.source == source
    ensures c == PublisherToMonoConverter ==> r.MonoFrom?
    ensures c == PublisherToFluxConverter ==> r.FluxFrom?
    ensures c == PublisherToFlowConverter ==> r.AsFlow?
    ensures RuntimeClass(r) == match c
      case PublisherToMonoConverter => Mono
      case PublisherToFluxConverter => Flux
      case PublisherToFlowConverter => Flow
  {
    match c
    case PublisherToMonoConverter => MonoFrom(source)
    case PublisherToFluxConverter => FluxFrom(source)
    case PublisherToFlowConverter => AsFlow(source)
  }

  /** What registerConvertersIn adds, in order. */
  function RegisteredConverters(presence: LibraryPresence, registry: Option<AdapterRegistry>): seq<Registration> {
    if presence.projectReactor then
      [ConverterRegistration(PublisherToMonoConverter), ConverterRegistration(PublisherToFluxConverter)]
      + (if presence.kotlinCoroutines then [ConverterRegistration(PublisherToFlowConverter)] else [])
      + (if registry.Some? then [FactoryRegistration(ReactiveAdapterConverterFactory)] else [])
    else []
  }

  /** Publisher to Mono and to Flux need Reactor; to Flow needs coroutines as well; the factory needs a registry. */
  lemma RegistrationConditions(presence: LibraryPresence, registry: Option<AdapterRegistry>)
    ensures ConverterRegistration(PublisherToMonoConverter) in RegisteredConverters(presence, registry) <==> presence.projectReactor
    ensures ConverterRegistration(PublisherToFluxConverter) in RegisteredConverters(presence, registry) <==> presence.projectReactor
    ensures ConverterRegistration(PublisherToFlowConverter) in RegisteredConverters(presence, registry)
      <==> presence.projectReactor && presence.kotlinCoroutines
    ensures FactoryRegistration(ReactiveAdapterConverterFactory) in RegisteredConverters(presence, registry)
      <==> presence.projectReactor && registry.Some?
  {
  }

  /** ReactiveAdapterConverterFactory.matches: the source or the target type is supported by the registry. */
  predicate FactoryMatches(registry: Option<AdapterRegistry>, sourceType: ClassId, targetType: ClassId) {
    Supports(registry, sourceType) || Supports(registry, targetType)
  }


  /**
   * The converter getConverter(targetType) returns, applied to `source`:
   * a Publisher is used as it is, anything else is first turned into one by
   * its own adapter; then the target type's adapter converts from the publisher.
   */
  function FactoryConvert(h: Hierarchy, registry: Option<AdapterRegistry>, source: Reactive, targetType: ClassId): (r: Result<Reactive>)
    ensures r.Success? ==> Supports(registry, targetType)
    ensures r.Success? ==> RuntimeClass(r.value) == registry.value.getAdapter(targetType).value
    ensures r.Success? && IsAssignable(h, Publisher, RuntimeClass(source)) ==>
      r.value == AdapterFromPublisher(registry.value.getAdapter(targetType).value, source)
    ensures r.Success? && !IsAssignable(h, Publisher, RuntimeClass(source)) ==>
      Supports(registry, RuntimeClass(source)) &&
      r.value == AdapterFromPublisher(registry.value.getAdapter(targetType).value,
                                      AdapterToPublisher(registry.value.getAdapter(RuntimeClass(source)).value, source))
  {
    var publisher :- if IsAssignable(h, Publisher, RuntimeClass(source)) then Success(source)
                     else
                       var a :- GetAdapterForSource(registry, Publisher, source);
                       Success(AdapterToPublisher(a, source));
    var adapter :- GetAdapter(registry, targetType);
    Success(AdapterFromPublisher(adapter, publisher))
  }

  /**
   * The conversion service only uses the factory where it matches: every
   * successful conversion is of a matching pair. A match on the source alone
   * is not enough, because the target type's adapter is still needed.
   */
  lemma FactoryMatchRule(h: Hierarchy, registry: Option<AdapterRegistry>, source: Reactive, targetType: ClassId)
    ensures FactoryConvert(h, registry, source, targetType).Success? ==> FactoryMatches(registry, RuntimeClass(source), targetType)
    ensures Supports(registry, RuntimeClass(source)) && !Supports(registry, targetType) ==>
      && FactoryMatches(registry, RuntimeClass(source), targetType)
      && FactoryConvert(h, registry, source, targetType) == Failure(IllegalArgumentException(NoAdapterRegistered(targetType)))
    ensures !FactoryMatches(registry, RuntimeClass(source), targetType) ==> FactoryConvert(h, registry, source, targetType).Failure?
  {
  }

  /** The factory's converter fails exactly when an adapter it needs is missing. */
  lemma FactoryConvertFailures(h: Hierarchy, registry: Option<AdapterRegistry>, source: Reactive, targetType: ClassId)
    ensures registry.None? ==> FactoryConvert(h, registry, source, targetType) == Failure(IllegalStateException(RegistryNotAvailable))
    ensures registry.Some? && !IsAssignable(h, Publisher, RuntimeClass(source)) && !Supports(registry, RuntimeClass(source)) ==>
      FactoryConvert(h, registry, source, targetType)
        == Failure(IllegalArgumentException(CannotConvertToPublisher(Publisher, RuntimeClass(source))))
    ensures FactoryConvert(h, registry, source, targetType).Failure? <==>
      !Supports(registry, targetType) || (!IsAssignable(h, Publisher, RuntimeClass(source)) && !Supports(registry, RuntimeClass(source)))
  {
  }

  // ---------------------------------------------------------------------------
  // The class-initialisation state
  // ---------------------------------------------------------------------------

  /** A ConfigurableConversionService, seen through the registrations made on it. */
  class ConversionService {
    var registrations: seq<Registration>

    constructor ()
      ensures registrations == []
    {
      registrations := [];
    }

    method AddConverter(c: Converter)
      modifies this
      ensures registrations == old(registrations) + [ConverterRegistration(c)]
    {
      registrations := registrations + [ConverterRegistration(c)];
    }

    method AddConverterFactory(f: ConverterFactory)
      modifies this
      ensures registrations == old(registrations) + [FactoryRegistration(f)]
    {
      registrations := registrations + [FactoryRegistration(f)];
    }
  }

  /**
   * The static state of ReactiveWrapperConverters: the presence flags, the
   * registry holder, the REACTIVE_WRAPPERS list and the conversion service,
   * as the static initialiser leaves them.
   */
  class StaticState {
    const presence: LibraryPresence
    const registry: Option<AdapterRegistry>
    var reactiveWrappers: seq<WrapperKind>
    const conversionService: ConversionService

    /** The static initialiser: descriptors appended group by group, then registerConvertersIn. */
    constructor (presence: LibraryPresence, sharedRegistry: AdapterRegistry)
      ensures this.presence == presence
      ensures registry == RegistryHolderInit(presence.projectReactor, sharedRegistry)
      ensures reactiveWrappers == WrapperOrder(presence)
      ensures fresh(conversionService)
      ensures conversionService.registrations == RegisteredConverters(presence, registry)
    {
      this.presence := presence;
      registry := RegistryHolderInit(presence.projectReactor, sharedRegistry);
      reactiveWrappers := [];
      conversionService := new ConversionService();
      new;
      if presence.rxJava3 {
        AddWrapper(RxJava3SingleWrapper);
        AddWrapper(RxJava3MaybeWrapper);
        AddWrapper(RxJava3ObservableWrapper);
        AddWrapper(RxJava3FlowableWrapper);
      }
      assert reactiveWrappers == GroupIfPresent(presence, RxJava3);
      if presence.projectReactor {
        AddWrapper(FluxWrapper);
        AddWrapper(MonoWrapper);
        AddWrapper(PublisherWrapper);
      }
      assert reactiveWrappers == GroupIfPresent(presence, RxJava3) + GroupIfPresent(presence, ProjectReactor);
      if presence.kotlinCoroutines {
        AddWrapper(FlowWrapper);
      }
      assert reactiveWrappers == GroupIfPresent(presence, RxJava3) + GroupIfPresent(presence, ProjectReactor)
        + GroupIfPresent(presence, KotlinCoroutines);
      if presence.mutiny {
        AddWrapper(UniWrapper);
        AddWrapper(MultiWrapper);
      }
      assert reactiveWrappers == WrapperOrder(presence);
      RegisterConvertersIn(conversionService);
    }

    /** REACTIVE_WRAPPERS.add */
    method AddWrapper(k: WrapperKind)
      modifies this
      ensures reactiveWrappers == old(reactiveWrappers) + [k]
    {
      reactiveWrappers := reactiveWrappers + [k];
    }

    /** registerConvertersIn: the converters the present libraries allow, appended in order. */
    method RegisterConvertersIn(service: ConversionService)
      modifies service
      ensures service.registrations == old(service.registrations) + RegisteredConverters(presence, registry)
    {
      if presence.projectReactor {
        service.AddConverter(PublisherToMonoConverter);
        service.AddConverter(PublisherToFluxConverter);
        if presence.kotlinCoroutines {
          service.AddConverter(PublisherToFlowConverter);
        }
        if registry.Some? {
          service.AddConverterFactory(ReactiveAdapterConverterFactory);
        }
      }
    }

  }
}
