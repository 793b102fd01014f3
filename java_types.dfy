/**
 * The abstract type universe the core works over: class identifiers, the
 * JVM's assignability relation between them, and generic type descriptors
 * in the shape of Spring's ResolvableType.
 */
module JavaTypes {
  import opened Wrappers

  /** The classes the core refers to by name; every other class is Named by its fully qualified name. */
  datatype ClassId =
    | Object | Class | Collection | List | Set | Map
    | ScrollPosition | Pageable | PageRequest | Sort | Limit | Continuation
    | Vector | Score | Range
    | Publisher | Flux | Mono | Flow
    | Single | Maybe | Observable | Flowable
    | Uni | Multi
    | Named(name: string)
    /** A primitive type such as int or boolean, by its keyword. */
    | Primitive(keyword: string)

  /** Class.getName() */
  function ClassName(c: ClassId): string {
    match c
    case Object => "java.lang.Object"
    case Class => "java.lang.Class"
    case Collection => "java.util.Collection"
    case List => "java.util.List"
    case Set => "java.util.Set"
    case Map => "java.util.Map"
    case ScrollPosition => "org.springframework.data.domain.ScrollPosition"
    case Pageable => "org.springframework.data.domain.Pageable"
    case PageRequest => "org.springframework.data.domain.PageRequest"
    case Sort => "org.springframework.data.domain.Sort"
    case Limit => "org.springframework.data.domain.Limit"
    case Continuation => "kotlin.coroutines.Continuation"
    case Vector => "org.springframework.data.domain.Vector"
    case Score => "org.springframework.data.domain.Score"
    case Range => "org.springframework.data.domain.Range"
    case Publisher => "org.reactivestreams.Publisher"
    case Flux => "reactor.core.publisher.Flux"
    case Mono => "reactor.core.publisher.Mono"
    case Flow => "kotlinx.coroutines.flow.Flow"
    case Single => "io.reactivex.rxjava3.core.Single"
    case Maybe => "io.reactivex.rxjava3.core.Maybe"
    case Observable => "io.reactivex.rxjava3.core.Observable"
    case Flowable => "io.reactivex.rxjava3.core.Flowable"
    case Uni => "io.smallrye.mutiny.Uni"
    case Multi => "io.smallrye.mutiny.Multi"
    case Named(n) => n
    case Primitive(k) => k
  }

  /**
   * The class hierarchy of the running JVM: for each class, the set of all its
   * proper supertypes (superclasses and interfaces, transitively).
   */
  type Hierarchy = ClassId -> set<ClassId>

  /**
   * Class.isAssignableFrom: `sup` is `sub`, or one of the supertypes of `sub`,
   * or Object when `sub` is a reference type (a primitive is assignable only to itself).
   */
  predicate IsAssignable(h: Hierarchy, sup: ClassId, sub: ClassId) {
    sup == sub || (sup == Object && !sub.Primitive?) || sup in h(sub)
  }

  /**
   * A hierarchy whose supertype sets are closed, as the JVM's are, in which
   * Object is the top of the reference types and primitives have no supertypes.
   */
  ghost predicate WellFormed(h: Hierarchy) {
    && h(Object) == {}
    && (forall c: ClassId | c.Primitive? :: h(c) == {})
    && (forall a, b | b in h(a) :: h(b) <= h(a))
  }

  /** Assignability is transitive in a well-formed hierarchy. */
  lemma AssignableTransitive(h: Hierarchy, a: ClassId, b: ClassId, c: ClassId)
    requires WellFormed(h)
    requires IsAssignable(h, a, b) && IsAssignable(h, b, c)
    ensures IsAssignable(h, a, c)
  {
    if a != b && b != c {
      assert b in h(c) && h(b) <= h(c);
      assert !c.Primitive?;
    }
  }

  /** The part of the JVM hierarchy the reactive wrappers rely on: Project Reactor's types are publishers. */
  predicate ReactorTypesArePublishers(h: Hierarchy) {
    IsAssignable(h, Publisher, Mono) && IsAssignable(h, Publisher, Flux)
  }

  /** The library hierarchy as the JVM loads it: Mono, Flux and Flowable implement Publisher, PageRequest implements Pageable. */
  function StandardSupertypes(c: ClassId): set<ClassId> {
    match c
    case Mono | Flux | Flowable => {Publisher}
    case PageRequest => {Pageable, Named("org.springframework.data.domain.AbstractPageRequest")}
    case List | Set => {Collection}
    case _ => {}
  }

  const StandardHierarchy: Hierarchy := StandardSupertypes

  lemma StandardHierarchyIsWellFormed()
    ensures WellFormed(StandardHierarchy)
    ensures ReactorTypesArePublishers(StandardHierarchy)
  {
  }

  /**
   * A Java type as Spring's ResolvableType describes it: no type at all
   * (ResolvableType.NONE), a type variable with the class its bound erases to,
   * or a class with its generic arguments.
   */
  datatype ResolvableType =
    | NoType
    | Variable(name: string, bound: ClassId)
    | ClassType(raw: ClassId, generics: seq<ResolvableType>)

  /** ResolvableType.resolve(fallback): the class the type erases to, or `fallback` when there is none. */
  function Resolve(t: ResolvableType, fallback: ClassId): (c: ClassId)
    ensures t.NoType? ==> c == fallback
    ensures t.Variable? ==> c == t.bound
    ensures t.ClassType? ==> c == t.raw
  {
    match t
    case NoType => fallback
    case Variable(_, bound) => bound
    case ClassType(raw, _) => raw
  }

  /** TypeInformation.getType(): the erased class, Object when the type cannot be resolved. */
  function RawType(t: ResolvableType): ClassId {
    Resolve(t, Object)
  }

  /**
   * The type variables a class declares, each with the class its bound erases
   * to. Classes known only by name declare none in this model.
   */
  function DeclaredTypeParameters(c: ClassId): (ps: seq<ResolvableType>)
    ensures forall i | 0 <= i < |ps| :: ps[i].Variable? && ps[i].bound == Object
  {
    match c
    case Collection | List | Set => [Variable("E", Object)]
    case Map => [Variable("K", Object), Variable("V", Object)]
    case Class | Range | Continuation | Publisher | Flux | Mono | Flow
       | Single | Maybe | Observable | Flowable | Uni | Multi => [Variable("T", Object)]
    case _ => []
  }

  /** ResolvableType.getGenerics(): the type arguments, or for a class used raw, the type variables it declares. */
  function Generics(t: ResolvableType): seq<ResolvableType> {
    match t
    case ClassType(raw, generics) => if |generics| > 0 then generics else DeclaredTypeParameters(raw)
    case _ => []
  }

  /** ResolvableType.getGeneric(i): the i-th of the generics, or NONE when there is no i-th. */
  function GetGeneric(t: ResolvableType, i: nat): (g: ResolvableType)
    ensures t.ClassType? && i < |t.generics| ==> g == t.generics[i]
    ensures t.ClassType? && t.generics == [] && i < |DeclaredTypeParameters(t.raw)| ==> g == DeclaredTypeParameters(t.raw)[i]
    ensures t.ClassType? && t.generics == [] ==> Resolve(g, Object) == Object
    ensures i >= |Generics(t)| ==> g == NoType
  {
    if i < |Generics(t)| then Generics(t)[i] else NoType
  }

  /** TypeInformation.getComponentType(): the first generic argument, absent when there is none. */
  function ComponentType(t: ResolvableType): (r: Option<ResolvableType>)
    ensures r.Some? <==> t.ClassType? && |t.generics| > 0
    ensures r.Some? ==> r.value == t.generics[0]
  {
    if t.ClassType? && |t.generics| > 0 then Some(t.generics[0]) else None
  }

  /** ResolvableType.isAssignableFrom(Class): NONE accepts nothing; a variable accepts what its bound accepts. */
  predicate IsAssignableFromClass(h: Hierarchy, t: ResolvableType, c: ClassId) {
    match t
    case NoType => false
    case Variable(_, bound) => IsAssignable(h, bound, c)
    case ClassType(raw, _) => IsAssignable(h, raw, c)
  }

  /** ResolvableType.forClass(c) for a class used without type arguments. */
  function ForClass(c: ClassId): (t: ResolvableType)
    ensures RawType(t) == c && ComponentType(t).None?
  {
    ClassType(c, [])
  }
}
