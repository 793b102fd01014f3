/**
 * TypeInformation for a plain class: the stored type is the class the
 * ResolvableType resolves to, and assignability compares raw classes only.
 */
module ClassTypeInformation {
  import opened Wrappers
  import opened JavaTypes

  datatype ClassTypeInformation = ClassTypeInformation(resolvableType: ResolvableType, storedType: ClassId) {

    /** The stored type is what the constructor computes from the ResolvableType. */
    ghost predicate Valid() {
      storedType == Resolve(resolvableType, Object)
    }

    function GetType(): ClassId {
      storedType
    }

    /** A class-backed type information is its own raw view. */
    function GetRawTypeInformation(): ClassTypeInformation {
      this
    }

    /** Assignable iff the stored class is assignable from the target's raw type; generic arguments play no part. */
    predicate IsAssignableFrom(h: Hierarchy, target: ResolvableType) {
      IsAssignable(h, storedType, RawType(target))
    }

    /** Nothing to specialise for a plain class: the argument comes back unchanged. */
    function Specialize(t: ResolvableType): ResolvableType {
      t
    }

    function ToString(): string {
      ClassName(storedType)
    }
  }

  /** The constructor: the stored type is the resolved class, Object when the type does not resolve. */
  function New(t: ResolvableType): (r: ClassTypeInformation)
    ensures r.Valid() && r.resolvableType == t
    ensures t.ClassType? ==> r.GetType() == t.raw
    ensures t.Variable? ==> r.GetType() == t.bound
    ensures t.NoType? ==> r.GetType() == Object
  {
    ClassTypeInformation(t, Resolve(t, Object))
  }

  /** from(ResolvableType): a null type (None) is rejected; otherwise the type information for it (the cache is left out). */
  function From(t: Option<ResolvableType>): (r: Result<ClassTypeInformation>)
    ensures t.None? <==> r.Failure?
    ensures r.Failure? ==> r.error == IllegalArgumentException("Type must not be null")
    ensures r.Success? ==> r.value.Valid() && r.value.resolvableType == t.value
  {
    match t
    case None => Failure(IllegalArgumentException("Type must not be null"))
    case Some(rt) => Success(New(rt))
  }

  /** from(Class): the type information of a class used without type arguments. */
  function FromClass(c: ClassId): (r: ClassTypeInformation)
    ensures r.Valid() && r.GetType() == c && r.ToString() == ClassName(c)
  {
    From(Some(ForClass(c))).value
  }

  const OBJECT: ClassTypeInformation := FromClass(Object)
  const COLLECTION: ClassTypeInformation := FromClass(Collection)
  const LIST: ClassTypeInformation := FromClass(List)
  const SET: ClassTypeInformation := FromClass(Set)
  const MAP: ClassTypeInformation := FromClass(Map)

  /**
   * The well-known constants stand for their classes; OBJECT is assignable
   * from every reference type and, in a well-formed hierarchy, from no primitive.
   */
  lemma ConstantsStandForTheirClasses(h: Hierarchy, t: ResolvableType)
    ensures OBJECT.GetType() == Object && COLLECTION.GetType() == Collection && LIST.GetType() == List
    ensures SET.GetType() == Set && MAP.GetType() == Map
    ensures !RawType(t).Primitive? ==> OBJECT.IsAssignableFrom(h, t)
    ensures WellFormed(h) && RawType(t).Primitive? ==> !OBJECT.IsAssignableFrom(h, t)
  {
  }

  /** getRawTypeInformation returns the same instance. */
  lemma RawTypeInformationIsItself(cti: ClassTypeInformation)
    ensures cti.GetRawTypeInformation() == cti
    ensures cti.GetRawTypeInformation().GetType() == cti.GetType()
  {
  }

  /** specialize returns its argument unchanged. */
  lemma SpecializeIsIdentity(cti: ClassTypeInformation, t: ResolvableType)
    ensures cti.Specialize(t) == t
  {
  }

  /** isAssignableFrom looks at the target's raw class only: targets with one erasure get one answer. */
  lemma AssignabilityComparesRawClassesOnly(h: Hierarchy, cti: ClassTypeInformation, s: ResolvableType, t: ResolvableType)
    requires RawType(s) == RawType(t)
    ensures cti.IsAssignableFrom(h, s) <==> cti.IsAssignableFrom(h, t)
  {
  }

  /** A type information is assignable from its own type, and assignability composes in a well-formed hierarchy. */
  lemma AssignabilityIsAPreorder(h: Hierarchy, a: ClassTypeInformation, b: ClassTypeInformation, t: ResolvableType)
    requires WellFormed(h) && a.Valid() && b.Valid()
    ensures a.IsAssignableFrom(h, a.resolvableType)
    ensures a.IsAssignableFrom(h, b.resolvableType) && b.IsAssignableFrom(h, t) ==> a.IsAssignableFrom(h, t)
  {
    if a.IsAssignableFrom(h, b.resolvableType) && b.IsAssignableFrom(h, t) {
      AssignableTransitive(h, a.GetType(), b.GetType(), RawType(t));
    }
  }
}
