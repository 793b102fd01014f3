/**
 * A single parameter of a query method: whether it is special (paging,
 * sorting, limiting, scrolling, a dynamic projection) or bound to the query,
 * its effective type after an optional one-level unwrap, its name and its
 * bind placeholder.
 */
module Parameter {
  import opened Wrappers
  import opened JavaTypes
  import opened Decimal
  import CTI = ClassTypeInformation
  import RWC = ReactiveWrapperConverters

  // ---------------------------------------------------------------------------
  // The collaborators a parameter is classified against
  // ---------------------------------------------------------------------------

  /** QueryExecutionConverters, which is not part of this model: its three static queries. */
  datatype QueryExecutionConverters = QueryExecutionConverters(
    supports: ClassId -> bool,
    supportsUnwrapping: ClassId -> bool,
    unwrapWrapperTypes: ResolvableType -> ResolvableType)

  /**
   * Everything a parameter's classification depends on besides the parameter:
   * the class hierarchy, whether kotlin.coroutines.Continuation is on the
   * class path, the synchronous wrapper support and the reactive adapter registry.
   */
  datatype Environment = Environment(
    hierarchy: Hierarchy,
    continuationPresent: bool,
    queryExecution: QueryExecutionConverters,
    reactiveRegistry: Option<RWC.AdapterRegistry>)

  /** A query method, seen through its generic return type. */
  datatype QueryMethod = QueryMethod(returnType: ResolvableType)

  /**
   * Spring's MethodParameter: its position, its generic type, the value of a
   * @Param annotation on it, the name a parameter-name discoverer finds, the
   * method it belongs to (None: getMethod() returns null) and its toString().
   */
  datatype MethodParameter = MethodParameter(
    index: nat,
    parameterType: ResolvableType,
    paramAnnotation: Option<string>,
    discoveredName: Option<string>,
    owningMethod: Option<QueryMethod>,
    display: string)
  {
    /** getParameterType(): the erased class of the parameter. */
    function GetParameterType(): ClassId {
      RawType(parameterType)
    }
  }

  // ---------------------------------------------------------------------------
  // Special parameter types
  // ---------------------------------------------------------------------------

  /** TYPES: ScrollPosition, Pageable, Sort and Limit, then Continuation when it is on the class path. */
  function Types(continuationPresent: bool): (r: seq<ClassId>)
    ensures |r| == if continuationPresent then 5 else 4
    ensures r[..4] == [ScrollPosition, Pageable, Sort, Limit]
    ensures Continuation in r <==> continuationPresent
  {
    [ScrollPosition, Pageable, Sort, Limit] + if continuationPresent then [Continuation] else []
  }

  /** A class is a special parameter type when some member of TYPES is assignable from it. */
  predicate SpecialType(env: Environment, c: ClassId) {
    exists i | 0 <= i < |Types(env.continuationPresent)| :: IsAssignable(env.hierarchy, Types(env.continuationPresent)[i], c)
  }

  /**
   * isSpecialParameterType: a search of TYPES that stops at the first member
   * assignable from the class. Its ensures is what lets Parameter.IsSpecialParameter
   * use the predicate SpecialType in its place.
   */
  method IsSpecialParameterType(env: Environment, parameterType: ClassId) returns (r: bool)
    ensures r <==> SpecialType(env, parameterType)
  {
    var types := Types(env.continuationPresent);
    var i := 0;
    while i < |types|
      invariant 0 <= i <= |types|
      invariant forall j | 0 <= j < i :: !IsAssignable(env.hierarchy, types[j], parameterType)
    {
      if IsAssignable(env.hierarchy, types[i], parameterType) {
        return true;
      }
      i := i + 1;
    }
    return false;
  }

  /** Membership is covariant: a subtype of a special type is special too. */
  lemma SpecialTypeIsCovariant(env: Environment, sup: ClassId, sub: ClassId)
    requires WellFormed(env.hierarchy)
    requires IsAssignable(env.hierarchy, sup, sub)
    requires SpecialType(env, sup)
    ensures SpecialType(env, sub)
  {
    var types := Types(env.continuationPresent);
    var i :| 0 <= i < |types| && IsAssignable(env.hierarchy, types[i], sup);
    AssignableTransitive(env.hierarchy, types[i], sup, sub);
  }

  /** With the standard library hierarchy, Continuation is special exactly when it is on the class path. */
  lemma ContinuationIsSpecialIffPresent(env: Environment)
    requires env.hierarchy == StandardHierarchy
    ensures SpecialType(env, Continuation) <==> env.continuationPresent
  {
    if env.continuationPresent {
      assert Types(env.continuationPresent)[4] == Continuation;
    } else {
      assert Types(env.continuationPresent) == [ScrollPosition, Pageable, Sort, Limit];
    }
  }

  // ---------------------------------------------------------------------------
  // What the constructor computes
  // ---------------------------------------------------------------------------

  /** isWrapped: a synchronous or a reactive wrapper type. */
  predicate IsWrapped(env: Environment, c: ClassId) {
    env.queryExecution.supports(c) || RWC.Supports(env.reactiveRegistry, c)
  }

  /** shouldUnwrap */
  predicate ShouldUnwrap(env: Environment, c: ClassId) {
    env.queryExecution.supportsUnwrapping(c)
  }

  /**
   * potentiallyUnwrapParameterType: the erasure of the first type argument
   * (Object when there is none) for a wrapper that is to be unwrapped, the
   * declared class otherwise. One level only. A raw wrapper class gives its
   * own type variable, which erases to Object.
   */
  function PotentiallyUnwrapParameterType(env: Environment, mp: MethodParameter): (r: ClassId)
    ensures !(IsWrapped(env, mp.GetParameterType()) && ShouldUnwrap(env, mp.GetParameterType())) ==> r == mp.GetParameterType()
    ensures IsWrapped(env, mp.GetParameterType()) && ShouldUnwrap(env, mp.GetParameterType()) ==>
      && (mp.parameterType.ClassType? && |mp.parameterType.generics| > 0 ==> r == RawType(mp.parameterType.generics[0]))
      && (ComponentType(mp.parameterType).None? ==> r == Object)
  {
    if IsWrapped(env, mp.GetParameterType()) && ShouldUnwrap(env, mp.GetParameterType())
    then Resolve(GetGeneric(mp.parameterType, 0), Object)
    else mp.GetParameterType()
  }

  /** The score-range test of the constructor: a Range whose type argument accepts Score. */
  predicate IsScoreRangeType(env: Environment, mp: MethodParameter) {
    && IsAssignable(env.hierarchy, Range, mp.GetParameterType())
    && IsAssignableFromClass(env.hierarchy, GetGeneric(mp.parameterType, 0), Score)
  }

  const NotAssociatedWithMethod := "Parameter is not associated with any method"

  /** The return type of the parameter's method with synchronous wrappers unwrapped. */
  function UnwrappedReturnType(env: Environment, m: QueryMethod): ResolvableType {
    env.queryExecution.unwrapWrapperTypes(m.returnType)
  }

  /**
   * isDynamicProjectionParameter: a Class parameter without @Param whose
   * type argument is the method's return type with every wrapper removed,
   * provided the domain type is not assignable from that type.
   */
  function DetectDynamicProjection(env: Environment, mp: MethodParameter, domainType: CTI.ClassTypeInformation): (r: Result<bool>)
    ensures r.Failure? <==>
      && mp.GetParameterType() == Class && mp.paramAnnotation.None?
      && (mp.owningMethod.None? || RWC.UnwrapWrapperTypes(env.reactiveRegistry, UnwrappedReturnType(env, mp.owningMethod.value)).Failure?)
    ensures r.Failure? && mp.owningMethod.None? ==> r.error == IllegalArgumentException(NotAssociatedWithMethod)
    ensures r.Failure? && mp.owningMethod.Some? ==> r.error == IllegalStateException(RWC.MissingComponentType)
    ensures r == Success(true) ==>
      && mp.GetParameterType() == Class && mp.paramAnnotation.None? && mp.owningMethod.Some?
      && ComponentType(mp.parameterType).Some?
      && !RWC.Supports(env.reactiveRegistry, RawType(ComponentType(mp.parameterType).value))
      && !domainType.IsAssignableFrom(env.hierarchy, ComponentType(mp.parameterType).value)
      && RWC.ReachedThroughSupported(env.reactiveRegistry, ComponentType(mp.parameterType).value, UnwrappedReturnType(env, mp.owningMethod.value))
  {
    if mp.GetParameterType() != Class then Success(false)
    else if mp.paramAnnotation.Some? then Success(false)
    else
      match mp.owningMethod
      case None => Failure(IllegalArgumentException(NotAssociatedWithMethod))
      case Some(m) =>
        var reactiveUnwrapped :- RWC.UnwrapWrapperTypes(env.reactiveRegistry, UnwrappedReturnType(env, m));
        if domainType.IsAssignableFrom(env.hierarchy, reactiveUnwrapped) then Success(false)
        else Success(ComponentType(mp.parameterType) == Some(reactiveUnwrapped))
  }

  /** Both directions of the dynamic-projection rule. */
  lemma DynamicProjectionCharacterisation(env: Environment, mp: MethodParameter, domainType: CTI.ClassTypeInformation)
    ensures DetectDynamicProjection(env, mp, domainType) == Success(true) <==>
      && mp.GetParameterType() == Class && mp.paramAnnotation.None? && mp.owningMethod.Some?
      && ComponentType(mp.parameterType).Some?
      && RWC.UnwrapWrapperTypes(env.reactiveRegistry, UnwrappedReturnType(env, mp.owningMethod.value))
         == Success(ComponentType(mp.parameterType).value)
      && !domainType.IsAssignableFrom(env.hierarchy, ComponentType(mp.parameterType).value)
  {
  }

  const NotNamedSuffix := " is not named. For queries with named parameters you need to provide names for method parameters; Use @Param for query method parameters, or use the javac flag -parameters."

  // ---------------------------------------------------------------------------
  // The parameter
  // ---------------------------------------------------------------------------

  /** Placeholders a query refers to a parameter by. */
  datatype Placeholder = NamedPlaceholder(name: string) | PositionalPlaceholder(index: nat)

  /** Reads back what getPlaceholder writes: ":name" or "?index". */
  function ParsePlaceholder(s: string): Option<Placeholder> {
    if |s| > 0 && s[0] == ':' then Some(NamedPlaceholder(s[1..]))
    else if |s| > 1 && s[0] == '?' && AllDigits(s[1..]) then Some(PositionalPlaceholder(ParseDigits(s[1..])))
    else None
  }

  datatype Parameter = Parameter(
    env: Environment,
    parameter: MethodParameter,
    parameterType: ClassId,
    isScoreRange: bool,
    isDynamicProjection: bool)
  {
    /** isSpecialParameter: a dynamic projection, or a declared class that is a special type. */
    predicate IsSpecialParameter() {
      isDynamicProjection || SpecialType(env, parameter.GetParameterType())
    }

    predicate IsBindable() {
      !IsSpecialParameter()
    }

    predicate IsDynamicProjectionParameter() {
      isDynamicProjection
    }

    /** getName: the @Param value when there is one, the discovered name otherwise. */
    function GetName(): (r: Option<string>)
      ensures r.Some? <==> parameter.paramAnnotation.Some? || parameter.discoveredName.Some?
      ensures parameter.paramAnnotation.Some? ==> r == parameter.paramAnnotation
      ensures parameter.paramAnnotation.None? ==> r == parameter.discoveredName
    {
      match parameter.paramAnnotation
      case Some(v) => Some(v)
      case None => parameter.discoveredName
    }

    /** isNamedParameter: bindable and named. */
    predicate IsNamedParameter() {
      !IsSpecialParameter() && GetName().Some?
    }

    predicate IsExplicitlyNamed() {
      parameter.paramAnnotation.Some?
    }

    function GetIndex(): nat {
      parameter.index
    }

    /** getPlaceholder: ":" and the name for a named parameter, "?" and the index otherwise. */
    function GetPlaceholder(): string {
      if IsNamedParameter() then ":" + GetName().value else "?" + NatToString(GetIndex())
    }

    /** getRequiredName: the name, or IllegalStateException naming the parameter when it has none. */
    function GetRequiredName(): (r: Result<string>)
      ensures r.Success? <==> GetName().Some?
      ensures r.Success? ==> r.value == GetName().value
      ensures r.Failure? ==> r.error == IllegalStateException("Parameter " + parameter.display + NotNamedSuffix)
    {
      match GetName()
      case Some(n) => Success(n)
      case None => Failure(IllegalStateException("Parameter " + parameter.display + NotNamedSuffix))
    }

    function GetType(): ClassId {
      parameterType
    }

    /** toString: the name (as Optional.toString writes it) or "#index", a colon, and the effective type's name. */
    function ToString(): (s: string)
      ensures IsNamedParameter() ==> s == "Optional[" + GetName().value + "]:" + ClassName(GetType())
      ensures !IsNamedParameter() ==> s == "#" + NatToString(GetIndex()) + ":" + ClassName(GetType())
    {
      (if IsNamedParameter() then "Optional[" + GetName().value + "]" else "#" + NatToString(GetIndex()))
      + ":" + ClassName(GetType())
    }

    predicate IsVector() {
      IsAssignable(env.hierarchy, Vector, GetType())
    }

    predicate IsScore() {
      IsAssignable(env.hierarchy, Score, GetType())
    }

    predicate IsScoreRange() {
      isScoreRange
    }

    predicate IsScrollPosition() {
      IsAssignable(env.hierarchy, ScrollPosition, GetType())
    }

    predicate IsPageable() {
      IsAssignable(env.hierarchy, Pageable, GetType())
    }

    predicate IsSort() {
      IsAssignable(env.hierarchy, Sort, GetType())
    }

    predicate IsLimit() {
      IsAssignable(env.hierarchy, Limit, GetType())
    }
  }

  /**
   * The constructor: fails exactly when the dynamic-projection test throws;
   * otherwise the effective type, the score-range flag and the projection flag
   * as computed from the method parameter and the domain type.
   */
  function Create(env: Environment, mp: MethodParameter, domainType: CTI.ClassTypeInformation): (r: Result<Parameter>)
    ensures r.Failure? <==> DetectDynamicProjection(env, mp, domainType).Failure?
    ensures r.Failure? ==> r.error == DetectDynamicProjection(env, mp, domainType).error
    ensures r.Success? ==>
      && r.value.env == env && r.value.parameter == mp
      && r.value.GetType() == PotentiallyUnwrapParameterType(env, mp)
      && r.value.IsScoreRange() == IsScoreRangeType(env, mp)
      && Success(r.value.IsDynamicProjectionParameter()) == DetectDynamicProjection(env, mp, domainType)
  {
    var dynamic :- DetectDynamicProjection(env, mp, domainType);
    Success(Parameter(env, mp, PotentiallyUnwrapParameterType(env, mp), IsScoreRangeType(env, mp), dynamic))
  }

  // ---------------------------------------------------------------------------
  // Properties of every parameter
  // ---------------------------------------------------------------------------

  /** Exactly one of special and bindable holds, and a dynamic projection parameter is special. */
  lemma SpecialOrBindable(p: Parameter)
    ensures p.IsSpecialParameter() != p.IsBindable()
    ensures p.IsDynamicProjectionParameter() ==> p.IsSpecialParameter() && !p.IsBindable()
  {
  }

  /** A special parameter is never named: its placeholder is positional even when it has a name. */
  lemma SpecialParametersArePositional(p: Parameter)
    requires p.IsSpecialParameter()
    ensures !p.IsNamedParameter()
    ensures p.GetPlaceholder() == "?" + NatToString(p.GetIndex())
  {
  }

  /** The placeholder reads back as the parameter's name when it is named and as its index otherwise. */
  lemma PlaceholderRoundTrip(p: Parameter)
    ensures p.IsNamedParameter() ==> ParsePlaceholder(p.GetPlaceholder()) == Some(NamedPlaceholder(p.GetName().value))
    ensures !p.IsNamedParameter() ==> ParsePlaceholder(p.GetPlaceholder()) == Some(PositionalPlaceholder(p.GetIndex()))
  {
    var s := p.GetPlaceholder();
    if p.IsNamedParameter() {
      assert s[1..] == p.GetName().value;
    } else {
      var digits := NatToString(p.GetIndex());
      assert s[1..] == digits;
      ParseNatToString(p.GetIndex());
    }
  }

  /** Two bindable parameters with the same @Param value get the same placeholder, whatever their positions. */
  lemma ExplicitNameDecidesPlaceholder(p: Parameter, q: Parameter)
    requires p.IsBindable() && q.IsBindable()
    requires p.IsExplicitlyNamed() && p.parameter.paramAnnotation == q.parameter.paramAnnotation
    ensures p.GetPlaceholder() == q.GetPlaceholder() == ":" + p.parameter.paramAnnotation.value
  {
  }

  /** Distinct positional parameters get distinct placeholders. */
  lemma PositionalPlaceholdersAreDistinct(p: Parameter, q: Parameter)
    requires !p.IsNamedParameter() && !q.IsNamedParameter() && p.GetIndex() != q.GetIndex()
    ensures p.GetPlaceholder() != q.GetPlaceholder()
  {
    PlaceholderRoundTrip(p);
    PlaceholderRoundTrip(q);
  }

  /**
   * When the declared class is kept as the effective type, the scroll-position,
   * pageable, sort and limit flags all make the parameter special.
   */
  lemma SpecialFlagsMakeSpecial(p: Parameter)
    requires p.GetType() == p.parameter.GetParameterType()
    ensures p.IsScrollPosition() || p.IsPageable() || p.IsSort() || p.IsLimit() ==> p.IsSpecialParameter()
  {
    var types := Types(p.env.continuationPresent);
    if p.IsScrollPosition() {
      assert IsAssignable(p.env.hierarchy, types[0], p.parameter.GetParameterType());
    } else if p.IsPageable() {
      assert IsAssignable(p.env.hierarchy, types[1], p.parameter.GetParameterType());
    } else if p.IsSort() {
      assert IsAssignable(p.env.hierarchy, types[2], p.parameter.GetParameterType());
    } else if p.IsLimit() {
      assert IsAssignable(p.env.hierarchy, types[3], p.parameter.GetParameterType());
    }
  }

  /** A created parameter with a dynamic projection: its type argument is not a reactive wrapper and not the domain type. */
  lemma DynamicProjectionTypeArgument(env: Environment, mp: MethodParameter, domainType: CTI.ClassTypeInformation)
    requires Create(env, mp, domainType).Success?
    requires Create(env, mp, domainType).value.IsDynamicProjectionParameter()
    ensures Create(env, mp, domainType).value.IsSpecialParameter()
    ensures mp.GetParameterType() == Class && !Create(env, mp, domainType).value.IsExplicitlyNamed()
    ensures ComponentType(mp.parameterType).Some?
    ensures !RWC.Supports(env.reactiveRegistry, RawType(ComponentType(mp.parameterType).value))
    ensures !domainType.IsAssignableFrom(env.hierarchy, ComponentType(mp.parameterType).value)
  {
    assert DetectDynamicProjection(env, mp, domainType) == Success(true);
  }

  // ---------------------------------------------------------------------------
  // Examples over the standard library hierarchy
  // ---------------------------------------------------------------------------

  const OptionalClass := Named("java.util.Optional")
  const User := Named("com.example.User")

  /** java.util.Optional is the synchronous wrapper of the examples, to be unwrapped. */
  predicate ExampleSupports(c: ClassId) {
    c == OptionalClass
  }

  /** Synchronous unwrapping of the examples: Optional and collections give way to their element type. */
  function ExampleUnwrap(t: ResolvableType): ResolvableType
    decreases t
  {
    if t.ClassType? && (t.raw == OptionalClass || t.raw == List || t.raw == Collection || t.raw == Set) && |t.generics| > 0
    then ExampleUnwrap(t.generics[0])
    else t
  }

  const ExampleEnvironment := Environment(StandardHierarchy, true,
    QueryExecutionConverters(ExampleSupports, ExampleSupports, ExampleUnwrap), RWC.StandardRegistry)

  const UserDomain := CTI.FromClass(User)

  /** `<T> List<T> findByName(String name, Class<T> type)`: the `type` parameter is a dynamic projection. */
  lemma GenericClassParameterIsDynamicProjection()
    ensures
      var t := Variable("T", Object);
      var mp := MethodParameter(1, ClassType(Class, [t]), None, Some("type"), Some(QueryMethod(ClassType(List, [t]))), "type");
      && Create(ExampleEnvironment, mp, UserDomain).Success?
      && Create(ExampleEnvironment, mp, UserDomain).value.IsDynamicProjectionParameter()
      && !Create(ExampleEnvironment, mp, UserDomain).value.IsBindable()
      && Create(ExampleEnvironment, mp, UserDomain).value.GetPlaceholder() == "?1"
  {
    var t := Variable("T", Object);
    var mp := MethodParameter(1, ClassType(Class, [t]), None, Some("type"), Some(QueryMethod(ClassType(List, [t]))), "type");
    assert ExampleUnwrap(ClassType(List, [t])) == t;
    assert RWC.UnwrapWrapperTypes(RWC.StandardRegistry, t) == Success(t);
    assert !UserDomain.IsAssignableFrom(StandardHierarchy, t);
    assert DetectDynamicProjection(ExampleEnvironment, mp, UserDomain) == Success(true);
    assert NatToString(1) == "1";
  }

  /** `List<User> findByType(Class<User> type)` on a User repository: not a dynamic projection, so bindable. */
  lemma ConcreteClassParameterIsBindable()
    ensures
      var mp := MethodParameter(0, ClassType(Class, [ClassType(User, [])]), None, Some("type"),
                                Some(QueryMethod(ClassType(List, [ClassType(User, [])]))), "type");
      && Create(ExampleEnvironment, mp, UserDomain).Success?
      && !Create(ExampleEnvironment, mp, UserDomain).value.IsDynamicProjectionParameter()
      && Create(ExampleEnvironment, mp, UserDomain).value.IsBindable()
      && Create(ExampleEnvironment, mp, UserDomain).value.GetPlaceholder() == ":type"
  {
    var user := ClassType(User, []);
    var mp := MethodParameter(0, ClassType(Class, [user]), None, Some("type"), Some(QueryMethod(ClassType(List, [user]))), "type");
    assert ExampleUnwrap(ClassType(List, [user])) == user;
    assert RWC.UnwrapWrapperTypes(RWC.StandardRegistry, user) == Success(user);
    assert UserDomain.IsAssignableFrom(StandardHierarchy, user);
    assert DetectDynamicProjection(ExampleEnvironment, mp, UserDomain) == Success(false);
    assert !SpecialType(ExampleEnvironment, Class);
  }

  /**
   * A Class parameter without @Param whose method is not known fails the
   * constructor with IllegalArgumentException; with @Param the method is
   * never asked for, and the parameter is created as no dynamic projection.
   */
  lemma ClassParameterWithoutMethodFails()
    ensures
      var mp := MethodParameter(0, ClassType(Class, [ClassType(User, [])]), None, None, None, "type");
      Create(ExampleEnvironment, mp, UserDomain) == Failure(IllegalArgumentException(NotAssociatedWithMethod))
    ensures
      var mp := MethodParameter(0, ClassType(Class, [ClassType(User, [])]), Some("type"), None, None, "type");
      && Create(ExampleEnvironment, mp, UserDomain).Success?
      && !Create(ExampleEnvironment, mp, UserDomain).value.IsDynamicProjectionParameter()
  {
  }

  /** A `Range<Score>` parameter is a score range but not a score. */
  lemma ScoreRangeIsNotScore()
    ensures
      var mp := MethodParameter(0, ClassType(Range, [ClassType(Score, [])]), None, Some("range"), None, "range");
      && Create(ExampleEnvironment, mp, UserDomain).Success?
      && Create(ExampleEnvironment, mp, UserDomain).value.IsScoreRange()
      && !Create(ExampleEnvironment, mp, UserDomain).value.IsScore()
  {
  }

  /**
   * A raw `Range` parameter is a score range: its first generic is Range's own
   * type variable, which erases to Object and so accepts Score.
   */
  lemma RawRangeIsScoreRange()
    ensures
      var mp := MethodParameter(0, ClassType(Range, []), None, Some("range"), None, "range");
      && Create(ExampleEnvironment, mp, UserDomain).Success?
      && Create(ExampleEnvironment, mp, UserDomain).value.IsScoreRange()
  {
    assert GetGeneric(ClassType(Range, []), 0) == Variable("T", Object);
  }

  /**
   * toString identifies the parameter: an unnamed one starts with "#" and its
   * digits read back as the index, a named one starts with "Optional[", and
   * both end with ":" and the effective type's name.
   */
  lemma ToStringReadsBack(p: Parameter)
    ensures !p.IsNamedParameter() ==>
      p.ToString()[0] == '#' && ParseDigits(DigitPrefix(p.ToString()[1..])) == p.GetIndex()
    ensures p.IsNamedParameter() ==> p.ToString()[..9] == "Optional["
    ensures var suffix := ":" + ClassName(p.GetType());
      |suffix| <= |p.ToString()| && p.ToString()[|p.ToString()| - |suffix|..] == suffix
  {
    var s := p.ToString();
    if !p.IsNamedParameter() {
      var d := NatToString(p.GetIndex());
      assert s[1..] == d + (":" + ClassName(p.GetType()));
      DigitPrefixOfDigits(d, ":" + ClassName(p.GetType()));
      ParseNatToString(p.GetIndex());
    }
  }

  /** A PageRequest parameter is pageable, special and not bindable. */
  lemma PageRequestIsSpecial()
    ensures
      var mp := MethodParameter(2, ClassType(PageRequest, []), None, Some("page"), None, "page");
      && Create(ExampleEnvironment, mp, UserDomain).Success?
      && Create(ExampleEnvironment, mp, UserDomain).value.IsPageable()
      && Create(ExampleEnvironment, mp, UserDomain).value.IsSpecialParameter()
      && !Create(ExampleEnvironment, mp, UserDomain).value.IsBindable()
  {
    assert IsAssignable(StandardHierarchy, Types(true)[1], PageRequest);
  }

  /**
   * The parameter type is unwrapped one level only: an `Optional<Optional<User>>`
   * parameter has the effective type Optional, itself a wrapper.
   */
  lemma NestedWrapperUnwrapsOneLevel()
    ensures
      var mp := MethodParameter(0, ClassType(OptionalClass, [ClassType(OptionalClass, [ClassType(User, [])])]), None, Some("u"), None, "u");
      && Create(ExampleEnvironment, mp, UserDomain).Success?
      && Create(ExampleEnvironment, mp, UserDomain).value.GetType() == OptionalClass
      && IsWrapped(ExampleEnvironment, Create(ExampleEnvironment, mp, UserDomain).value.GetType())
  {
  }

  /**
   * The special test looks at the declared class, the flags at the effective
   * type: an `Optional<Pageable>` parameter is pageable yet bindable.
   */
  lemma WrappedPageableIsBindable()
    ensures
      var mp := MethodParameter(0, ClassType(OptionalClass, [ClassType(Pageable, [])]), None, Some("page"), None, "page");
      && Create(ExampleEnvironment, mp, UserDomain).Success?
      && Create(ExampleEnvironment, mp, UserDomain).value.IsPageable()
      && Create(ExampleEnvironment, mp, UserDomain).value.IsBindable()
  {
    assert !SpecialType(ExampleEnvironment, OptionalClass);
  }
}
