/**
 * The default methods of the fluent query interfaces. An implementation
 * supplies the abstract members; the defaults either delegate to them or
 * throw. A query is an immutable value: every builder step yields a new one.
 */
module FluentQuery {
  import opened Wrappers

  /** A Java reference that may be null. */
  datatype Nullable<T> = Null | NonNull(value: T)

  /** java.util.Optional */
  datatype Optional<T> = Empty | Of(value: T)

  /** Optional.ofNullable: empty for null, the value otherwise. */
  function OfNullable<T>(v: Nullable<T>): (r: Optional<T>)
    ensures r.Empty? <==> v.Null?
    ensures r.Of? ==> r.value == v.value
  {
    match v
    case Null => Empty
    case NonNull(x) => Of(x)
  }

  /** Optional.orElse(null) */
  function OrElseNull<T>(o: Optional<T>): (r: Nullable<T>)
    ensures r.Null? <==> o.Empty?
    ensures r.NonNull? ==> r.value == o.value
  {
    match o
    case Empty => Null
    case Of(x) => NonNull(x)
  }

  /** ofNullable and orElse(null) are inverse to each other. */
  lemma OfNullableRoundTrip<T>(v: Nullable<T>, o: Optional<T>)
    ensures OrElseNull(OfNullable(v)) == v
    ensures OfNullable(OrElseNull(o)) == o
  {
  }

  /** The three interfaces: FluentQuery, FetchableFluentQuery and ReactiveFluentQuery. */
  datatype Interface = Fluent | Fetchable | Reactive

  /** Pageable: unpaged, or a page number and size. */
  datatype Pageable = Unpaged | PageRequest(pageNumber: nat, pageSize: nat)

  /** A page of results; every Page is a Slice. */
  datatype Page<T> = Page(content: seq<T>, pageable: Pageable, totalElements: nat)

  const LimitNotSupported := "Limit not supported"
  const ScrollingNotSupported := "Scrolling not supported"

  /**
   * limit(int) as each interface declares it by default: UnsupportedOperationException,
   * whatever the limit, negative or not, and whatever the query.
   */
  function DefaultLimit<Q>(iface: Interface, query: Q, limit: int): (r: Result<Q>)
    ensures r.Failure? && r.error.UnsupportedOperationException?
    ensures r.error.message == LimitNotSupported
  {
    Failure(UnsupportedOperationException(LimitNotSupported))
  }

  /** scroll(ScrollPosition) as FetchableFluentQuery and ReactiveFluentQuery declare it by default. */
  function DefaultScroll<Q, P, W>(iface: Interface, query: Q, scrollPosition: P): (r: Result<W>)
    requires iface != Fluent
    ensures r.Failure? && r.error.UnsupportedOperationException?
    ensures r.error.message == ScrollingNotSupported
  {
    Failure(UnsupportedOperationException(ScrollingNotSupported))
  }

  /**
   * A fetchable fluent query: its state and the members an implementation
   * provides. oneValue may throw (more than one match); the others return.
   */
  datatype FetchableFluentQuery<!Q, T> = FetchableFluentQuery(
    state: Q,
    projectCollection: (Q, seq<string>) -> Q,
    oneValue: Q -> Result<Nullable<T>>,
    firstValue: Q -> Nullable<T>,
    page: (Q, Pageable) -> Page<T>)
  {
    /** project(Collection): a new query in the state the implementation derives; the implementation stays. */
    function Project(properties: seq<string>): (r: FetchableFluentQuery<Q, T>)
      ensures r.state == projectCollection(state, properties)
      ensures r.(state := state) == this
    {
      this.(state := projectCollection(state, properties))
    }

    /** project(String...): the collection form applied to the same properties, in the same order. */
    function ProjectVarargs(properties: seq<string>): (r: FetchableFluentQuery<Q, T>)
      ensures r == Project(properties)
      ensures r.state == projectCollection(state, properties)
    {
      Project(properties)
    }

    /** one(): empty when oneValue is null, the value otherwise; oneValue's exception passes through. */
    function One(): (r: Result<Optional<T>>)
      ensures oneValue(state).Failure? ==> r == Failure(oneValue(state).error)
      ensures oneValue(state).Success? ==> r.Success?
      ensures r.Success? ==> (r.value.Empty? <==> oneValue(state).value.Null?)
      ensures r.Success? && r.value.Of? ==> r.value.value == oneValue(state).value.value
    {
      var v :- oneValue(state);
      Success(OfNullable(v))
    }

    /** first(): empty when firstValue is null, the value otherwise. */
    function First(): (r: Optional<T>)
      ensures r.Empty? <==> firstValue(state).Null?
      ensures r.Of? ==> r.value == firstValue(state).value
    {
      OfNullable(firstValue(state))
    }

    /** slice(pageable): the page for the same pageable, seen as a slice. */
    function Slice(pageable: Pageable): (r: Page<T>)
      ensures r == page(state, pageable)
    {
      page(state, pageable)
    }

    /** limit(int): the interface default, which does not support limiting. */
    function Limit(limit: int): (r: Result<FetchableFluentQuery<Q, T>>)
      ensures r == Failure(UnsupportedOperationException(LimitNotSupported))
    {
      match DefaultLimit(Fetchable, state, limit)
      case Failure(e) => Failure(e)
      case Success(s) => Success(this.(state := s))
    }

    /** scroll(ScrollPosition): the interface default, which does not support scrolling. */
    function Scroll<P, W>(scrollPosition: P): (r: Result<W>)
      ensures r == Failure(UnsupportedOperationException(ScrollingNotSupported))
    {
      DefaultScroll(Fetchable, state, scrollPosition)
    }
  }

  /** one() and first() carry what oneValue() and firstValue() return: reading them back gives the nullable value. */
  lemma OptionalViewsRoundTrip<Q, T>(query: FetchableFluentQuery<Q, T>)
    ensures query.oneValue(query.state).Success? ==> OrElseNull(query.One().value) == query.oneValue(query.state).value
    ensures OrElseNull(query.First()) == query.firstValue(query.state)
  {
    OfNullableRoundTrip(query.firstValue(query.state), Empty);
    if query.oneValue(query.state).Success? {
      OfNullableRoundTrip(query.oneValue(query.state).value, Empty);
    }
  }
}
