/**
 * The point record as stored outside the form, the form's editable state,
 * the translation between the two, and the shallow merge by which the form
 * overwrites its state.
 */
module Records {
  import opened Wrappers
  import opened Catalog

  /** A timestamp in milliseconds, as a JavaScript `Date` holds it. */
  type Millis = int

  /**
   * A point as stored: `{type, dateFrom, dateTo, destination, basePrice, offers}`,
   * with the destination kept as an id and the chosen offers as a list of offer ids.
   * None stands for `null`.
   */
  datatype Point = Point(
    eventType: string,
    dateFrom: Option<Millis>,
    dateTo: Option<Millis>,
    destination: Option<string>,
    basePrice: Option<int>,
    offers: seq<string>)

  /** The form's state: the point's fields plus the resolved `activeDestination`. */
  datatype State = State(
    eventType: string,
    dateFrom: Option<Millis>,
    dateTo: Option<Millis>,
    destination: Option<string>,
    activeDestination: Option<Destination>,
    basePrice: Option<int>,
    offers: seq<string>)

  /** The point a new form starts from: a taxi ride with nothing else filled in. */
  function InitialPoint(): Point
  {
    Point("taxi", None, None, None, None, [])
  }

  /** `parseStateToPoint`: drop `activeDestination`, keep every other field as it is. */
  function ParseStateToPoint(s: State): Point
  {
    Point(s.eventType, s.dateFrom, s.dateTo, s.destination, s.basePrice, s.offers)
  }

  /**
   * `parsePointToState`: keep every field of the point and resolve its destination
   * id against the catalog; an id that resolves to nothing leaves `activeDestination` absent.
   */
  function ParsePointToState(p: Point, destinations: seq<Destination>): (s: State)
    ensures ParseStateToPoint(s) == p
    ensures s.activeDestination.None? <==>
      forall i :: 0 <= i < |destinations| ==> p.destination != Some(destinations[i].id)
    ensures s.activeDestination.Some? ==> exists i :: (0 <= i < |destinations| &&
      destinations[i] == s.activeDestination.value && p.destination == Some(destinations[i].id) &&
      forall j :: 0 <= j < i ==> p.destination != Some(destinations[j].id))
  {
    State(p.eventType, p.dateFrom, p.dateTo, p.destination,
      FindById(destinations, p.destination), p.basePrice, p.offers)
  }

  /**
   * The state's resolved destination agrees with its destination id: a present one is a
   * catalog entry with that id, an absent one means no entry has that id.
   */
  ghost predicate Consistent(s: State, destinations: seq<Destination>)
  {
    match s.activeDestination
    case Some(d) => d in destinations && s.destination == Some(d.id)
    case None => forall i :: 0 <= i < |destinations| ==> s.destination != Some(destinations[i].id)
  }

  /** Every selected offer id belongs to an offer listed for the state's current type. */
  ghost predicate OffersFit(s: State, catalog: seq<OfferGroup>)
  {
    forall id :: id in s.offers ==>
      OffersFor(catalog, s.eventType).Some? && id in OfferIds(OffersFor(catalog, s.eventType).value)
  }

  /** A state produced from a point is consistent with the catalog it was resolved against. */
  lemma ParsedStateConsistent(p: Point, destinations: seq<Destination>)
    ensures Consistent(ParsePointToState(p, destinations), destinations)
  {
    var s := ParsePointToState(p, destinations);
    if s.activeDestination.Some? {
      var i :| 0 <= i < |destinations| && destinations[i] == s.activeDestination.value &&
        p.destination == Some(destinations[i].id);
    }
  }

  /**
   * With distinct destination ids, a state is consistent exactly when its resolved
   * destination is the one `parsePointToState` would resolve.
   */
  lemma {:induction false} ConsistentIffResolved(s: State, destinations: seq<Destination>)
    requires DistinctIds(destinations)
    ensures Consistent(s, destinations) <==> s.activeDestination == FindById(destinations, s.destination)
  {
    if s.activeDestination.Some? && Consistent(s, destinations) {
      var d := s.activeDestination.value;
      var k :| 0 <= k < |destinations| && destinations[k] == d;
      FindByIdUnique(destinations, k);
    }
    if s.activeDestination == FindById(destinations, s.destination) {
      ParsedStateConsistent(ParseStateToPoint(s), destinations);
    }
  }

  /**
   * Translating a state to a point and back recovers it exactly when the state is
   * consistent, given distinct destination ids.
   */
  lemma StateRoundTrip(s: State, destinations: seq<Destination>)
    requires DistinctIds(destinations)
    ensures ParsePointToState(ParseStateToPoint(s), destinations) == s <==> Consistent(s, destinations)
  {
    ConsistentIffResolved(s, destinations);
  }

  /**
   * A partial record handed to `updateElement`: a field that is Some is present in the
   * record (possibly with value `null`, the inner None), a field that is None is absent.
   */
  datatype Patch = Patch(
    eventType: Option<string>,
    dateFrom: Option<Option<Millis>>,
    dateTo: Option<Option<Millis>>,
    destination: Option<Option<string>>,
    activeDestination: Option<Option<Destination>>,
    basePrice: Option<Option<int>>,
    offers: Option<seq<string>>)

  /** The empty partial record `{}`. */
  function EmptyPatch(): Patch
  {
    Patch(None, None, None, None, None, None, None)
  }

  function Override<T>(current: T, update: Option<T>): T
  {
    if update.Some? then update.value else current
  }

  /** `{...state, ...update}`: every field present in the update wins, every other field stays. */
  function Merge(s: State, update: Patch): (r: State)
    ensures update.eventType.Some? ==> r.eventType == update.eventType.value
    ensures update.eventType.None? ==> r.eventType == s.eventType
    ensures update.dateFrom.Some? ==> r.dateFrom == update.dateFrom.value
    ensures update.dateFrom.None? ==> r.dateFrom == s.dateFrom
    ensures update.dateTo.Some? ==> r.dateTo == update.dateTo.value
    ensures update.dateTo.None? ==> r.dateTo == s.dateTo
    ensures update.destination.Some? ==> r.destination == update.destination.value
    ensures update.destination.None? ==> r.destination == s.destination
    ensures update.activeDestination.Some? ==> r.activeDestination == update.activeDestination.value
    ensures update.activeDestination.None? ==> r.activeDestination == s.activeDestination
    ensures update.basePrice.Some? ==> r.basePrice == update.basePrice.value
    ensures update.basePrice.None? ==> r.basePrice == s.basePrice
    ensures update.offers.Some? ==> r.offers == update.offers.value
    ensures update.offers.None? ==> r.offers == s.offers
  {
    State(
      Override(s.eventType, update.eventType),
      Override(s.dateFrom, update.dateFrom),
      Override(s.dateTo, update.dateTo),
      Override(s.destination, update.destination),
      Override(s.activeDestination, update.activeDestination),
      Override(s.basePrice, update.basePrice),
      Override(s.offers, update.offers))
  }

  /** `{...first, ...second}` on two partial records: the fields of `second` win. */
  function Then(first: Patch, second: Patch): Patch
  {
    Patch(
      if second.eventType.Some? then second.eventType else first.eventType,
      if second.dateFrom.Some? then second.dateFrom else first.dateFrom,
      if second.dateTo.Some? then second.dateTo else first.dateTo,
      if second.destination.Some? then second.destination else first.destination,
      if second.activeDestination.Some? then second.activeDestination else first.activeDestination,
      if second.basePrice.Some? then second.basePrice else first.basePrice,
      if second.offers.Some? then second.offers else first.offers)
  }

  /** Merging nothing changes nothing. */
  lemma MergeEmpty(s: State)
    ensures Merge(s, EmptyPatch()) == s
  {
  }

  /** Two merges in a row are one merge in which the later update's fields win. */
  lemma MergeLastWriteWins(s: State, first: Patch, second: Patch)
    ensures Merge(Merge(s, first), second) == Merge(s, Then(first, second))
  {
  }
}
