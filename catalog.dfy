/**
 * The two read-only catalogs a form is built against: the offer catalog
 * (event type to its ordered offers) and the destination catalog, and the
 * `Array.prototype.find` lookups the form performs on them.
 */
module Catalog {
  import opened Wrappers

  /** One selectable add-on of an event type: `{id, title, price}`. */
  datatype Offer = Offer(id: string, title: string, price: int)

  /** One own property `type: [offers]` of the offer catalog object, in key order. */
  datatype OfferGroup = OfferGroup(eventType: string, offers: seq<Offer>)

  /** One photo of a destination: `{src, description}`. */
  datatype Picture = Picture(src: string, description: string)

  /** One entry of the destination catalog: `{id, name, description, pictures}`. */
  datatype Destination = Destination(id: string, name: string, description: string, pictures: seq<Picture>)

  /** The index of the first element satisfying `p`, as `Array.prototype.findIndex` computes it. */
  function FirstIndex<T>(xs: seq<T>, p: T -> bool): (r: Option<nat>)
    ensures r.Some? ==> r.value < |xs| && p(xs[r.value])
    ensures r.Some? ==> forall j :: 0 <= j < r.value ==> !p(xs[j])
    ensures r.None? <==> forall j :: 0 <= j < |xs| ==> !p(xs[j])
  {
    if |xs| == 0 then None
    else if p(xs[0]) then Some(0)
    else match FirstIndex(xs[1..], p)
      case None => None
      case Some(i) => Some(i + 1)
  }

  /** `Array.prototype.find`: the first element satisfying `p`, or nothing. */
  function Find<T>(xs: seq<T>, p: T -> bool): (r: Option<T>)
    ensures r.None? <==> forall j :: 0 <= j < |xs| ==> !p(xs[j])
    ensures r.Some? ==> exists i :: (0 <= i < |xs| && xs[i] == r.value && p(xs[i]) &&
      forall j :: 0 <= j < i ==> !p(xs[j]))
  {
    match FirstIndex(xs, p)
    case None => None
    case Some(i) => Some(xs[i])
  }

  /** `allOffers[type]`: the offer list stored under key `t`, or nothing when `t` is not a key. */
  function OffersFor(catalog: seq<OfferGroup>, t: string): (r: Option<seq<Offer>>)
    ensures r.None? <==> forall i :: 0 <= i < |catalog| ==> catalog[i].eventType != t
    ensures r.Some? ==> exists i :: (0 <= i < |catalog| && catalog[i] == OfferGroup(t, r.value) &&
      forall j :: 0 <= j < i ==> catalog[j].eventType != t)
  {
    match Find(catalog, (g: OfferGroup) => g.eventType == t)
    case None => None
    case Some(g) => Some(g.offers)
  }

  /** `Object.keys(allOffers)`: the event types in key order. */
  function EventTypes(catalog: seq<OfferGroup>): seq<string>
  {
    seq(|catalog|, i requires 0 <= i < |catalog| => catalog[i].eventType)
  }

  /** The ids of an offer list, in order. */
  function OfferIds(offers: seq<Offer>): seq<string>
  {
    seq(|offers|, i requires 0 <= i < |offers| => offers[i].id)
  }

  /** A catalog object has each key once. */
  predicate DistinctTypes(catalog: seq<OfferGroup>)
  {
    forall i, j :: 0 <= i < j < |catalog| ==> catalog[i].eventType != catalog[j].eventType
  }

  /** Destination ids identify their entry. */
  predicate DistinctIds(destinations: seq<Destination>)
  {
    forall i, j :: 0 <= i < j < |destinations| ==> destinations[i].id != destinations[j].id
  }

  /**
   * `destinations.find(({id}) => id === ref)`: the first destination whose id is the
   * reference; a `null` reference (None) matches nothing.
   */
  function FindById(destinations: seq<Destination>, ref: Option<string>): (r: Option<Destination>)
    ensures r.None? <==> forall i :: 0 <= i < |destinations| ==> ref != Some(destinations[i].id)
    ensures r.Some? ==> exists i :: (0 <= i < |destinations| && destinations[i] == r.value &&
      ref == Some(r.value.id) && forall j :: 0 <= j < i ==> ref != Some(destinations[j].id))
  {
    Find(destinations, (d: Destination) => ref == Some(d.id))
  }

  /** `destinations.find(({name}) => name === typed)`: the first destination with exactly that name. */
  function FindByName(destinations: seq<Destination>, typed: string): (r: Option<Destination>)
    ensures r.None? <==> forall i :: 0 <= i < |destinations| ==> destinations[i].name != typed
    ensures r.Some? ==> exists i :: (0 <= i < |destinations| && destinations[i] == r.value &&
      r.value.name == typed && forall j :: 0 <= j < i ==> destinations[j].name != typed)
  {
    Find(destinations, (d: Destination) => d.name == typed)
  }

  /** With distinct keys, the list found for a type is the one stored under it. */
  lemma {:induction false} OffersForUnique(catalog: seq<OfferGroup>, k: nat)
    requires DistinctTypes(catalog) && k < |catalog|
    ensures OffersFor(catalog, catalog[k].eventType) == Some(catalog[k].offers)
  {
    var t := catalog[k].eventType;
    var p := (g: OfferGroup) => g.eventType == t;
    assert p(catalog[k]);
    var i := FirstIndex(catalog, p);
    assert catalog[i.value].eventType == t;
  }

  /** With distinct ids, every destination is the one found by its own id. */
  lemma {:induction false} FindByIdUnique(destinations: seq<Destination>, k: nat)
    requires DistinctIds(destinations) && k < |destinations|
    ensures FindById(destinations, Some(destinations[k].id)) == Some(destinations[k])
  {
    var r := FindById(destinations, Some(destinations[k].id));
    assert Some(destinations[k].id) == Some(destinations[k].id);
    var i :| 0 <= i < |destinations| && destinations[i] == r.value &&
      Some(destinations[k].id) == Some(r.value.id) &&
      forall j :: 0 <= j < i ==> Some(destinations[k].id) != Some(destinations[j].id);
    assert destinations[i].id == destinations[k].id;
  }
}
