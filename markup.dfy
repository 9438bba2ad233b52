/**
 * What the edit form shows for a state: the sections of the markup and the
 * values interpolated into them, as a record. Every decision the templates
 * make (which sections appear, which offers are checked, in which order
 * things come, which defaults are shown) is taken here; `Html` only spells
 * the record out as text.
 */
module Markup {
  import opened Wrappers
  import opened Catalog
  import opened Decimal
  import opened Records

  /**
   * The two helpers the templates import from the utilities module, which is not
   * part of this model: `capitalize` and `getFormTimeString`. They are parameters.
   */
  datatype Formatters = Formatters(capitalize: string -> string, formTime: Option<Millis> -> string)

  /** One radio of the type selector: its input id, its value and its caption. */
  datatype TypeItem = TypeItem(inputId: string, value: string, caption: string)

  /** One offer checkbox: the offer's id, title and price text, and whether it is checked. */
  datatype OfferItem = OfferItem(id: string, title: string, price: string, checked: bool)

  /** The destination-detail section: the description and the photo strip. */
  datatype DestinationDetails = DestinationDetails(description: string, pictures: seq<Picture>)

  /** The whole form; an absent section is None. */
  datatype FormMarkup = FormMarkup(
    eventType: string,
    typeItems: seq<TypeItem>,
    destinationName: string,
    destinationOptions: seq<string>,
    startTime: string,
    endTime: string,
    price: string,
    offersSection: Option<seq<OfferItem>>,
    destinationSection: Option<DestinationDetails>)

  /**
   * The template cannot be built: `allOffers[type]` is undefined, so reading its
   * `length` or calling its `map` throws.
   */
  datatype TemplateError = NoOfferList(eventType: string)

  /** `event-type-<type>-<index>`, the id of a type radio and the target of its label. */
  function TypeInputId(t: string, index: nat): string
  {
    "event-type-" + t + "-" + NatToString(index)
  }

  /** `getEventListTemplate`: one radio per event type, in the order given, mapped with its index. */
  function EventTypeItems(types: seq<string>, fmt: Formatters): (items: seq<TypeItem>)
    ensures |items| == |types|
    ensures forall i :: 0 <= i < |types| ==>
      items[i].value == types[i] && items[i].inputId == TypeInputId(types[i], i) &&
      items[i].caption == fmt.capitalize(types[i])
  {
    seq(|types|, i requires 0 <= i < |types| => TypeItem(TypeInputId(types[i], i), types[i], fmt.capitalize(types[i])))
  }

  /** The options of the destination suggestion list: one per catalog entry, its name, in order. */
  function DestinationOptions(destinations: seq<Destination>): (names: seq<string>)
    ensures |names| == |destinations|
    ensures forall i :: 0 <= i < |destinations| ==> names[i] == destinations[i].name
  {
    seq(|destinations|, i requires 0 <= i < |destinations| => destinations[i].name)
  }

  /**
   * `getAvailableOffersTemplate`: one checkbox per offer, in catalog order, checked
   * exactly when the offer's id is among the selected ids.
   */
  function AvailableOffers(offers: seq<Offer>, selected: seq<string>): (items: seq<OfferItem>)
    ensures |items| == |offers|
    ensures forall i :: 0 <= i < |offers| ==>
      items[i].id == offers[i].id && items[i].title == offers[i].title &&
      items[i].price == IntToString(offers[i].price) &&
      (items[i].checked <==> offers[i].id in selected)
  {
    seq(|offers|, i requires 0 <= i < |offers| =>
      OfferItem(offers[i].id, offers[i].title, IntToString(offers[i].price), offers[i].id in selected))
  }

  /** `pictures || []`: the photos of the resolved destination, none when there is none. */
  function ShownPictures(active: Option<Destination>): (pictures: seq<Picture>)
    ensures active.None? ==> pictures == []
    ensures active.Some? ==> pictures == active.value.pictures
  {
    match active
    case None => []
    case Some(d) => d.pictures
  }

  /** `createCreateFormTemplate` as a record: the markup of the form for a state. */
  function FormTemplate(s: State, allOffers: seq<OfferGroup>, destinations: seq<Destination>,
                        fmt: Formatters): (r: Result<FormMarkup, TemplateError>)
    ensures r.Failure? <==> s.eventType !in EventTypes(allOffers)
    ensures r.Failure? ==> r.error == NoOfferList(s.eventType)
    ensures r.Success? ==> r.value.eventType == s.eventType
    ensures r.Success? ==> r.value.typeItems == EventTypeItems(EventTypes(allOffers), fmt)
    ensures r.Success? ==> r.value.destinationOptions == DestinationOptions(destinations)
    ensures r.Success? ==>
      r.value.startTime == fmt.formTime(s.dateFrom) && r.value.endTime == fmt.formTime(s.dateTo)
    ensures r.Success? ==>
      r.value.destinationName == (if s.activeDestination.Some? then s.activeDestination.value.name else "")
    ensures r.Success? ==>
      r.value.price == IntToString(if s.basePrice.Some? then s.basePrice.value else 0)
    ensures r.Success? ==>
      (r.value.offersSection.Some? <==> |OffersFor(allOffers, s.eventType).value| > 0)
    ensures r.Success? && r.value.offersSection.Some? ==>
      r.value.offersSection.value == AvailableOffers(OffersFor(allOffers, s.eventType).value, s.offers)
    ensures r.Success? ==> (r.value.destinationSection.Some? <==> s.activeDestination.Some?)
    ensures r.Success? && s.activeDestination.Some? ==>
      r.value.destinationSection.value ==
      DestinationDetails(s.activeDestination.value.description, s.activeDestination.value.pictures)
  {
    match OffersFor(allOffers, s.eventType)
    case None =>
      assert forall i :: 0 <= i < |allOffers| ==> EventTypes(allOffers)[i] != s.eventType;
      Failure(NoOfferList(s.eventType))
    case Some(offers) =>
      var i :| 0 <= i < |allOffers| && allOffers[i].eventType == s.eventType;
      assert EventTypes(allOffers)[i] == s.eventType;
      var details := match s.activeDestination
        case None => None
        case Some(d) => Some(DestinationDetails(d.description, ShownPictures(s.activeDestination)));
      Success(FormMarkup(
        s.eventType,
        EventTypeItems(EventTypes(allOffers), fmt),
        if s.activeDestination.Some? then s.activeDestination.value.name else "",
        DestinationOptions(destinations),
        fmt.formTime(s.dateFrom),
        fmt.formTime(s.dateTo),
        IntToString(if s.basePrice.Some? then s.basePrice.value else 0),
        if |offers| > 0 then Some(AvailableOffers(offers, s.offers)) else None,
        details))
  }

  /** The ids whose checkboxes are checked, in order: what submitting the form would read back. */
  function CheckedIds(items: seq<OfferItem>): seq<string>
  {
    if |items| == 0 then []
    else (if items[0].checked then [items[0].id] else []) + CheckedIds(items[1..])
  }

  /** The offer ids a form shows as checked: none when the offers section is absent. */
  function ShownSelection(m: FormMarkup): seq<string>
  {
    match m.offersSection
    case None => []
    case Some(items) => CheckedIds(items)
  }

  /** Exactly the selected ids that the offer list knows are shown as checked. */
  lemma {:induction false} CheckedIdsOfAvailableOffers(offers: seq<Offer>, selected: seq<string>)
    ensures forall id :: id in CheckedIds(AvailableOffers(offers, selected)) <==>
      id in selected && id in OfferIds(offers)
  {
    if |offers| > 0 {
      CheckedIdsOfAvailableOffers(offers[1..], selected);
      var items := AvailableOffers(offers, selected);
      assert items[1..] == AvailableOffers(offers[1..], selected);
      assert OfferIds(offers) == [offers[0].id] + OfferIds(offers[1..]);
    }
  }

  /**
   * When every selected offer belongs to the current type's list, the form shows as
   * checked exactly the selected offers.
   */
  lemma FormShowsSelection(s: State, allOffers: seq<OfferGroup>, destinations: seq<Destination>,
                           fmt: Formatters)
    requires OffersFit(s, allOffers)
    requires FormTemplate(s, allOffers, destinations, fmt).Success?
    ensures forall id :: id in ShownSelection(FormTemplate(s, allOffers, destinations, fmt).value) <==>
      id in s.offers
  {
    var offers := OffersFor(allOffers, s.eventType).value;
    CheckedIdsOfAvailableOffers(offers, s.offers);
    if |offers| == 0 {
      assert OfferIds(offers) == [];
    }
  }

  /** The text `-digits` ends the string, and its dash precedes only digits. */
  lemma DashBeforeDigits(prefix: string, digits: string)
    requires AllDigits(digits)
    ensures var x := prefix + "-" + digits;
      x[|x| - |digits| - 1] == '-' && x[|x| - |digits|..] == digits &&
      forall k :: |x| - |digits| <= k < |x| ==> IsDigit(x[k])
  {
  }

  /** A type radio's id determines both the type and the index it was built from. */
  lemma TypeInputIdInjective(t1: string, i1: nat, t2: string, i2: nat)
    requires TypeInputId(t1, i1) == TypeInputId(t2, i2)
    ensures t1 == t2 && i1 == i2
  {
    var s1, s2 := NatToString(i1), NatToString(i2);
    var x := TypeInputId(t1, i1);
    DashBeforeDigits("event-type-" + t1, s1);
    DashBeforeDigits("event-type-" + t2, s2);
    assert |s1| == |s2|;
    assert s1 == s2;
    NatToStringInjective(i1, i2);
    assert t1 == x[11..11 + |t1|];
    assert t2 == x[11..11 + |t2|];
  }

  /** No two radios of the type selector share an id. */
  lemma TypeInputIdsDistinct(types: seq<string>, fmt: Formatters)
    ensures forall i, j :: 0 <= i < j < |types| ==>
      EventTypeItems(types, fmt)[i].inputId != EventTypeItems(types, fmt)[j].inputId
  {
    var items := EventTypeItems(types, fmt);
    forall i, j | 0 <= i < j < |types|
      ensures items[i].inputId != items[j].inputId
    {
      if items[i].inputId == items[j].inputId {
        TypeInputIdInjective(types[i], i, types[j], j);
      }
    }
  }
}
