/**
 * The edit form as an object: it keeps the two catalogs it was built with and
 * its current state; its type and destination handlers rewrite the state
 * through `updateElement`, after which the form's markup is that of the new state.
 */
module CreateFormView {
  import opened Wrappers
  import opened Catalog
  import opened Records
  import opened Markup
  import opened Html
  import Decimal

  /** The rejection of a destination name that names no catalog entry. */
  datatype ChangeError = UnknownDestination(name: string)

  class CreateForm {
    const allOffers: seq<OfferGroup>
    const destinations: seq<Destination>
    var state: State

    /**
     * The state's resolved destination agrees with its destination id, and every
     * selected offer is one the current type offers.
     */
    ghost predicate Valid()
      reads this
    {
      Consistent(state, destinations) && OffersFit(state, allOffers)
    }

    /** A new form starts from the initial point, resolved against the destination catalog. */
    constructor (allOffers: seq<OfferGroup>, destinations: seq<Destination>)
      ensures Valid()
      ensures this.allOffers == allOffers && this.destinations == destinations
      ensures state == ParsePointToState(InitialPoint(), destinations)
      ensures state.eventType == "taxi" && state.offers == [] && state.activeDestination.None?
    {
      this.allOffers := allOffers;
      this.destinations := destinations;
      state := ParsePointToState(InitialPoint(), destinations);
      new;
      ParsedStateConsistent(InitialPoint(), destinations);
    }

    /** The `template` getter: the form's text for its current state. */
    function Template(fmt: Formatters): (r: Result<string, TemplateError>)
      reads this
      ensures r.Failure? <==> state.eventType !in EventTypes(allOffers)
      ensures r.Failure? ==> r.error == NoOfferList(state.eventType)
    {
      CreateFormTemplate(state, allOffers, destinations, fmt)
    }

    /** `updateElement(update)`: merge the partial record into the state, then re-render. */
    method UpdateElement(update: Patch)
      requires Consistent(Merge(state, update), destinations) && OffersFit(Merge(state, update), allOffers)
      modifies this
      ensures Valid()
      ensures state == Merge(old(state), update)
    {
      state := Merge(state, update);
    }

    /**
     * The type radio's change handler: a different type replaces the type and clears
     * the selected offers; the type already chosen changes nothing.
     */
    method ChangeType(newType: string)
      requires Valid()
      modifies this
      ensures Valid()
      ensures old(state).eventType != newType ==> state == old(state).(eventType := newType, offers := [])
      ensures old(state).eventType == newType ==> state == old(state)
    {
      if state.eventType != newType {
        UpdateElement(Patch(Some(newType), None, None, None, None, None, Some([])));
      }
    }

    /**
     * The destination input's change handler: the first catalog entry with exactly the
     * typed name becomes the destination; a name that matches no entry is rejected and
     * the state stays as it was.
     */
    method ChangeDestination(name: string) returns (outcome: Outcome<ChangeError>)
      requires Valid()
      modifies this
      ensures Valid()
      ensures outcome.Fail? <==> forall i :: 0 <= i < |destinations| ==> destinations[i].name != name
      ensures outcome.Fail? ==> outcome.error == UnknownDestination(name) && state == old(state)
      ensures outcome.Pass? ==> exists i :: (0 <= i < |destinations| &&
        (forall j :: 0 <= j < i ==> destinations[j].name != name) &&
        destinations[i].name == name &&
        state == old(state).(destination := Some(destinations[i].id), activeDestination := Some(destinations[i])))
    {
      match FindByName(destinations, name)
      case None =>
        outcome := Fail(UnknownDestination(name));
      case Some(d) =>
        UpdateElement(Patch(None, None, None, Some(Some(d.id)), Some(Some(d)), None, None));
        outcome := Pass;
    }
  }

  /** The catalogs of the walk-through: no taxi offers, one bus offer, and Paris. */
  function WalkOffers(): seq<OfferGroup>
  {
    [OfferGroup("taxi", []), OfferGroup("bus", [Offer("o1", "Seat", 5)])]
  }

  function Paris(): Destination
  {
    Destination("d1", "Paris", "City", [])
  }

  /**
   * A walk through the type selector: a taxi with no offers shows no offers section;
   * switching to the bus shows its one offer, unchecked.
   */
  method WalkthroughType(fmt: Formatters)
  {
    var form := new CreateForm(WalkOffers(), [Paris()]);
    assert FormTemplate(form.state, form.allOffers, form.destinations, fmt).value.offersSection.None? by {
      OffersForUnique(form.allOffers, 0);
    }

    form.ChangeType("bus");
    assert form.state.eventType == "bus" && form.state.offers == [];
    assert FormTemplate(form.state, form.allOffers, form.destinations, fmt).value.offersSection ==
      Some([OfferItem("o1", "Seat", "5", false)]) by {
      OffersForUnique(form.allOffers, 1);
      assert Decimal.IntToString(5) == "5";
      assert AvailableOffers([Offer("o1", "Seat", 5)], []) == [OfferItem("o1", "Seat", "5", false)];
    }
  }

  /**
   * A walk through the destination input, on the bus: choosing Paris shows its
   * description; an unknown name is rejected and the markup stays as it was.
   */
  method WalkthroughDestination(fmt: Formatters)
  {
    var form := new CreateForm(WalkOffers(), [Paris()]);
    form.ChangeType("bus");
    var outcome := form.ChangeDestination("Paris");
    assert outcome.Pass? && form.state.activeDestination == Some(Paris()) by {
      assert form.destinations[0].name == "Paris";
    }
    var before := FormTemplate(form.state, form.allOffers, form.destinations, fmt);
    assert before.Success? && before.value.destinationSection == Some(DestinationDetails("City", [])) by {
      OffersForUnique(form.allOffers, 1);
    }

    outcome := form.ChangeDestination("Nowhere");
    assert outcome.Fail?;
    assert FormTemplate(form.state, form.allOffers, form.destinations, fmt) == before;
  }
}
