/**
 * The text of the edit form: each template of the view spelled out over the
 * record `Markup` builds, with the template's literal text, line breaks and
 * indentation. Values are interpolated verbatim, without escaping.
 */
module Html {
  import opened Wrappers
  import opened Catalog
  import opened Records
  import opened Markup

  /** `parts.join('')`. */
  function Concat(parts: seq<string>): string
  {
    if |parts| == 0 then "" else parts[0] + Concat(parts[1..])
  }

  /** Joining two lists of fragments is joining each and concatenating the results. */
  lemma {:induction false} ConcatAppend(a: seq<string>, b: seq<string>)
    ensures Concat(a + b) == Concat(a) + Concat(b)
  {
    if |a| == 0 {
      assert a + b == b;
    } else {
      assert (a + b)[1..] == a[1..] + b;
      ConcatAppend(a[1..], b);
    }
  }

  /** Each fragment stands in the joined text right after all the fragments before it. */
  lemma ConcatAt(parts: seq<string>, i: nat)
    requires i < |parts|
    ensures Concat(parts) == Concat(parts[..i]) + parts[i] + Concat(parts[i + 1..])
  {
    assert parts == parts[..i] + parts[i..];
    ConcatAppend(parts[..i], parts[i..]);
    assert parts[i..][1..] == parts[i + 1..];
  }

  /** `getEventListItemTemplate`: one radio of the type selector with its label. */
  function TypeItemHtml(item: TypeItem): string
  {
    "<div class=\"event__type-item\">\n" +
    "      <input id=\"" + item.inputId + "\" class=\"event__type-input visually-hidden\" type=\"radio\" name=\"event-type\" value=\"" + item.value + "\">\n" +
    "      <label class=\"event__type-label  event__type-label--" + item.value + "\" for=\"" + item.inputId + "\">" + item.caption + "</label>\n" +
    "    </div>"
  }

  /** `getEventListTemplate`: the fieldset holding the type radios. */
  function TypeListHtml(items: seq<TypeItem>): string
  {
    "<div class=\"event__type-list\">\n" +
    "      <fieldset class=\"event__type-group\">\n" +
    "        <legend class=\"visually-hidden\">Event type</legend>\n" +
    "        " + Concat(seq(|items|, i requires 0 <= i < |items| => TypeItemHtml(items[i]))) + "\n" +
    "      </fieldset>\n" +
    "    </div>"
  }

  /** `getEventDestinationsListItemTemplate`: one suggestion of the destination input. */
  function DestinationOptionHtml(name: string): string
  {
    "<option value=\"" + name + "\"></option>"
  }

  /** `getEventDestinationsListTemplate`: the suggestion list of the destination input. */
  function DestinationListHtml(names: seq<string>): string
  {
    "<datalist id=\"destination-list\">\n" +
    "      " + Concat(seq(|names|, i requires 0 <= i < |names| => DestinationOptionHtml(names[i]))) + "\n" +
    "    </datalist>"
  }

  /** `getAvailableOfferTemplate`: one offer checkbox with its title and price. */
  function OfferHtml(item: OfferItem): string
  {
    "<div class=\"event__offer-selector\">\n" +
    "      <input class=\"event__offer-checkbox  visually-hidden\" id=\"" + item.id + "\" type=\"checkbox\" name=\"" + item.id + "\" " + (if item.checked then "checked" else "") + ">\n" +
    "      <label class=\"event__offer-label\" for=\"" + item.id + "\">\n" +
    "        <span class=\"event__offer-title\">" + item.title + "</span>\n" +
    "        &plus;&euro;&nbsp;\n" +
    "        <span class=\"event__offer-price\">" + item.price + "</span>\n" +
    "      </label>\n" +
    "    </div>"
  }

  /** `getAvailableOffersTemplate`: the offer checkboxes, in order. */
  function OffersHtml(items: seq<OfferItem>): string
  {
    "<div class=\"event__available-offers\">\n" +
    "      " + Concat(seq(|items|, i requires 0 <= i < |items| => OfferHtml(items[i]))) + "\n" +
    "    </div>"
  }

  /** `getEventPhotoTemplate`: one photo of the destination. */
  function PhotoHtml(picture: Picture): string
  {
    "<img class=\"event__photo\" src=\"" + picture.src + "\" alt=\"" + picture.description + "\">"
  }

  /** The `<img>` tags of the photo strip, one per picture, in order. */
  function PhotoTags(pictures: seq<Picture>): seq<string>
  {
    seq(|pictures|, i requires 0 <= i < |pictures| => PhotoHtml(pictures[i]))
  }

  /** The text of the photo strip before its `<img>` tags. */
  const PhotosOpen: string :=
    "<div class=\"event__photos-container\">\n" +
    "      <div class=\"event__photos-tape\">\n" +
    "      "

  /** The text of the photo strip after its `<img>` tags. */
  const PhotosClose: string :=
    "\n" +
    "      </div>\n" +
    "    </div>"

  /** `getEventPhotosTemplate`: the photo strip. */
  function PhotosHtml(pictures: seq<Picture>): string
  {
    PhotosOpen + Concat(PhotoTags(pictures)) + PhotosClose
  }

  /** The offers section, or nothing. */
  function OffersSectionHtml(section: Option<seq<OfferItem>>): string
  {
    match section
    case None => ""
    case Some(items) =>
      "<section class=\"event__section  event__section--offers\">\n" +
      "            <h3 class=\"event__section-title  event__section-title--offers\">Offers</h3>\n" +
      "\n" +
      "            " + OffersHtml(items) + "\n" +
      "          </section>"
  }

  /** The destination-detail section, or nothing. */
  function DestinationSectionHtml(section: Option<DestinationDetails>): string
  {
    match section
    case None => ""
    case Some(details) =>
      "<section class=\"event__section  event__section--destination\">\n" +
      "            <h3 class=\"event__section-title  event__section-title--destination\">Destination</h3>\n" +
      "            <p class=\"event__destination-description\">" + details.description + "</p>\n" +
      "\n" +
      "            " + PhotosHtml(details.pictures) + "\n" +
      "          </section>"
  }

  /** The text of `createCreateFormTemplate`: one list item holding the edit form. */
  function FormHtml(m: FormMarkup): string
  {
    "<li class=\"trip-events__item\">\n" +
    "      <form class=\"event event--edit\" action=\"#\" method=\"post\">\n" +
    "        <header class=\"event__header\">\n" +
    "          <div class=\"event__type-wrapper\">\n" +
    "            <label class=\"event__type  event__type-btn\" for=\"event-type-toggle\">\n" +
    "              <span class=\"visually-hidden\">Choose event type</span>\n" +
    "              <img class=\"event__type-icon\" width=\"17\" height=\"17\" src=\"img/icons/" + m.eventType + ".png\" alt=\"Event type icon\">\n" +
    "            </label>\n" +
    "            <input class=\"event__type-toggle  visually-hidden\" id=\"event-type-toggle\" type=\"checkbox\">\n" +
    "\n" +
    "            " + TypeListHtml(m.typeItems) + "\n" +
    "          </div>\n" +
    "\n" +
    "          <div class=\"event__field-group  event__field-group--destination\">\n" +
    "            <label class=\"event__label  event__type-output\" for=\"event-destination\">\n" +
    "              " + m.eventType + "\n" +
    "            </label>\n" +
    "            <input class=\"event__input  event__input--destination\" id=\"event-destination\" type=\"text\" name=\"event-destination\" value=\"" + m.destinationName + "\" list=\"destination-list\">\n" +
    "              " + DestinationListHtml(m.destinationOptions) + "\n" +
    "          </div>\n" +
    "\n" +
    "          <div class=\"event__field-group  event__field-group--time\">\n" +
    "            <label class=\"visually-hidden\" for=\"event-start-time\">From</label>\n" +
    "              <input class=\"event__input  event__input--time\" id=\"event-start-time\" type=\"text\" name=\"event-start-time\" value=\"" + m.startTime + "\">\n" +
    "              &mdash;\n" +
    "              <label class=\"visually-hidden\" for=\"event-end-time\">To</label>\n" +
    "              <input class=\"event__input  event__input--time\" id=\"event-end-time\" type=\"text\" name=\"event-end-time\" value=\"" + m.endTime + "\">\n" +
    "          </div>\n" +
    "\n" +
    "          <div class=\"event__field-group  event__field-group--price\">\n" +
    "            <label class=\"event__label\" for=\"event-price\">\n" +
    "              <span class=\"visually-hidden\">Price</span>\n" +
    "              &euro;\n" +
    "            </label>\n" +
    "            <input class=\"event__input  event__input--price\" id=\"event-price\" type=\"text\" name=\"event-price\" value=\"" + m.price + "\">\n" +
    "          </div>\n" +
    "\n" +
    "          <button class=\"event__save-btn  btn  btn--blue\" type=\"submit\">Save</button>\n" +
    "          <button class=\"event__reset-btn\" type=\"reset\">Cancel</button>\n" +
    "        </header>\n" +
    "        <section class=\"event__details\">\n" +
    "          " + OffersSectionHtml(m.offersSection) + "\n" +
    "\n" +
    "          " + DestinationSectionHtml(m.destinationSection) + "\n" +
    "        </section>\n" +
    "      </form>\n" +
    "    </li>"
  }

  /** `createCreateFormTemplate(state, allOffers, destinations)`, or the error it throws. */
  function CreateFormTemplate(s: State, allOffers: seq<OfferGroup>, destinations: seq<Destination>,
                              fmt: Formatters): (r: Result<string, TemplateError>)
    ensures r.Failure? <==> s.eventType !in EventTypes(allOffers)
    ensures r.Failure? ==> r.error == NoOfferList(s.eventType)
  {
    MapSuccess(FormTemplate(s, allOffers, destinations, fmt), FormHtml)
  }

  /**
   * The photo strip holds the `<img>` of picture `i` right after those of all
   * earlier pictures and before those of all later ones.
   */
  lemma PhotoInStrip(pictures: seq<Picture>, i: nat)
    requires i < |pictures|
    ensures PhotosHtml(pictures) == PhotosOpen + Concat(PhotoTags(pictures[..i])) + PhotoHtml(pictures[i]) +
      Concat(PhotoTags(pictures[i + 1..])) + PhotosClose
  {
    var tags := PhotoTags(pictures);
    ConcatAt(tags, i);
    assert tags[..i] == PhotoTags(pictures[..i]) by {
      assert forall k :: 0 <= k < i ==> tags[..i][k] == PhotoHtml(pictures[..i][k]);
    }
    assert tags[i + 1..] == PhotoTags(pictures[i + 1..]);
  }
}
