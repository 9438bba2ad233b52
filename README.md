# Event edit form of the trip planner, in Dafny

This project models the event-editing form of a trip-planning page: the view
`createForm` in `src/view/createFormView.js`. The form is built against two
read-only catalogs. The offer catalog maps each event type to its ordered list
of offers `{id, title, price}`. The destination catalog is an ordered list of
destinations `{id, name, description, pictures}`. The form keeps one editable
state, shows it as HTML, and rewrites it when the user picks another event type
or types a destination name.

The model has three parts.

- **Markup.** `Markup.FormTemplate` computes, for a state and the two catalogs,
  a record of what the form shows: the type radios, the destination input and
  its suggestions, the times, the price, and the two optional sections (offers,
  destination detail). Every choice the templates make is taken here.
  `Html` spells that record out with the templates' literal text, one function
  per template (`TypeItemHtml` for `getEventListItemTemplate`, …,
  `FormHtml` for `createCreateFormTemplate`), and `Html.CreateFormTemplate`
  composes the two.
- **State and record translation.** `Records.ParsePointToState` and
  `Records.ParseStateToPoint` translate between a stored point (destination
  kept as an id) and the form's state (with the resolved `activeDestination`).
- **Edit state machine.** Class `CreateFormView.CreateForm` holds the catalogs
  and the state. Its constructor starts from the initial taxi point.
  `UpdateElement` is the shallow, last-write-wins merge of a partial record.
  `ChangeType` and `ChangeDestination` are the two change handlers. Its
  invariant `Valid()` says that the resolved destination agrees with the
  destination id, and that every selected offer belongs to the current type's
  list. `CreateFormView.WalkthroughType` and
  `CreateFormView.WalkthroughDestination` are verified clients: a taxi form
  with no taxi offers, switched to the bus and then to Paris, with an unknown
  name rejected at the end.

Supporting modules: `Catalog` (the catalogs and the `find` lookups),
`Decimal` (how an integral number appears inside a template literal),
`Wrappers` (Option, Result, Outcome).

`capitalize` and `getFormTimeString` come from a utilities module that is not
part of this model. They are parameters of the markup functions (`Formatters`).

## Model

| member | source | states |
|---|---|---|
| Catalog.FirstIndex | src/view/createFormView.js:227 | the index found is the first whose element satisfies the predicate; none is found exactly when no element does |
| Catalog.FindByName | src/view/createFormView.js:227 | the destination found for a typed name is the first catalog entry whose name is exactly that text; none is found exactly when no entry has that name |
| Catalog.FindById | src/view/createFormView.js:237 | the destination found for a reference is the first entry with that id; a null reference or an unknown id finds none |
| Catalog.Find | src/view/createFormView.js:237 | `find` yields the first element satisfying the predicate, and nothing exactly when no element does |
| Catalog.OffersFor | src/view/createFormView.js:92 | `allOffers[type]` is absent exactly when no catalog key equals the type; a present list is the one of the first group with that key |
| Catalog.OffersForUnique | src/view/createFormView.js:101 | with distinct keys, looking up the k-th key yields the k-th list |
| Catalog.FindByIdUnique | src/view/createFormView.js:237 | with distinct ids, looking up a destination's own id yields that destination |
| Decimal.NatToString | src/view/createFormView.js:8 | a number interpolated into a template is a non-empty run of digits without a leading zero |
| Decimal.DigitsValueOfNatToString | src/view/createFormView.js:8 | reading the rendered digits back gives the number (the radio index) |
| Decimal.NatToStringInjective | src/view/createFormView.js:9 | distinct indexes render as distinct texts |
| Decimal.IntToStringRoundTrip | src/view/createFormView.js:46 | a rendered price (possibly negative) reads back as the same number |
| Records.ParsePointToState | src/view/createFormView.js:234-239 | keeps every field of the point (stripping the result gives the point back) and sets `activeDestination` to the first destination whose id equals the point's destination, or leaves it absent when there is none |
| Records.ParsedStateConsistent | src/view/createFormView.js:234-239 | a state produced from a point has a resolved destination that agrees with its destination id |
| Records.ConsistentIffResolved | src/view/createFormView.js:237 | with distinct ids, a state is consistent exactly when its resolved destination is the one the id resolves to |
| Records.StateRoundTrip | src/view/createFormView.js:241-247 | removing `activeDestination` and resolving again gives the state back exactly when the state is consistent (distinct ids) |
| Records.Merge | src/view/createFormView.js:228-231 | each field present in the partial record replaces the state's field; every absent field keeps its value |
| Records.MergeEmpty | src/view/createFormView.js:217-220 | merging an empty partial record changes nothing |
| Records.MergeLastWriteWins | src/view/createFormView.js:217-220 | two merges in a row equal one merge in which the later record's fields win |
| Markup.EventTypeItems | src/view/createFormView.js:5-23 | one radio per catalog key, in key order, with value the key, caption its capitalisation and id `event-type-<type>-<index>` |
| Markup.TypeInputIdInjective | src/view/createFormView.js:8 | a radio id determines the type and the index it was built from |
| Markup.TypeInputIdsDistinct | src/view/createFormView.js:19 | no two radios of the type selector share an id |
| Markup.DestinationOptions | src/view/createFormView.js:25-35 | one suggestion per catalog destination, its name, in catalog order |
| Markup.AvailableOffers | src/view/createFormView.js:37-64 | one checkbox per offer of the list, in catalog order, with its id, title and price; checked exactly when its id is among the selected ids |
| Markup.ShownPictures | src/view/createFormView.js:94-104 | the photos shown are the resolved destination's pictures, and none when no destination is resolved |
| Markup.FormTemplate | src/view/createFormView.js:80-164 | fails exactly when the state's type is not a catalog key; otherwise the offers section is present iff the type's list is non-empty, the destination section (description and pictures in order) is present iff `activeDestination` is, the destination input shows its name or empty text and the price input shows the base price or 0 |
| Markup.CheckedIdsOfAvailableOffers | src/view/createFormView.js:52-64 | the ids shown as checked are exactly the selected ids that the offer list contains |
| Markup.FormShowsSelection | src/view/createFormView.js:148-152 | when every selected offer belongs to the current type's list, the form shows exactly the selected offers as checked |
| Html.CreateFormTemplate | src/view/createFormView.js:80-164 | the form's text can be built exactly when the state's type is a catalog key; otherwise the error names the type |
| Html.ConcatAppend | src/view/createFormView.js:70 | joining two lists of fragments is joining each and concatenating |
| Html.ConcatAt | src/view/createFormView.js:56-61 | in a joined list each fragment stands right after all earlier fragments |
| Html.PhotoInStrip | src/view/createFormView.js:66-78 | the photo strip holds the `<img>` of picture i between those of the earlier and the later pictures |
| CreateFormView.CreateForm.constructor | src/view/createFormView.js:170-187 | the form keeps both catalogs and starts from the taxi point with no dates, destination, price or offers, resolved against the destinations; the invariant holds |
| CreateFormView.CreateForm.Template | src/view/createFormView.js:189-195 | the form's text for its current state, which fails exactly when the current type is not a catalog key |
| CreateFormView.CreateForm.UpdateElement | src/view/createFormView.js:217-220 | the new state is the old state merged with the partial record; callers pass records whose merge keeps the invariant, and it holds afterwards |
| CreateFormView.CreateForm.ChangeType | src/view/createFormView.js:213-222 | a different type sets the type and empties the selected offers, nothing else changes; the same type changes nothing; the invariant is kept |
| CreateFormView.CreateForm.ChangeDestination | src/view/createFormView.js:224-232 | a name matching some destination sets the destination id and `activeDestination` to the first exact match and changes nothing else; an unmatched name is rejected with the state unchanged; the invariant is kept |

## Left out

- CreateFormView.CreateForm.ChangeDestination: the source throws on a name that matches no destination (it reads `.id` of `undefined`, line 229); the model rejects the name with `Fail(UnknownDestination(name))` and leaves the state unchanged.
- Records.ParseStateToPoint has no row of its own: it is a projection that drops `activeDestination`, and what it promises is stated by `Records.ParsePointToState` (stripping gives the point back) and `Records.StateRoundTrip`.
- Html.TypeItemHtml, Html.TypeListHtml, Html.DestinationOptionHtml, Html.DestinationListHtml, Html.OfferHtml, Html.OffersHtml, Html.PhotoHtml, Html.PhotosHtml and Html.FormHtml have no rows: they are the templates of lines 5-164 written out as literal text over the markup record and carry no contract. Every decision they show is proved on `Markup.FormTemplate`; the only text-level facts proved are `Html.ConcatAt` and `Html.PhotoInStrip`.
- DOM handling in `createForm` is not modelled: `this.element`, `querySelector`, `addEventListener`, `preventDefault` and `#formSubmit` (lines 197-211). They have no data behaviour.
- The framework class `AbstractStatefulView` is not part of this model. Its element creation and replacement, and the render utility with its container errors, are left out. Only the merge seen at the two `updateElement` call sites is modelled. The markup after an update is `CreateForm.Template`, a function of the new state.
- `capitalize` and `getFormTimeString` are not part of this model. They are opaque function parameters.
- `src/presenter/trip-info-presenter.js` is left out. It only renders another view once into a fixed container.
- Escaping and HTML well-formedness are not modelled. Values are interpolated verbatim, as in the source. For that reason the section properties are stated on the markup record, not as substring facts about the text: an offer title may itself contain a section's class name.
- Html.CreateFormTemplate: its contract covers only when the text can be built. It is `FormTemplate` followed by `FormHtml`, and the section properties are stated on `FormTemplate`.
- Numbers are modelled as integers. Fractional prices, `NaN` (which `basePrice || 0` also turns into 0) and the exponent form JavaScript uses for very large numbers are not modelled.
- Dates are millisecond timestamps (`Records.Millis`). Only `getFormTimeString` looks at them.
- `Object.keys` order: JavaScript lists keys that look like array indexes first, in ascending order. The model takes the catalog's key order as given.
- The constructor's initial literal also carries `activeDestination: null`, which `parsePointToState` overwrites. The model's `Point` has no such field, so the point round trip is stated for points without it.
- The constructor renders the element while binding handlers (line 186). That render throws when `taxi` is not a catalog key. The model's constructor does not render; `Template` returns the `NoOfferList` error instead.
- Checking an offer checkbox has no handler in the source, so selected offers are only ever cleared. Nothing in the model adds to them.
