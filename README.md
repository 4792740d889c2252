# Geolocation pre-selection for forms, in Dafny

This project models the `Geolocation` component of a form-rendering front end
(`src/Blocks/components/form/assets/geolocation.js`). When a form has finished
loading, the component reads the visitor's country code from the
`esForms-country` cookie. It then pre-selects, in every `select`, `country` and
`phone` field of that form, the first option whose custom data carries that
code. Besides that, it registers and removes its form-loaded listener on the
window, and it publishes its methods once under the window's shared namespace.

Files and modules:

- `wrappers.dfy` (`Wrappers`): `Option`, standing for JavaScript's missing
  values and the `??` operator.
- `choices.dfy` (`Choices`): the choices data of a field, ASCII lower-casing,
  and the first-match lookup `getSelectSelectedValueByCustomData`.
- `updates.dfy` (`Updates`): the form-loaded handler as a pure function
  `Handle`. It maps the cookie jar and the form's fields to the ordered list of
  calls made into the field-update API (`setManualSelectValue`,
  `setManualPhoneValue`). The file also holds the lemmas about that list.
- `geolocation.dfy` (`Geolocation`): the `Window` (its listener registry and
  its `geolocation` namespace slot) and the class `Geolocation`. The class has
  `InitOne`, `RemoveEvents`, `PublicMethods` and the handler method
  `OnSetSelectField`. The handler runs the source's two loops
  (`SetSelectFields`, `SetPhoneFields`) and is proved to return exactly
  `Handle`'s list.

Points of the code's behaviour the model keeps:

- The handler stops when the cookie is absent or present but empty
  (`!countryCookie`).
- `initOne` and `removeEvents` take a form id but never use it. The published
  wrapper calls `initOne()` with no argument. So registration is per
  component, not per form.
- The DOM keeps one registration per event name and callback. Calling `initOne`
  twice registers the handler once, and the registry is modelled as a set.
- The component reads the form state at every call, not once. `InitOne`,
  `RemoveEvents` and `OnSetSelectField` therefore each take the state's
  current answers (`Store`) as a parameter.

## Model

| member | source | states |
|---|---|---|
| Choices.AsciiLower | src/Blocks/components/form/assets/geolocation.js:70 | lower-casing keeps the length, leaves no upper-case ASCII letter, keeps every other character and maps each capital to its small letter |
| Choices.FirstTagged | src/Blocks/components/form/assets/geolocation.js:123 | `find`'s scan: the index returned is tagged and no earlier entry is tagged; when there is none, no entry is tagged |
| Choices.SelectedByCustomData | src/Blocks/components/form/assets/geolocation.js:122-124 | the lookup is absent when `choices`, `config` or `config.choices` is missing, and whatever it finds carries the code under the attribute |
| Choices.SelectedIsFirstTagged | src/Blocks/components/form/assets/geolocation.js:122-124 | the lookup finds an option iff the list exists and some entry is tagged with the code (`===`); the option found is a list entry and no earlier entry is tagged |
| Choices.UpperCaseTagNeverSelected | src/Blocks/components/form/assets/geolocation.js:123 | since the cookie is lower-cased, an option whose tag holds an upper-case letter is never found |
| Updates.CountryCode | src/Blocks/components/form/assets/geolocation.js:70 | the code is present iff the `esForms-country` cookie is; it is the cookie with each character lower-cased (same length, no upper-case letter left) |
| Updates.CallFor | src/Blocks/components/form/assets/geolocation.js:79-93 | one iteration makes exactly one call when the field's lookup finds an option and none otherwise; the call targets that form and field, and its kind follows the field group |
| Updates.Handle | src/Blocks/components/form/assets/geolocation.js:68-74 | no call at all when the cookie is absent or empty |
| Updates.FieldCallsAppend | src/Blocks/components/form/assets/geolocation.js:76-79 | iterating over the spread of the select and country lists makes the select calls followed by the country calls |
| Updates.FieldCallsSnoc | src/Blocks/components/form/assets/geolocation.js:79-94 | one more iteration appends the calls of one more field |
| Updates.FieldCallsFollowFields | src/Blocks/components/form/assets/geolocation.js:79-93 | a group's calls target exactly its matching fields, in field-list order, and each call is the one its field's lookup result yields |
| Updates.MatchingFieldsCount | src/Blocks/components/form/assets/geolocation.js:84-86 | a field name is targeted as often as it is listed when its lookup finds an option, and never otherwise |
| Updates.MatchingFieldsWithin | src/Blocks/components/form/assets/geolocation.js:84-86 | only listed fields whose lookup finds an option are targeted |
| Updates.FieldCallsKind | src/Blocks/components/form/assets/geolocation.js:87-108 | select and country fields get select updates only, phone fields phone updates only |
| Updates.HandleGroups | src/Blocks/components/form/assets/geolocation.js:76-110 | with a cookie, the calls are the select fields' calls, then the country fields', then the phone fields', each group in list order and one per matching field |
| Updates.SelectCallsPrecedePhoneCalls | src/Blocks/components/form/assets/geolocation.js:76-110 | no select update ever follows a phone update |
| Updates.CallsPassFoundOption | src/Blocks/components/form/assets/geolocation.js:86-108 | each call is for the event's form and passes the found option: a one-element list `{value ?? '', meta ?? {}}` for select and country, and `{prefix: value ?? '', value: '', meta}` for phone |
| Updates.CallsCarryCountryCode | src/Blocks/components/form/assets/geolocation.js:82-92 | every call's `meta` maps the country-code attribute to the lower-cased cookie |
| Updates.NoMatchNoCalls | src/Blocks/components/form/assets/geolocation.js:84-86 | when no field's lookup finds an option, no call is made |
| Updates.ScenarioUnitedStates | src/Blocks/components/form/assets/geolocation.js:68-111 | cookie "US" and options tagged "gb"/"us": the select field gets `+1`, then the phone field gets prefix `+1` with an empty number |
| Updates.ScenarioNoCountry | src/Blocks/components/form/assets/geolocation.js:68-111 | cookie "zz" tagged on no option: no call |
| Geolocation.Geolocation.constructor | src/Blocks/components/form/assets/geolocation.js:8-16 | constructing a component publishes it unless an entry is already there, and registers no listener |
| Geolocation.Geolocation.InitOne | src/Blocks/components/form/assets/geolocation.js:27-38 | registers (form-loaded event, this handler) when the state, read at the call, says geolocation is used; otherwise the registry is unchanged |
| Geolocation.Geolocation.RemoveEvents | src/Blocks/components/form/assets/geolocation.js:50-55 | removes exactly the (form-loaded event as read at the call, this handler) registration; nothing changes when it was not registered |
| Geolocation.Geolocation.OnSetSelectField | src/Blocks/components/form/assets/geolocation.js:68-111 | the two `forEach` loops return exactly `Handle`'s call list for the event's form, the cookie jar and the form's fields |
| Geolocation.SetSelectFields | src/Blocks/components/form/assets/geolocation.js:76-94 | the `forEach` over the select and country fields returns exactly their calls (`FieldCalls` for the select-like group) |
| Geolocation.SetPhoneFields | src/Blocks/components/form/assets/geolocation.js:96-110 | the `forEach` over the phone fields returns exactly their calls (`FieldCalls` for the phone group) |
| Geolocation.Geolocation.PublicMethods | src/Blocks/components/form/assets/geolocation.js:135-153 | installs this component under `geolocation` only if the slot is empty and never overwrites an existing entry |

## Left out

- Browser event dispatch: the model records which (event name, handler) pairs are registered. It does not model how the window calls a listener.
- The `window?.` guard for a missing window: the model always has a window.
- The published namespace entry is modelled as the component that installed it. Its three wrapper functions only forward to that component's methods.
- `setStateWindow` and the `prefix` constant come from `state-init`, which is not part of this model. The namespace slot `window[prefix].geolocation` is taken to exist.
- The cookie helper becomes a map from cookie names to values (the cookie jar) passed as input.
- The form state is an input, passed to each method at each call. `Store` holds its answers: whether geolocation is used, the form-loaded event name, and the country-code attribute name. `FormFields` holds the field lists and custom data for the event's form.
- `setManualSelectValue` and `setManualPhoneValue` change external state. They are modelled only as the recorded calls with their arguments.
- Choices.AsciiLower: `toLocaleLowerCase` is locale-dependent and covers all of Unicode. The model lower-cases only the ASCII letters A to Z.
- Custom property values are modelled as strings only. A non-string value is never `===` to the cookie string, so matching is unaffected. The `meta` passed along would, however, carry such a value, and the model does not represent it.
- An option's `value` is modelled as an optional string. A non-string value is not represented.
- A missing or malformed `event.detail`, which would throw in the source, is not modelled. The event carries a form id.
- The unused `formId` parameters of `initOne` and `removeEvents` are left out, because neither method reads them.
