# YouCan Auto Location — a Dafny model

YouCan Auto Location adds a "detect my location" button to a YouCan store's
checkout page. The button reads the device position and sends it to the
plugin's server. The server reverse-geocodes the position through
OpenStreetMap Nominatim, or through geocode.maps.co when that fails. The widget
then fills the shipping-address fields with the result.

This project models the two parts of that round trip that hold the logic:

- **`Geocode`** (`geocode.dfy`): the `POST /api/geocode` handler. It rejects
  coordinates that are falsy or not numeric with 400, and clamps latitude to
  [-90, 90] and longitude to [-180, 180]. It maps Nominatim's address
  vocabulary into eight components, each taken from the first non-empty of its
  provider keys. Any exception on the primary path sends it to the backup
  provider, which yields a narrower five-component record with the unclamped
  request coordinates. When the backup fails too, the answer is 500 with
  `manualEntry`. Each provider call is a parameter: it either failed or
  returned a parsed body in which `address` and `display_name` may be missing.
  Request values are `RawCoord`: absent, a JSON number, a numeric string, or
  something non-numeric. A numeric 0 is rejected while the string "0" is
  accepted.
- **`Dom`** (`dom.dfy`): the host page. `querySelector` answers are a fixed map
  from selector text to element. Control values are a mutable map. A run of
  assignments is a list of writes, applied in order.
- **`Autofill`** (`autofill.dfy`): what `fillAddress` writes. The six-entry
  field map is walked in order, and each rule with a value writes into the
  first element found under one of its names. After that, the formatted
  address goes into the first full-address field. The result is the list of
  planned writes, and its length is the `filledFields` count.
- **`Widget`** (`widget.dfy`): the `YouCanLocationWidget` class served as
  `/widget.js`. It covers language detection, the shipping-form lookup, the
  `getPosition` error mapping, the client's checks on the server reply, and
  `fillAddress` as methods over the page. The `detectLocation` controller uses
  `isLoading`, `retryAttempts`, the message shown and the retries scheduled
  with `setTimeout`. The async `detectLocation` is split at its awaits into
  `DetectLocation` (up to the first await) and `CompleteDetection` (the try,
  catch and finally once the position and reply are known). `RetryTimerFires`
  is the retry timer's callback. Every method states its new state as a pure
  step function (`Enter`, `Settle`, `Fire`, `PlannedWrites`), and the lemmas
  are proved about those functions.

Where its behaviour may surprise a reader, the model follows the code:

- the retry counter is reset on every entry to `detectLocation`, so retries never end;
- the full-address field is written even when structured fields were filled;
- fields are searched in the whole document, not inside the shipping form;
- the backup path returns unclamped coordinates;
- the widget never clamps the coordinates it sends;
- a failed attempt shows the generic error message, never the permission, timeout or unavailable text that `getPosition` rejected with.

## Model

| member | source | states |
|---|---|---|
| Geocode.Clamp | backend/server.js:177-178 | the result lies in [lo, hi]; it is the input when the input is in range, lo below it and hi above it |
| Geocode.FirstNonEmpty | backend/server.js:209-216 | `a[k0] \|\| a[k1] \|\| … \|\| ""`: empty exactly when every key is empty or absent, otherwise the value of the earliest non-empty key |
| Geocode.UpperAscii | backend/server.js:215 | upper-casing keeps the length, turns each lower-case ASCII letter into its upper-case letter, leaves every other character unchanged, and so leaves no lower-case letter |
| Geocode.PrimaryComponents | backend/server.js:206-217 | the primary record has exactly the eight components; each but countryCode is the first non-empty of its Nominatim keys; countryCode is the upper-cased `country_code`, has no lower-case letter, and is empty exactly when `country_code` is |
| Geocode.PrimaryAddress | backend/server.js:203-225 | the primary path yields an address exactly when the body has both `address` and `display_name` (otherwise reading them throws); the address carries `display_name`, the primary components and the clamped coordinates |
| Geocode.BackupComponents | backend/server.js:255-267 | the backup record has exactly address1, city, country, state and zip; city is city or else town, and the others are one key each |
| Geocode.Backup | backend/server.js:234-291 | the catch block succeeds exactly when the backup answered with a non-empty `display_name`, with source geocode.maps, `display_name` as the text, the backup mapping of `address` (or of `{}` when it is missing) as the components, and the parsed unclamped request values; otherwise it answers 500 with the request's raw lat and lng |
| Geocode.HandleGeocode | backend/server.js:165-294 | 400 exactly when lat or lng fails the falsy-or-NaN check; a 500 carries the raw request coordinates; a success names one of the two providers; a primary success has coordinates within range |
| Geocode.InvalidNeverConsultsProviders | backend/server.js:169-174 | invalid coordinates get the same 400 non-success answer whatever either provider would have done |
| Geocode.ZeroIsRejectedOnlyAsNumber | backend/server.js:169 | a numeric 0 in either coordinate is rejected, while the string "0" is accepted |
| Geocode.PrimarySuccess | backend/server.js:177-232 | when the primary body has `address` and `display_name`, the answer is 200 from openstreetmap with that address, the eight components and the clamped coordinates, whatever the backup would do |
| Geocode.InRangeCoordinatesUnchanged | backend/server.js:177-178 | non-zero in-range coordinates come back unchanged on the primary path |
| Geocode.OutOfRangeActsAsCorner | backend/server.js:177-178 | on the primary path a request for (999, -400) is answered exactly like one for (90, -180) |
| Geocode.BackupKeepsOutOfRangeValues | backend/server.js:268-271 | on the backup path a request for (999, -400) comes back with coordinates 999 and -400 |
| Geocode.BackupAfterPrimaryThrows | backend/server.js:234-275 | whenever the primary path throws, the answer is the backup's; on success it has source geocode.maps, `display_name` as the text, the backup mapping of `address` as the components and the parsed request values |
| Geocode.TotalFailure | backend/server.js:279-291 | both providers failing gives 500, `manualEntry` and the raw request coordinates, and no success |
| Geocode.PrimaryPriority | backend/server.js:209-216 | a component is taken from the earliest of its keys that is non-empty |
| Geocode.CityBeatsTown | backend/server.js:211 | with both `city` and `town` present, the city component is `city` |
| Dom.FirstMatch | backend/server.js:911-916 | trying selectors in order gives null exactly when none matches, and otherwise the element of the earliest one that matches |
| Dom.FirstMatchAt | backend/server.js:911-916 | when selector k is the first that matches, the lookup answers with its element |
| Dom.Apply | backend/server.js:1287 | performing writes keeps every element that already had a value |
| Dom.ApplyStep | backend/server.js:1287 | one more write changes only its own element |
| Dom.ApplyLastWins | backend/server.js:1287 | the last write to an element decides its final value |
| Dom.ApplyUntouched | backend/server.js:1287 | an element no write touches keeps its value |
| Dom.ApplyTwice | backend/server.js:1287 | performing the same writes twice leaves the values performing them once left |
| Dom.LastWriteExists | backend/server.js:1287 | every element written to has a last write |
| Autofill.FieldRules | backend/server.js:1263-1270 | six rules in order, each with at least three candidate names; the values are address1, address2, city, state, zip, and countryCode if non-empty, else country |
| Autofill.RuleWrites | backend/server.js:1274-1302 | no more writes than rules; no write exactly when no rule has both a value and a matching element; every value written is non-empty |
| Autofill.SourcesWrite | backend/server.js:1274-1302 | write k is made by a fillable rule and puts that rule's value into that rule's target, the first element found under its names |
| Autofill.SourcesOrdered | backend/server.js:1274-1302 | the rules that write are positions of the field map in strictly increasing order, so each rule writes at most once and in map order |
| Autofill.SourcesCover | backend/server.js:1275-1300 | every rule with a value and a found element writes; with the two lemmas above, the count of writes is the number of such rules |
| Autofill.RuleWritesStep | backend/server.js:1274-1302 | the writes of one more rule come after those of the rules before it |
| Autofill.PlannedWrites | backend/server.js:1260-1324 | at most seven writes, all of non-empty values |
| Autofill.FilledIffSomethingFillable | backend/server.js:1326 | `fillAddress` reports true exactly when some structured rule had a value and an element, or the formatted text is non-empty and a full-address field exists |
| Autofill.FillIdempotent | backend/server.js:1260-1327 | filling the same address twice leaves the page as filling it once |
| Autofill.NothingRecognised | backend/server.js:1260-1327 | on a page with none of the recognised names, nothing is written and the fill reports false |
| Autofill.FullAddressAlwaysWritten | backend/server.js:1311-1319 | when a full-address field exists and the formatted text is non-empty, that field ends with the formatted text, even if a structured rule wrote into the same element |
| Autofill.StructuredFieldFilled | backend/server.js:1274-1319 | a structured field whose rule has a value and an element ends with that value, unless a later rule or the full-address write lands on the same element |
| Autofill.BackupAddressFill | backend/server.js:1265-1269 | a backup record leaves the address2 field unwritten and gives the country field the country name |
| Widget.DetectLanguage | backend/server.js:851-863 | Arabic, French or English, each exactly when the html `lang` names it before the others, or when no html language is named and the browser language names it (English as the default) |
| Widget.HtmlLangDecides | backend/server.js:855-857 | a page whose html `lang` names ar, fr or en ignores the browser language |
| Widget.ArgentineSpanishReadsAsArabic | backend/server.js:855 | the substring test makes `lang="es-AR"` select Arabic |
| Widget.PositionErrorNotice | backend/server.js:1206-1219 | permission-denied gives the permission message, position-unavailable the fixed Arabic text, timeout the timeout message, and any other code the error message, each exactly for its code |
| Widget.GetPosition | backend/server.js:1185-1223 | resolves exactly when a position arrived, with its coordinates; the widget's own timer gives the timeout message; a platform error gives its mapped message |
| Widget.ClientGeocode | backend/server.js:1227-1257 | accepted exactly when the reply is 2xx with a body whose `success` holds, taking its address; a non-2xx status throws an HTTP error |
| Widget.ServerResponseReachesWidget | backend/server.js:1245-1256 | the widget accepts exactly the server's success responses and takes their address; a 400 or 500 is an HTTP error |
| Widget.EquatorNeverResolves | backend/server.js:169 | a device exactly on the equator sends latitude 0, and the widget's request fails with HTTP 400 |
| Widget.Show | backend/server.js:1340-1345 | showing a message changes only the message shown, and only when messages are on |
| Widget.Enter | backend/server.js:1152-1161 | a press while loading changes nothing; without geolocation it shows the error message (when messages are on) and changes nothing else; otherwise loading starts with the counter at zero and the message untouched |
| Widget.Settle | backend/server.js:1163-1181 | after an attempt loading is off; success shows the success message and leaves the counter at zero; a failure below the retry count increments the counter and schedules one retry silently; a failure at the retry count shows the error message and schedules nothing |
| Widget.Fire | backend/server.js:1175 | a firing retry consumes one scheduled retry and re-enters `detectLocation`: ignored while loading, starting an attempt with the counter at zero when geolocation exists, else showing the error message |
| Widget.InvPreserved | backend/server.js:1152-1181 | pressing, firing and settling keep the counter in {0, 1} and at zero while an attempt is in flight |
| Widget.FailureOutcome | backend/server.js:1161-1178 | a failed attempt schedules a retry silently when the retry count is positive, and shows the error message otherwise |
| Widget.RetriesNeverEnd | backend/server.js:1161-1178 | with a positive retry count, any number of failed retries in a row never shows the error message and always leaves one more retry scheduled |
| Widget.DefaultSettingsRetryForever | backend/server.js:835 | with the default retry count of 2, failed retries never show the error message and always leave one scheduled |
| Widget.PositionErrorNeverShown | backend/server.js:1169-1177 | after a permission, unavailable or timeout error the message shown is never that error's own text |
| Widget.YouCanLocationWidget.constructor | backend/server.js:841-882 | the language is the detected one, nothing is loading, the counter is zero, and the widget is injected exactly when a shipping form is found |
| Widget.YouCanLocationWidget.FindShippingForm | backend/server.js:896-917 | the form is the element of the first of the eight selectors that matches, or null |
| Widget.YouCanLocationWidget.FindField | backend/server.js:1277-1284 | the element of the first candidate name found by name or id, or null |
| Widget.YouCanLocationWidget.FillFields | backend/server.js:1272-1302 | the page ends as after the structured writes, and the count is their number |
| Widget.YouCanLocationWidget.FillAddress | backend/server.js:1260-1327 | the page ends as after the planned writes, and the result is true exactly when at least one write happened |
| Widget.YouCanLocationWidget.SetLoading | backend/server.js:1362-1363 | only the loading flag changes; no other field is in its frame |
| Widget.YouCanLocationWidget.ShowMessage | backend/server.js:1340-1343 | the state changes as `Show` says |
| Widget.YouCanLocationWidget.DetectLocation | backend/server.js:1152-1161 | the state changes as `Enter` says and the invariant is kept; an attempt starts exactly when none was in flight and geolocation exists |
| Widget.YouCanLocationWidget.CompleteDetection | backend/server.js:1163-1181 | the state changes as `Settle` says for "a position arrived and the server resolved it"; the page is filled with that address on success and untouched otherwise, whatever the fill reported |
| Widget.YouCanLocationWidget.RetryTimerFires | backend/server.js:1175 | the state changes as `Fire` says and the invariant is kept |

## Left out

- Network calls, timeouts and `fetch`/`axios`: each provider call and the widget's request is an outcome passed in. The timers inside `getPosition` are the `NoAnswer` outcome.
- The provider query parameters: language, zoom, e-mail, user agent and the backup API key.
- The `raw` debug field, the `cacheable` flag, and the error and message texts of the 400 and 500 answers.
- The handler's outer failures: a missing `req.body`, or a response that cannot be sent.
- JavaScript values on which `isNaN`, truthiness and `parseFloat` disagree, such as whitespace-only strings, `"0x10"`, booleans and arrays. A request coordinate is absent, a number, a numeric string, or non-numeric.
- Geocode.UpperAscii: upper-cases ASCII letters only; `toUpperCase` on other letters is not modelled.
- Every HTML page, OAuth installation, the other Express routes, and the frontend widget file. frontend/checkout-widget.js is not part of this model.
- Styles, button and message-box construction, the spinner markup, `showPermissionHint`, `autoInitialize` and the `readyState` deferral. Only the presence of the shipping form is kept.
- Message auto-hide, field highlighting and `updateMapIfExists`.
- Autofill.FillIdempotent: assumes no page listener changes a field value. `dispatchEvent` of `input`/`change` runs the host page's listeners synchronously, and the model leaves them out.
- Autofill.FullAddressAlwaysWritten: assumes that assigning `.value` stores the assigned text. A `<select>` with no matching option stores "" instead, and the model does not distinguish control kinds. The same assumption underlies Autofill.StructuredFieldFilled and Autofill.FillIdempotent.
- Widget.GetPosition: the position options and the accuracy and timestamp sent to the server.
- Dom.FirstMatch: selectors are matched as text, so two selectors that name the same element are related only through the answers given for them.
- The widget's messages are their table keys and language, not their texts.
