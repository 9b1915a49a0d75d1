# flight.me: price tracking, airport search, query building and form validation

This project models the server and client core of flight.me in Dafny. In flight.me a visitor searches for flights and may subscribe a phone number to a price watch. The service also has a sweep (`dispatchPriceTrackers`) meant to re-run every watched search and text the cheapest deep links to each subscriber. Nothing in the code calls it or schedules it: the alerts endpoint's `try` block is empty (src/pages/api/alerts.ts:19-21). As written, the sweep sends nothing (see Findings). The model covers:

- **Price tracking** (`FlightPriceTracking`). `upsertPhoneSubscription` appends a watch to a phone number's record, or creates the record. `searchFlights` and `searchLocations` build the provider query and map the provider's results to DTOs. `dispatchPriceTrackers` sweeps every stored record. `trackPrice` searches each watch of one record. `sendFlightNotifications` takes the leading deep links off the result list with `splice` and texts them in the fixed message template.
- **Subscription store** (`PhoneSubscriptionContainer`). This is the document container holding one record per phone number. It supports create (an upsert), getAll, getByPhoneNumber (the first record of the query), replace and delete. The last two are addressed by (id, phone number).
- **Airport search helpers** of the client (`FlightSearch` for `FlightSearchService.tsx`, `FlightSearchLabels` for `FlightSearchService.ts`). They cover the travel-class options, the airport display strings, filtering airports by a case-insensitive substring, and lookup by id. The two files share `getAirport` and `getTravelClasses` word for word, so `FlightSearchLabels` reuses `FlightSearch.GetAirport` and `FlightSearch.GetTravelClasses`.
- **Query building** (`ApiUtility`). `parameterize` folds the query object's entries into a `URLSearchParams`. An array value adds one pair per element. A scalar value adds one pair holding `encodeURIComponent(String(value))`, which the form serializer of `URLSearchParams` then encodes a second time. `buildGetRequest` sets the URL's search to the result.
- **Form validation** (`FlightSearchValidation`). These are the search form's twelve field rules and the message each failing field shows.

Supporting modules:

- `Wrappers`: Option and Outcome.
- `Sequences`: first match, find, filter and subsequence.
- `JsBuiltins`: ASCII case mapping, `includes`, `join`, `lastIndexOf`, number to string, and truthiness.
- `JsArrays`: `splice`.
- `FlightTypes` and `KiwiApi`: the records exchanged.
- `SmsTransport`: the SMS sender, whose log of sent messages is ghost state.

The store, the services, `URLSearchParams`, the array that `splice` changes and the SMS sender are classes whose methods update their fields. Everything else is functions over values.

Four things the surrounding code provides are parameters of the model:

- the flight and location provider (functions from query to results);
- `encodeURIComponent` and the form-urlencoded serializer (string functions);
- URL resolution against the API base URL;
- the sender's own phone number.

## Model

| member | source | states |
|---|---|---|
| FlightPriceTracking.UpsertAppendsSubscription | src/services/FlightPriceTrackingService.ts:29-56 | after an upsert, the phone number's subscriptions are the old ones with the new one appended (exactly one when there was no record), and every other phone number's record is unchanged |
| FlightPriceTracking.UpsertExistingPhone | src/services/FlightPriceTrackingService.ts:34-35 | with an existing record, that record (the first one for the phone) is rewritten in place with the subscription pushed; other phones are unchanged |
| FlightPriceTracking.UpsertNewPhone | src/services/FlightPriceTrackingService.ts:36-37 | without a record, a record with a fresh id holding just this subscription is added at the end |
| FlightPriceTracking.UpsertKeepsPhonesUnique | src/services/FlightPriceTrackingService.ts:29-39 | upserting through the service never gives one phone number a second record |
| FlightPriceTracking.FlightPriceTrackingService.UpsertPhoneSubscription | src/services/FlightPriceTrackingService.ts:29-39 | the store afterwards holds the upserted records and stays valid |
| FlightPriceTracking.FlightPriceTrackingService.UpdateSubscription | src/services/FlightPriceTrackingService.ts:41-46 | the fetched record with the subscription pushed replaces the stored one |
| FlightPriceTracking.FlightPriceTrackingService.CreateSubscription | src/services/FlightPriceTrackingService.ts:48-56 | a record with the next id holding just this subscription is upserted into the store |
| FlightPriceTracking.SearchQueryFor | src/services/FlightPriceTrackingService.ts:59-66 | the query searches the exact departure and return dates, sorted by price in English, and `max_stopovers` is 0 for a non-stop watch and `false` otherwise |
| FlightPriceTracking.QueryCarriesSubscription | src/services/FlightPriceTrackingService.ts:59-66 | every subscription field reaches the provider unchanged |
| FlightPriceTracking.SearchFlights | src/services/FlightPriceTrackingService.ts:58-79 | one DTO per provider result, in order, with id, airports, cities, price and deep link copied; each country name is the nested country's name, and absent exactly when that country is absent |
| FlightPriceTracking.SearchLocations | src/services/FlightPriceTrackingService.ts:81-97 | one DTO per provider location, in order, with id, name and type copied; the subdivision name is the subdivision's name, absent exactly when it is absent; the country name is the location's own when present and non-empty, and otherwise its city's country's name, or absent when the city or its country is absent |
| FlightPriceTracking.LinksToSendTakesLeading | src/services/FlightPriceTrackingService.ts:115 | the links sent are the deep links of the first `flightsToSend` flights, or all flights when there are fewer |
| FlightPriceTracking.NotificationListsLinks | src/services/FlightPriceTrackingService.ts:116-122 | the message contains every link at its offset after the header, in order; every link but the last is followed by the blank-line separator "\n\n" |
| FlightPriceTracking.NotificationNamesRoute | src/services/FlightPriceTrackingService.ts:116-118 | the message names the watch's departure and destination |
| FlightPriceTracking.FlightPriceTrackingService.SendFlightNotifications | src/services/FlightPriceTrackingService.ts:114-124 | the leading flights are spliced off the caller's array and exactly one SMS with the notification message goes to the phone number |
| FlightPriceTracking.SubscriptionMessagesShape | src/services/FlightPriceTrackingService.ts:107-111 | a watch whose search finds nothing sends no SMS; one that finds flights sends exactly one, to the record's phone, listing the deep links of its first three flights (all of them when there are fewer) |
| FlightPriceTracking.RecordMessagesCount | src/services/FlightPriceTrackingService.ts:105-112 | checking a record sends one SMS per watch with results, all to that record's phone |
| FlightPriceTracking.FlightPriceTrackingService.TrackPrice | src/services/FlightPriceTrackingService.ts:105-112 | the SMS log grows by exactly the record's messages, watch by watch in order |
| FlightPriceTracking.SweepMessagesCount | src/services/FlightPriceTrackingService.ts:99-112 | a sweep sends one SMS per (record, watch) pair with results, each from the service's number to a stored phone |
| FlightPriceTracking.SweepMessagesAppend | src/services/FlightPriceTrackingService.ts:99-103 | records are checked independently: sweeping two groups sends the first group's messages, then the second's |
| FlightPriceTracking.FlightPriceTrackingService.DispatchPriceTrackers | src/services/FlightPriceTrackingService.ts:99-103 | the SMS log grows by exactly the intended sweep's messages over all stored records |
| FlightPriceTracking.EmptySearchIsolated | src/services/FlightPriceTrackingService.ts:109 | a watch with no results returns from its own callback only: the next watch of the same record still sends its notification, and so does another phone number's watch |
| FlightPriceTracking.BoundCallbacksDeliverRecordMessages | src/services/FlightPriceTrackingService.ts:105-112 | with `this` bound, a record's callbacks deliver exactly the record's messages |
| FlightPriceTracking.UnboundCallbacksDeliverNothing | src/services/FlightPriceTrackingService.ts:107-108 | callbacks that all reject deliver nothing |
| FlightPriceTracking.AsWrittenSweepSendsNothing | src/services/FlightPriceTrackingService.ts:102 | passing the unbound `this.trackPrice` to `forEach` sends no SMS, whatever is stored and whatever the provider returns |
| FlightPriceTracking.UnboundSweepLosesNotification | src/services/FlightPriceTrackingService.ts:102 | for one NYC to LAX watch with a matching flight, the intended sweep sends one SMS and the code as written sends none |
| PhoneSubscriptionContainer.QueryHeadIsFirstMatch | src/services/PhoneSubscriptionContainer.ts:56-69 | getByPhoneNumber is null exactly when no record has the phone, and otherwise is the first record the query returns |
| PhoneSubscriptionContainer.WithPhone | src/services/PhoneSubscriptionContainer.ts:59-64 | the query returns records with that phone and every such record |
| PhoneSubscriptionContainer.UpsertReplacesOrAdds | src/services/PhoneSubscriptionContainer.ts:29-34 | an upsert keeps keys unique, holds the document, drops only the record with the same key, and grows the store only for a new key |
| PhoneSubscriptionContainer.ReplaceOverwritesOnly | src/services/PhoneSubscriptionContainer.ts:89-95 | replace succeeds exactly when the key is stored, and then overwrites that record in place and nothing else |
| PhoneSubscriptionContainer.DeleteRemovesOnly | src/services/PhoneSubscriptionContainer.ts:102-107 | delete succeeds exactly when the key is stored, and then removes that record only, keeping the others in order |
| PhoneSubscriptionContainer.PhoneSubscriptionsContainer.Create | src/services/PhoneSubscriptionContainer.ts:29-34 | the document is upserted under its id, or under a newly generated id |
| PhoneSubscriptionContainer.PhoneSubscriptionsContainer.GetAll | src/services/PhoneSubscriptionContainer.ts:40-49 | every stored record, in store order |
| PhoneSubscriptionContainer.PhoneSubscriptionsContainer.GetByPhoneNumber | src/services/PhoneSubscriptionContainer.ts:56-69 | None exactly when no record has the phone; otherwise the first stored record with it |
| PhoneSubscriptionContainer.PhoneSubscriptionsContainer.Replace | src/services/PhoneSubscriptionContainer.ts:89-95 | a stored key is overwritten; an unknown key fails with NotFound and changes nothing |
| PhoneSubscriptionContainer.PhoneSubscriptionsContainer.Delete | src/services/PhoneSubscriptionContainer.ts:102-107 | a stored key is removed; an unknown key fails with NotFound and changes nothing |
| SmsTransport.SmsService.SendMessage | src/services/SmsService.ts:27-34 | one SMS from the service's number to the phone with the given body is appended to the log |
| JsArrays.JsArray.Splice | src/services/FlightPriceTrackingService.ts:115 | `splice(start, deleteCount)` returns the clamped run of elements and leaves the rest, in order |
| JsArrays.SpliceFrontCount | src/services/FlightPriceTrackingService.ts:115 | `splice(0, n)` removes `min(n, length)` elements, and none for a negative n |
| FlightSearch.GetTravelClasses | src/services/FlightSearchService.tsx:20-37 | exactly the values ECONOMY, PREMIUM_ECONOMY, BUSINESS, FIRST, in that order, captioned Economy, Premium Economy, Business, First |
| FlightSearch.CabinClasses | src/types/FlightSearch.ts:1 | the same four captions in the same order, with the cabin codes M, W, C, F as values |
| FlightSearch.CaptionOfOptions | src/services/FlightSearchService.tsx:20-37 | each option's value maps back to its caption, and only the four values have one |
| FlightSearch.GetAirportAsString | src/services/FlightSearchService.tsx:84-87 | with a truthy state the string is the city, ", ", the state and " (ID)"; otherwise it is the city, " - ", the country and " (ID)"; the id is upper-cased |
| FlightSearch.AirportStringRoundTrip | src/services/FlightSearchService.tsx:84-87 | the upper-cased id can be read back from the parentheses at the end |
| FlightSearch.FilterAirports | src/services/FlightSearchService.tsx:88-90 | exactly the airports one of whose six searchable fields includes the input, ignoring case |
| FlightSearch.FilterAirportsKeepsOrder | src/services/FlightSearchService.tsx:88-90 | the result is a subsequence of the airports |
| FlightSearch.EmptyInputKeepsAll | src/services/FlightSearchService.tsx:88-90 | an empty input keeps every airport, since every id includes the empty string |
| FlightSearch.FilterIgnoresInputCase | src/services/FlightSearchService.tsx:89 | upper-casing the input does not change the result |
| FlightSearch.FoundByState | src/services/FlightSearchService.tsx:19-90 | searching for an airport's state finds that airport |
| FlightSearch.GetAirport | src/services/FlightSearchService.tsx:91-93 | none exactly when no airport has the id; otherwise the first airport with it |
| FlightSearch.GetAirportOfListed | src/services/FlightSearchService.tsx:91-93 | with distinct ids, looking up a listed airport's id returns that airport |
| FlightSearchLabels.GetAirportLabel | src/services/FlightSearchService.ts:73-76 | the label is the city, then ", state - country" when the state is truthy and " - country" otherwise, then " \| ID" with the id upper-cased |
| FlightSearchLabels.LabelRoundTrip | src/services/FlightSearchService.ts:73-76 | the upper-cased id can be read back after the last bar |
| FlightSearchLabels.FilterAirports | src/services/FlightSearchService.ts:77-79 | exactly the airports whose lower-cased label includes the lower-cased input |
| FlightSearchLabels.FilterAirportsKeepsOrder | src/services/FlightSearchService.ts:77-79 | the result is a subsequence of the airports |
| FlightSearchLabels.FoundByIdOrCity | src/services/FlightSearchService.ts:77-79 | an airport whose id or city includes the input, ignoring case, is found |
| FlightSearchLabels.FilterIgnoresInputCase | src/services/FlightSearchService.ts:78 | upper-casing the input does not change the result |
| ApiUtility.EntryPairs | src/services/ApiUtilityService.ts:26-31 | a scalar entry adds the single pair (key, encodeURIComponent(String(value))); an array entry adds one pair per element, in order, holding the element's string form unencoded; all under the entry's key |
| ApiUtility.QueryPairsOfEntry | src/services/ApiUtilityService.ts:24-33 | entry i's pairs, with those values, appear in the query's pairs right after the pairs of the entries before it |
| ApiUtility.QueryPairsCount | src/services/ApiUtilityService.ts:23-35 | the number of pairs is the total width of the entries |
| ApiUtility.QueryPairsAppend | src/services/ApiUtilityService.ts:24-33 | the pairs of two groups of entries are the first group's pairs followed by the second's |
| ApiUtility.QueryPairKeys | src/services/ApiUtilityService.ts:24-33 | every pair's key is one of the query's keys |
| ApiUtility.SerializeListsPairs | src/services/ApiUtilityService.ts:34 | the serialized string holds every encoded pair, in order, separated by "&", and is empty for no pairs |
| ApiUtility.UrlSearchParams.Append | src/services/ApiUtilityService.ts:28-30 | one pair is appended to the list |
| ApiUtility.UrlSearchParams.ToString | src/services/ApiUtilityService.ts:34 | the string is the serialization of the pair list |
| ApiUtility.ApiUtilityService.Parameterize | src/services/ApiUtilityService.ts:23-35 | the loop over the entries yields the serialization of the query's pairs |
| ApiUtility.SetSearch | src/services/ApiUtilityService.ts:39 | setting the search keeps the URL before the query, and clears the query exactly for an empty string |
| ApiUtility.SearchRoundTrip | src/services/ApiUtilityService.ts:38-41 | a non-empty search is read back after the "?" of the URL |
| ApiUtility.ApiUtilityService.BuildGetRequest | src/services/ApiUtilityService.ts:37-44 | the request's URL is the resolved endpoint with the parameterized query as its search, and it carries the given headers |
| ApiUtility.EmptyQueryRequestHasNoSearch | src/services/ApiUtilityService.ts:37-44 | an empty query gives the bare endpoint URL, with no "?" |
| FlightSearchValidation.ErrorsOfFields | src/features/FlightSearch/FlightSearchValidationSchema.ts:5-40 | the fields' errors are empty exactly when no field fails, and each failing field reports one error under its own name |
| FlightSearchValidation.NoErrorsIffValid | src/features/FlightSearch/FlightSearchValidationSchema.ts:5-40 | a form has no errors exactly when all four route fields are filled, the counts and price are in range, the cabin is one of M, W, C, F, non-stop is set and the currency is USD |
| FlightSearchValidation.ValidIffEveryFieldPasses | src/features/FlightSearch/FlightSearchValidationSchema.ts:5-40 | validity is the conjunction of the twelve field rules |
| FlightSearchValidation.ErrorsMatchFields | src/features/FlightSearch/FlightSearchValidationSchema.ts:5-40 | every error names a failing field with that field's message, and every failing field reports one |
| FlightSearchValidation.SchemaPosition | src/features/FlightSearch/FlightSearchValidationSchema.ts:5-40 | each of the twelve schema fields has its place in schema order |
| FlightSearchValidation.CabinRule | src/features/FlightSearch/FlightSearchValidationSchema.ts:24-26 | the cabin passes exactly when it holds one of the four non-empty cabin codes |
| FlightSearchValidation.EmptyCabinIsRequired | src/features/FlightSearch/FlightSearchValidationSchema.ts:24-26 | the empty cabin code passes the allowed-values rule but fails "Required" |
| FlightSearchValidation.CurrencyMessages | src/features/FlightSearch/FlightSearchValidationSchema.ts:29-31 | an empty currency reports "not supported", an absent one "Required", and USD passes |
| FlightSearchValidation.OfferedTravelClassesRejected | src/features/FlightSearch/FlightSearchValidationSchema.ts:24-26 | whichever travel class the form offers is picked, the cabin field reports "Invalid travel class", so the cabin field can never pass and the form is not valid |
| FlightSearchValidation.CabinClassesAccepted | src/features/FlightSearch/FlightSearchValidationSchema.ts:24-26 | with cabin codes as the option values, the cabin field passes exactly when it holds one of the offered values |
| FlightSearchValidation.OptionalCounts | src/features/FlightSearch/FlightSearchValidationSchema.ts:14-23 | the adult and child counts may be left out; the infant count may not |

## Left out

- I/O and its timing. The document database, the flight provider, Twilio and `fetch` are replaced by state or by parameters. Promises, `await` and unawaited `forEach` callbacks run sequentially in the model, and failures of those services are not modelled. A provider error or an empty response shows up as an empty result list.
- Document ids are natural numbers handed out by the store, in place of generated GUID strings. The system properties a stored document carries (etag, timestamps) are not modelled.
- `Context.initialize()` is not modelled. It only opens the database connection.
- `searchLocations` calls the module-wide provider client, not the instance's own. The model takes the location provider as a parameter of the service.
- `buildPostRequest` is not modelled. It is not part of the modelled core, and it only puts the JSON text of the body in the request.
- `JSON.stringify` is not modelled either.
- `getDefaultFormValues`, `getFlightFormLabels`, `fetchAirports`, `submitSearch` and the JSX `getAirportLabel` of `FlightSearchService.tsx` are not modelled. They return fixed values, read the clock, make network calls or build React elements.
- The ".ts" `fetchAirports`, `getDefaultFormValues` and `getFlightFormLabels` are not modelled, for the same reasons.
- `ApiUtility.SetSearch` does not model the URL search setter's percent-encoding of characters outside the query set, nor fragments. It models only the dropping of a leading "?" and the clearing on "".
- `encodeURIComponent`, the form-urlencoded serializer and URL resolution are uninterpreted functions.
- JsBuiltins.Lower and JsBuiltins.Upper map ASCII letters only, not the full Unicode case mapping of `toLowerCase` and `toUpperCase`.
- The form values' `phone_number` (src/types/FlightSearch.ts:9) is not modelled. The validation schema does not check it, so `FlightSearchValidation.FormInput` leaves it out.
- Numbers are integers. Fractional prices and counts, NaN and the schema library's type errors (a non-number in a number field) are not modelled.
- Unsubscribing, per-subscription ids and link shortening are not modelled. src/pages/api/unsubscribe.ts:15 calls `FlightPriceTrackingService.unsubscribe`, which neither `IFlightPriceTrackingService` nor the class defines. `UrlShortenerService` is never imported by the modelled code.

## Findings

| source | as written | input that shows it | evidently intended | confidence | as-written member | corrected member |
|---|---|---|---|---|---|---|
| src/services/FlightPriceTrackingService.ts:102 | `phoneSubscriptions.forEach(this.trackPrice)` passes the method unbound, so `this` is undefined inside `trackPrice`. Each per-subscription callback rejects at `this.searchFlights`, and no SMS is ever sent. | one stored phone "+15551234567" watching NYC to LAX, 2025-06-01 / 2025-06-10, with the provider returning one flight | one SMS to that phone listing the flight's deep link | not executed | FlightPriceTracking.UnboundSweepLosesNotification | FlightPriceTracking.FlightPriceTrackingService.DispatchPriceTrackers |
| src/services/FlightSearchService.tsx:20-37 | The travel-class options carry the values ECONOMY, PREMIUM_ECONOMY, BUSINESS and FIRST. The form's cabin select offers exactly these, but the cabin rule only allows M, W, C, F and the empty code, so every choice fails with "Invalid travel class" and the cabin field can never pass. | a form with every other field valid and the cabin "ECONOMY", picked from the select | the options carry the provider's cabin codes M, W, C, F, which pass the cabin rule; this fixes only the cabin field, not the form's other missing fields | not executed | FlightSearchValidation.OfferedTravelClassesRejected | FlightSearchValidation.CabinClassesAccepted |
