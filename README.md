# Hungry Monkey: operating-hours verification, in Dafny

Hungry Monkey is a restaurant finder. A FastAPI back end caches restaurant
records from the Yelp directory in a Supabase store. A background dispatch
loop phones restaurants whose opening hours are not yet verified, through
the VAPI voice-call service. It reads the call's analysis and either writes
verified hours or gives up on that restaurant. A React front end searches,
filters and sorts the cached restaurants.

This project models that pipeline and the small rules around it, and proves
properties of the model:

- `VapiClient` (`vapi_client.dfy`): phone-number normalisation toward the
  `+` form of ITU-T Recommendation E.164, call placement, the status and
  analysis fetches, and the bounded polling loop with its cumulative retry
  counter.
- `Verification` (`verification.dfy`): `check_hours`, which decides
  whether the hours are verified and writes them, and one tick of
  `dispatch_calls`, which takes a batch of at most five, checks the hour of
  day, and keeps going past a restaurant whose check fails.
- `OperatingHoursDb` (`hours_db.dfy`): the hours table as a class over a
  sequence of rows, with the read-then-update-or-insert writers and the bulk
  read.
- `RestaurantsDb` (`restaurants_db.dfy`): the cache-aside restaurant store,
  the `origin` side of the merge-conflicted file.
- `UsersDb` (`users_db.dfy`): sign-up credits and search-credit accounting.
- `VapiModels` and `BaseModels` (`vapi_models.dfy`, `base_models.dfy`): the
  request validators, the response status literals, and the record shapes
  with their defaults, including a dump/validate round trip.
- `BrowserApi` (`api_client.dfy`): the browser HTTP client, which handles
  base-URL slashes, endpoint joining, the bearer-token rule and the reply
  outcome.
- `RestaurantService` (`restaurant_service.dfy`): price conversion, the
  back end to UI record transform, the search and cached-list query
  building, and the reply handling.
- `AppView` (`app_view.dfy`): the list filter, the stable sort by rating,
  and the guard clauses of the search button.
- Shared helpers: `Wrappers` (Option, Result), `JsonValues` (decoded JSON,
  Python and JavaScript truthiness, `in`, `.get`) and `Text` (digits,
  decimals, ASCII lower-casing, JavaScript `trim`).

Outside systems are not run. Each answer from the vendor, the store, the
directory, the clock or the token provider is a parameter. A value such as
`polls: nat -> HttpReply` gives the reply to each poll; `readFails` and
`writeFails` say whether a store call raises; `hourAt(k)` is the local hour
when restaurant `k` of a batch comes up. Stores whose rows the source
changes are classes with `modifies` clauses. Methods that loop are proved
against a specification function, and the lemmas state what the source
promises about that function.

### Where the code departs from its apparent intent

The model follows the code in each of these cases:

- `_format_phone_number` says it produces the E.164 form `+1XXXXXXXXXX`.
  An input that starts with `+` and has a valid digit count is returned as
  given, punctuation and all, so the result need not have that shape.
- A retry budget for failing polls reads as a limit on consecutive
  failures. The counter is never reset, so failures add up across the
  whole wait, and polls that report progress do not clear it.
- A background check would be expected to log a failure and carry on.
  `check_hours` raises it again as an HTTP 500; the dispatch loop's own
  handler is what carries on.
- A queue of restaurants without hours would be expected to come oldest
  first. `get_restaurants_without_hours` fixes no order; the batch is the
  store's list in whatever order the store gives it.
- The record update after a check is meant to reach the store.
  `update_restaurant` is an `async` function called without `await`
  (app/clients/vapi.py lines 230 and 242), so it never runs. The update that
  `check_hours` requests is returned as data (`CheckReport.update`), and the
  restaurant store is provably not changed.

## Model

| member | source | states |
|---|---|---|
| VapiClient.NewClient | app/clients/vapi.py:32-42 | a missing or empty API key is refused; otherwise the headers carry the key as a bearer token with the JSON content type |
| Text.Digits | app/clients/vapi.py:48 | the result holds only digits, is no longer than the input, and is the input itself when the input is all digits |
| VapiClient.FormatPhoneNumber | app/clients/vapi.py:45-62 | raises exactly when the digit count is neither 10 nor 11, with the length message; an accepted input starting with `+` is returned unchanged |
| VapiClient.FormatTenDigits | app/clients/vapi.py:48-60 | ten digits without `+` become `+1` followed by those digits |
| VapiClient.FormatElevenDigits | app/clients/vapi.py:51-60 | eleven digits without `+` become `+` and the digits; the leading digit is not checked |
| VapiClient.FormatShape | app/clients/vapi.py:45-62 | without a leading `+`, the result is `+` and eleven digits, ending with the input's digits |
| VapiClient.FormatIdempotent | app/clients/vapi.py:45-62 | formatting an accepted number again returns it unchanged |
| VapiClient.PlusTenDigitsKept | app/clients/vapi.py:51-62 | `+` followed by ten digits is accepted as it is, without the country code `1` |
| VapiClient.PlusInputKeptVerbatim | app/clients/vapi.py:58-62 | a `+` input keeps its spaces, so the result can fall outside the E.164 shape |
| VapiClient.MakeCall | app/clients/vapi.py:64-94 | a malformed number fails before any request; status 200 or 201 yields the reply's `id`; any other status or a transport failure raises with the call prefix |
| VapiClient.GetCallStatus | app/clients/vapi.py:130-145 | a 200 reply yields its `status` or `"unknown"`; a non-200 reply is wrapped twice in the status prefix; a transport failure once |
| VapiClient.GetCallAnalysis | app/clients/vapi.py:147-161 | a 200 reply yields its `analysis` or `{}`; other replies raise with the analysis prefix |
| VapiClient.WaitForCallCompletion | app/clients/vapi.py:163-198 | the loop's result equals the polling specification `WaitSpec` from poll 0 with no retry spent |
| VapiClient.WaitSucceedsAtFirstCompletion | app/clients/vapi.py:172-179 | success names a poll within the attempt bound that reports `ended` or `completed`, and no earlier poll does |
| VapiClient.WaitReachesCompletion | app/clients/vapi.py:171-198 | a completing poll within bounds, preceded by fewer retry-costing polls than the budget, is where the loop succeeds |
| VapiClient.GiveUpNeedsBudgetSpent | app/clients/vapi.py:180-196 | the loop gives up, rather than timing out, only after the failed or raising polls have used up the retry budget |
| VapiClient.GiveUpAtBudget | app/clients/vapi.py:171-194 | before any completion, the loop raises the give-up error at exactly the poll whose failure brings the cumulative counter to `max_retries` |
| VapiClient.NoAttemptsTimesOut | app/clients/vapi.py:172-198 | with no attempts allowed, the loop times out without polling |
| VapiClient.PendingStatusesTimeOut | app/clients/vapi.py:187-198 | polls that neither complete nor fail, unknown statuses included, cost nothing and end in the timeout |
| VapiClient.NonConsecutiveFailuresAddUp | app/clients/vapi.py:171-196 | failures separated by `ringing` polls still add up: the third failure ends the loop |
| Verification.CheckHours | app/clients/vapi.py:200-246 | the result is the intended outcome of gathering the evidence, and the hours table is written exactly when the decision is verified |
| Verification.GatherEvidence | app/clients/vapi.py:206-225 | the stepwise lookup, call, wait, analysis fetch and decision give exactly the evidence `Gather` specifies, errors included |
| Verification.DecideOnDict | app/clients/vapi.py:225-227 | on a dict, the hours are verified iff the evaluation is truthy and both time keys are present, with the values read from it |
| Verification.DecideFalsyIsUnverified | app/clients/vapi.py:225 | a falsy evaluation or falsy structured data is unverified and raises nothing |
| Verification.DecideScalarRaises | app/clients/vapi.py:225 | truthy structured data that is a number or boolean makes the key test raise |
| Verification.DecideNonDictWithKeysRaises | app/clients/vapi.py:225-227 | a string or list holding both keys passes the key test and then raises at `.get` |
| Verification.StringWithBothKeysRaises | app/clients/vapi.py:225-227 | a concrete string containing both key names raises |
| Verification.VerifiedCheckWritesHours | app/clients/vapi.py:225-238 | a verified check leaves a row with the given times and open state, verified and consenting, and requests an update with `is_hours_verified` true and the open state |
| Verification.UnverifiedCheckLeavesHours | app/clients/vapi.py:239-246 | a check that is not verified leaves the hours table unchanged; if it completes, it requests "unverified and closed"; if it fails, the status is 500 |
| Verification.UpdatesDiffer | app/clients/vapi.py:230-242 | the verified update and the unverified update are never equal |
| Verification.UnknownRestaurantFails | app/clients/vapi.py:201-246 | an unknown restaurant gives an HTTP 500 and writes nothing |
| Verification.DisabledCallsNeverVerify | app/clients/vapi.py:209-222 | with calls disabled, nothing is written, and a stored restaurant gets the unverified update with the stand-in data |
| Verification.MissingPhoneFails | app/clients/vapi.py:207-210 | a restaurant without a phone number fails with an HTTP 500 whose detail is the `TypeError` text of `re.sub` on `None`, and writes nothing |
| Verification.UnfinishedCallFails | app/clients/vapi.py:211 | a call the poller gave up on or timed out on verifies nothing and writes nothing |
| Verification.GatherSucceeds | app/clients/vapi.py:206-225 | a successful lookup, call and decision give that evidence |
| Verification.R1Verified | app/clients/vapi.py:225-238 | in a worked run, restaurant R1's row holds 9:00 AM to 9:00 PM, open and verified, and the update marks it verified |
| Verification.R1FailsAsWritten | app/clients/vapi.py:229 | as written, the same run ends in an HTTP 500 after its hours were written |
| Verification.AsWrittenDiffersOnlyWhenVerified | app/clients/vapi.py:225-246 | as written, every verified check fails; unverified and failing checks agree with the intended outcome |
| Verification.AsWrittenAttemptWritesThenFails | app/clients/vapi.py:267-278 | as written, a tick's attempt leaves the same hours table as the corrected one; for a verified check the attempt is the HTTP 500 of the rejected assignment, and only then does it differ |
| Verification.R1AttemptFailsAfterWrite | app/clients/vapi.py:225-278 | as written, R1's attempt in a tick is recorded as a failure while R1's verified hours are written |
| Verification.CheckOne | app/clients/vapi.py:268-278 | one pending row's check: a string id runs the corrected `check_hours`; any other id fails without writing |
| Verification.DispatchCalls | app/clients/vapi.py:257-281 | the attempts and the new hours table are those of the tick specification `TickSpec`, whose attempts run the corrected `check_hours` |
| Verification.DispatchBatch | app/clients/vapi.py:267-278 | the loop over the batch leaves the attempts and the hours table that `TickFrom` specifies from the first row and the old table, each attempt running the corrected `check_hours` |
| Verification.TickResumes | app/clients/vapi.py:267-278 | after one attempted row, the attempts so far plus the rest of the specified tick still make up the whole tick |
| Verification.TickFromFollowsBatch | app/clients/vapi.py:267-274 | the attempts are rows of the batch in order, each with an id, each taken at eight o'clock or later |
| Verification.TickFromAttemptsAll | app/clients/vapi.py:267-278 | when every row has an id and the hour stays at eight or later, every row is attempted, failed checks included |
| Verification.TickFromWritesOnlyOnVerified | app/clients/vapi.py:267-278 | with the corrected `check_hours`, a batch whose every attempt failed or was unverified leaves the hours table unchanged |
| Verification.TickBounds | app/clients/vapi.py:257-274 | a tick makes at most five attempts, in the store's order, only with a pending list and an API key |
| Verification.TickClockAndIsolation | app/clients/vapi.py:263-278 | before eight o'clock nothing is checked; otherwise, with ids on all rows, the first five rows (all of them when fewer) are checked |
| Verification.TickWritesOnlyOnVerified | app/clients/vapi.py:257-281 | with the corrected `check_hours`, a tick writes hours only if one of its attempts reported a verified update |
| OperatingHoursDb.FirstMatch | app/db/operating_hours.py:19-21 | the result is the position of a matching row with no match before it, or none when no row matches |
| OperatingHoursDb.HoursOf | app/db/operating_hours.py:10-26 | a raised query gives None; a result is a row of the table for that restaurant |
| OperatingHoursDb.MergeWhereId | app/db/operating_hours.py:46-49 | rows with that id get the written keys overwritten and keep their other keys; other rows are unchanged |
| OperatingHoursDb.UpsertThenGet | app/db/operating_hours.py:41-56 | after a write whose read succeeded, the restaurant's first row is the old row overlaid with the data, or a new row; the row count grows only when there was no row; other restaurants' rows are unchanged |
| OperatingHoursDb.UpdateHoursThenGet | app/db/operating_hours.py:28-58 | after `update_hours`, the restaurant's row holds the given times and open state, verified and consenting |
| OperatingHoursDb.MarkUnverifiedKeepsOtherFields | app/db/operating_hours.py:63-84 | on an existing row, only `is_hours_verified` changes, to false |
| OperatingHoursDb.UpdateConsentKeepsOtherFields | app/db/operating_hours.py:92-113 | on an existing row, only `is_consenting` changes |
| OperatingHoursDb.UpsertKeepsOneRowPerRestaurant | app/db/operating_hours.py:41-56 | when the read succeeds, a writer never creates a second row for a restaurant |
| OperatingHoursDb.ReadFailureDuplicatesRow | app/db/operating_hours.py:24-56 | a read that raises is taken as "no row", so the writer inserts a duplicate |
| OperatingHoursDb.FailedWriteChangesNothing | app/db/operating_hours.py:58-61 | a write that raises changes nothing and reports false |
| OperatingHoursDb.LastCarrying | app/db/operating_hours.py:131-133 | the result is the last row carrying the key, or none when no row carries it |
| OperatingHoursDb.BulkMapContents | app/db/operating_hours.py:131-133 | an id is in the map iff it was requested and some returned row carries it, and it maps to the last such row |
| OperatingHoursDb.BulkSpecBounds | app/db/operating_hours.py:121-140 | empty input or a failed query gives `{}`; every key is a requested id |
| OperatingHoursDb.OperatingHoursDB.constructor | app/db/operating_hours.py:7-8 | the table starts empty and valid |
| OperatingHoursDb.OperatingHoursDB.GetHours | app/db/operating_hours.py:10-26 | returns a row for the restaurant with no match before it; None only when the query raises or no row matches |
| OperatingHoursDb.OperatingHoursDB.Write | app/db/operating_hours.py:41-56 | the read-then-update-or-insert step, with the new table given by the upsert function |
| OperatingHoursDb.OperatingHoursDB.UpdateHours | app/db/operating_hours.py:28-61 | the new table is the `update_hours` specification; the result is true iff the write did not raise |
| OperatingHoursDb.OperatingHoursDB.MarkHoursUnverified | app/db/operating_hours.py:63-90 | writes only the restaurant id and `is_hours_verified` false; true iff the write did not raise |
| OperatingHoursDb.OperatingHoursDB.UpdateConsent | app/db/operating_hours.py:92-119 | writes only the restaurant id and the consent flag; true iff the write did not raise |
| OperatingHoursDb.OperatingHoursDB.GetHoursBulk | app/db/operating_hours.py:121-140 | the loop's map equals the bulk specification |
| UsersDb.UserDefaults | app/db/users.py:10-16 | a row with only the required keys has 0 credits and is not premium |
| UsersDb.SignupData | app/db/users.py:26-31 | timestamps are set to `now()`; credits default to 3 only when absent, and a supplied value is kept; other keys pass through |
| UsersDb.CreateUserCredits | app/db/users.py:24-38 | a successful signup stores the user with the credit rule applied and returns true; a failed write changes nothing and returns false |
| UsersDb.UnknownUserRefused | app/db/users.py:52-58 | an unknown user is refused and nothing changes |
| UsersDb.PremiumUserPermitted | app/db/users.py:60-62 | a premium user is permitted and nothing changes |
| UsersDb.CreditDebited | app/db/users.py:64-71 | a non-premium user with credits is permitted and, read back, has exactly one credit fewer; no other user changes |
| UsersDb.NoCreditsRefused | app/db/users.py:73-74 | a non-premium user without credits is refused and nothing changes |
| UsersDb.CreditsStayNonNegative | app/db/users.py:50-78 | credits that start non-negative stay non-negative, whatever the store does |
| UsersDb.FailedDebitRefused | app/db/users.py:64-78 | a debit write that raises refuses the search and leaves the table unchanged |
| UsersDb.UserDB.CreateUser | app/db/users.py:24-38 | the result and the new table are those of the signup specification |
| UsersDb.UserDB.GetUser | app/db/users.py:40-48 | the validated row, or None when it is absent, invalid or the query raises |
| UsersDb.UserDB.IsSearchPermitted | app/db/users.py:50-78 | the result and the new table are those of the permission specification |
| VapiModels.ValidationIff | app/models/vapi.py:36-71 | a request is accepted iff no pair has both members and the name fits in 40 characters; an accepted request is unchanged |
| VapiModels.BothMembersRejected | app/models/vapi.py:38-71 | each rule on its own: both members of a pair, or a long name, is reported whatever else holds |
| VapiModels.ReportedErrorsAreViolations | app/models/vapi.py:49-71 | every reported error names a rule that the request breaks |
| VapiModels.ResponseStatusesExcludePolledFailures | app/models/vapi.py:84 | the response status set excludes `failed`, `error` and `completed`, and includes `ended` |
| VapiModels.ParseBusinessHours | app/models/vapi.py:94-99 | succeeds iff all four fields are present with the right types, and copies their values |
| BaseModels.RestaurantRoundTrip | app/models/base.py:30-44 | validating a dumped restaurant gives the same restaurant back |
| BaseModels.LocationRoundTrip | app/models/base.py:9-17 | validating a dumped location gives the same location back |
| BaseModels.CategoriesRoundTrip | app/models/base.py:19-21 | validating dumped categories gives the same categories back |
| BaseModels.StrsRoundTrip | app/models/base.py:38 | validating a dumped string list gives the same list back |
| BaseModels.RestaurantDefaults | app/models/base.py:30-41 | a dict with only the required keys validates, with no price or phone, empty photos and categories, `is_closed` None and `is_open` true |
| BaseModels.BusinessIdSources | app/models/base.py:31-44 | `business_id` is filled from the key `id` or from its own name |
| BaseModels.RestaurantRequiredFields | app/models/base.py:30-37 | without an id, name, rating, location or coordinates, validation fails |
| BaseModels.RestaurantLocation | app/models/base.py:36 | a validated record's location is the validation of the row's `location` |
| BaseModels.LocationDefaults | app/models/base.py:9-17 | city, state and zip code alone give country `US` and no address lines |
| BaseModels.LocationRequiredFields | app/models/base.py:13-15 | without city, state or zip code, validation fails |
| BaseModels.RecordDefaults | app/models/base.py:23-58 | operating hours default to unverified and not consenting with no times; search parameters default to limit 20 and `best_match`; a restaurant with hours has none |
| BaseModels.ReqStr | app/models/base.py:13-15 | a required string field succeeds iff present as a string, with that value |
| BaseModels.OptStr | app/models/base.py:10-12 | an optional string field takes its default when absent and succeeds iff absent, null or a string |
| RestaurantsDb.ParseAll | app/db/restaurants.py:144 | all rows validate, each output being the validation of the row at its position, or the error raised is that of some row |
| Wrappers.MapResults | app/db/restaurants.py:144 | a list comprehension over a raising function: it succeeds iff every item does, position by position; otherwise it raises the error of the first failing item |
| Wrappers.MapResultsAll | app/db/restaurants.py:144 | when every item maps to the matching output, the comprehension returns exactly those outputs |
| RestaurantsDb.SearchCached | app/db/restaurants.py:125-148 | an empty answer gives `[]`; a failing store raises with the cache prefix |
| RestaurantsDb.ParseDumpAll | app/db/restaurants.py:144 | validating dumped restaurants gives them back |
| RestaurantsDb.SearchCachedOfDumped | app/db/restaurants.py:125-148 | a cached search over rows the cache dumped returns exactly those restaurants |
| RestaurantsDb.PendingRows | app/db/restaurants.py:306-314 | the store's list in the store's order, or the failure with its prefix |
| RestaurantsDb.FindRestaurant | app/clients/vapi.py:206-207 | an absent id fails; a found restaurant is the validation of its stored row |
| RestaurantsDb.PyPrefix | app/db/restaurants.py:289-290 | Python `s[:n]`: a non-negative `n` keeps at most `n`, a negative `n` drops that many from the end |
| RestaurantsDb.GetStoredRestaurants | app/db/restaurants.py:254-304 | the loop's result equals the stored-list specification: each row re-shaped, the invalid ones skipped, then the limit |
| RestaurantsDb.NormaliseRowShape | app/db/restaurants.py:268-279 | a re-shaped row that validates has no address2, address3 or display address, and country `US` |
| RestaurantsDb.NormalisedShape | app/db/restaurants.py:262-290 | every returned restaurant has that fixed shape; no more restaurants than rows |
| RestaurantsDb.NormalisedCopiesCity | app/db/restaurants.py:269-275 | city, state, zip code and address1 are copied from the stored location |
| RestaurantsDb.LimitBounds | app/db/restaurants.py:289-290 | a positive limit bounds the result; no limit or 0 keeps all; the result is a prefix |
| RestaurantsDb.NegativeLimitDropsFromEnd | app/db/restaurants.py:289-290 | a limit of -1 drops the last restaurant |
| RestaurantsDb.CachedUntouched | app/db/restaurants.py:110-117 | ids that no successful store call wrote keep their old cache entry, or stay absent |
| RestaurantsDb.CachedLast | app/db/restaurants.py:110-117 | for an id, the cache holds the last restaurant whose store call succeeded |
| RestaurantsDb.FetchedThenServedFromCache | app/db/restaurants.py:41-91 | a restaurant fetched and cached is then served from the cache, equal to what was fetched |
| RestaurantsDb.RestaurantDB.constructor | app/db/restaurants.py:17-23 | the cache starts empty |
| RestaurantsDb.RestaurantDB.CreateRestaurant | app/db/restaurants.py:25-39 | stores the dumped record under its id and returns it, or raises with the create prefix and stores nothing |
| RestaurantsDb.RestaurantDB.GetRestaurant | app/db/restaurants.py:41-91 | a cached record is returned without asking the directory; on a miss, the directory's result is cached and returned, and a miss there gives None; failures carry the get prefix |
| RestaurantsDb.RestaurantDB.CacheEach | app/db/restaurants.py:110-117 | the new cache is each restaurant offered in order, with raising store calls skipped |
| RestaurantsDb.RestaurantDB.SearchRestaurants | app/db/restaurants.py:93-123 | returns the directory's list unchanged after offering each entry to the cache; a directory failure raises with its prefix and changes nothing |
| RestaurantsDb.RestaurantDB.SearchByPhone | app/db/restaurants.py:200-235 | stored matches are returned without asking the directory; only on a miss is the directory asked and its answer cached |
| BrowserApi.StripTrailingSlashes | frontend/src/services/apiClient.ts:6 | the result is a prefix of the input, does not end in `/`, and only slashes were removed |
| BrowserApi.StripTrailingSlashesUnique | frontend/src/services/apiClient.ts:6 | a string without a trailing slash, followed by slashes, strips back to itself |
| BrowserApi.StripTrailingSlashesIdempotent | frontend/src/services/apiClient.ts:6 | stripping twice is the same as stripping once |
| BrowserApi.NormaliseEndpoint | frontend/src/services/apiClient.ts:14 | the result starts with `/`; an endpoint already starting with `/` is unchanged, any other gets one prepended |
| BrowserApi.ResponseOutcome | frontend/src/services/apiClient.ts:25-35 | ok iff the reply is an ok response, with its body; a non-ok response raises `API call failed: ` and its status text |
| BrowserApi.ApiClient.constructor | frontend/src/services/apiClient.ts:4-7 | the stored base URL is the stripped one, with no trailing slash |
| BrowserApi.ApiClient.Request | frontend/src/services/apiClient.ts:9-36 | the URL is the base URL and the normalised endpoint; the caller's headers override the JSON content type; the outcome is that of the reply |
| BrowserApi.AuthHeaders | frontend/src/services/apiClient.ts:44-57 | without auth, only the content type; with auth and no token, the auth error; with a token, `Authorization: Bearer` and the token |
| BrowserApi.AuthenticatedClient.constructor | frontend/src/services/apiClient.ts:39-40 | the wrapped client's base URL is the stripped one |
| BrowserApi.AuthenticatedClient.Get | frontend/src/services/apiClient.ts:43-63 | a call that requires auth but has no token sends nothing and raises; otherwise one GET goes out with `Authorization` present iff auth is required |
| BrowserApi.AuthenticatedClient.Post | frontend/src/services/apiClient.ts:65-86 | the same rule for POST; the body is the data |
| RestaurantService.ConvertPriceFilter | frontend/src/services/restaurantService.ts:6-9 | null or empty gives undefined; any other string gives the decimal of its length |
| RestaurantService.ConvertPriceByLength | frontend/src/services/restaurantService.ts:6-9 | two prices convert alike iff they are equally long; `$$$` gives `3` |
| RestaurantService.Transform | frontend/src/services/restaurantService.ts:12-61 | a null record raises; any other record succeeds iff its display address can be built |
| RestaurantService.TransformFields | frontend/src/services/restaurantService.ts:12-61 | in a transformed record, the id falls back from `business_id` to `id` to `''`; falsy address2 and address3 become undefined; a missing rating or coordinate becomes 0; `is_open` defaults to true only for null or missing |
| RestaurantService.DisplayAddressKept | frontend/src/services/restaurantService.ts:17-39 | a display address with positive length is kept untouched |
| RestaurantService.DisplayAddressFromFields | frontend/src/services/restaurantService.ts:20-41 | otherwise, the address is built from the non-blank string fields, in the order address1 to country |
| RestaurantService.PartsOfTextFields | frontend/src/services/restaurantService.ts:20-40 | with string fields, the two filters keep exactly the non-blank values in order |
| RestaurantService.NonStringAddressFieldRaises | frontend/src/services/restaurantService.ts:20-40 | a truthy non-string field, such as a numeric zip code, makes the built address and the record raise |
| RestaurantService.NonBlankPartsError | frontend/src/services/restaurantService.ts:40 | the only failure of the blank filter is the missing `trim` |
| RestaurantService.TransformIdempotent | frontend/src/services/restaurantService.ts:12-61 | transforming a transformed record again gives the same record |
| RestaurantService.EntryQuery | frontend/src/services/restaurantService.ts:72-84 | undefined and other values are skipped; a price is sent converted, and omitted when empty; `open_now` is sent as `true` or `false`; other strings are sent as given |
| RestaurantService.BuildSearchQuery | frontend/src/services/restaurantService.ts:71-85 | the loop's query equals the entry-by-entry query of the parameters |
| RestaurantService.SearchQueryFromEntries | frontend/src/services/restaurantService.ts:71-85 | each pair in the query comes from one entry, and each entry's pair is in the query |
| RestaurantService.CachedQuery | frontend/src/services/restaurantService.ts:121-126 | `fetch_images=true` always comes last; `limit` comes first iff it is truthy |
| RestaurantService.TransformAll | frontend/src/services/restaurantService.ts:95 | succeeds iff every record transforms; then each output is the transform of the record at its position |
| RestaurantService.ListingResult | frontend/src/services/restaurantService.ts:87-99 | a fetch failure propagates; a non-ok status raises the listing error; a non-array body has no `map`; otherwise every record is transformed |
| RestaurantService.DetailsResult | frontend/src/services/restaurantService.ts:102-116 | succeeds iff the reply is ok and the record transforms; every failure surfaces as the same message |
| AppView.Keep | frontend/src/App.tsx:48-65 | a restaurant is kept iff it passes the price check and either both times are set or it passes the star and category checks |
| AppView.FilterCards | frontend/src/App.tsx:47-65 | the kept restaurants are exactly those of the input that pass, with no more copies than in the input |
| AppView.InsertByRating | frontend/src/App.tsx:66 | inserting into a non-increasing list keeps it non-increasing, adds one element, and the head is either the new element or the old head |
| AppView.InsertPermutes | frontend/src/App.tsx:66 | the insertion holds the old elements plus exactly the new one, as a multiset |
| AppView.SortByRating | frontend/src/App.tsx:66 | the result is non-increasing by rating, one neighbour to the next, and as long as the input |
| AppView.SortPermutes | frontend/src/App.tsx:66 | the sorted list is a permutation of the input |
| AppView.NonIncreasingPairwise | frontend/src/App.tsx:66 | in a list sorted by neighbours, every earlier card is rated at least as high as every later one |
| AppView.FilteredRestaurantsSpec | frontend/src/App.tsx:47-68 | the shown list is non-increasing, a permutation of the kept ones, and holds exactly the input's restaurants that pass |
| AppView.PriceFilterExact | frontend/src/App.tsx:49-51 | with a price filter set, every restaurant shown has that price |
| AppView.OpeningWindowBypasses | frontend/src/App.tsx:53-55 | with both times set, each restaurant that passes the price check is shown |
| AppView.StarFilterExcludes | frontend/src/App.tsx:57-59 | without that shortcut, a restaurant rated below the star filter is not shown |
| AppView.CategoryFilterIff | frontend/src/App.tsx:61-63 | with a category set, a restaurant is shown iff some category's alias equals it or its title matches case-insensitively |
| AppView.SortIsStable | frontend/src/App.tsx:66 | of two distinct, equally rated restaurants, the earlier in the input is shown earlier |
| AppView.HandleSearch | frontend/src/App.tsx:84-102 | a blank search is refused first, then a signed-out user; a request goes out iff neither applies |
| AppView.SearchRequestQuery | frontend/src/App.tsx:98-102 | the request's query is the trimmed term as `term` and `location`, plus the converted price when the price filter is set |
| Text.TrimEmptyIffBlank | frontend/src/App.tsx:85 | a search trims to empty iff every character is ECMAScript whitespace or a line terminator, every Unicode space separator included |
| Text.TrimSurrounded | frontend/src/App.tsx:99-100 | one whitespace character of any kind on each side of a word that neither starts nor ends with whitespace is trimmed off, leaving the word |
| AppView.SpaceSeparatorsTrimmed | frontend/src/App.tsx:85-102 | a search of one em space is refused as blank; an em space and a medium mathematical space around `abc` send the bare `abc` |
| Text.AsciiLower | frontend/src/App.tsx:61 | lower-casing maps each character, changing only `A` to `Z` |
| JsonValues.Contains | app/clients/vapi.py:225 | Python `in`: a dict tests its keys, a list its items, a string its substrings; `None`, a number or a boolean raises Python's "argument of type '…' is not iterable" |
| JsonValues.Get | app/clients/vapi.py:213-214 | `.get` succeeds iff the value is a dict, giving the entry or the default; any other value raises Python's "'…' object has no attribute 'get'" |

## Left out

- HTTP to the call vendor, the store and the directory is not modelled: each reply is a parameter.
- `stream_conversation`, `send_message` and `_parse_stream_data` are not modelled; nothing calls them.
- `asyncio.sleep` and the infinite `call_dispatch_loop` are not modelled: the sleeps carry no state, and the model covers one tick.
- The wall clock `time.localtime()` is not modelled: the hour is a parameter, read once per restaurant.
- `ENABLE_CALLS` and the environment-variable IDs are parameters.
- `update_restaurant` is not modelled as a store write, because the source never awaits it. The requested update is returned as data.
- `find_restaurant` is not defined in the source. It is modelled as a lookup by business id plus validation.
- The store's query filters (`search_restaurants`, `search_by_phone`, `get_restaurants`, `get_restaurants_without_hours`) are not modelled: their answers are parameters.
- `get_hours_bulk` awaits a synchronous `execute()` result, which raises at run time. The model takes the query's outcome, including that failure, as an input.
- `get_cached_restaurants`, `update_restaurant`, `delete_restaurant` and `bulk_upsert_restaurants` in app/db/restaurants.py are left out. They are thin store calls, and the read path is covered by `get_stored_restaurants`.
- The HEAD side of the merge conflicts in app/db/restaurants.py is not modelled; the model follows the `origin` side.
- Pydantic coercions are left out. Only exact JSON types validate, except that integers count as floats; string-to-number and datetime parsing are omitted.
- Floating point is not modelled: ratings and coordinates are `real`; NaN and rounding are absent.
- Log text is left out, and so is the `message` field's rendering of the structured data: the report carries the data itself.
- Unicode `\D` is not modelled: `Digits` keeps ASCII digits only.
- Pydantic's `ValidationError` texts are approximated: a failed validation carries a short field-and-reason message, not pydantic's multi-line report. These texts only appear behind the operations' own prefixes.
- Verification.DispatchCalls: the tick runs the corrected `check_hours`. As written, each verified attempt writes its hours and is then logged as failed (`AsWrittenAttemptWritesThenFails`); the hours table is the same either way.
- Verification.DispatchBatch: its attempts are those of the corrected `check_hours`, for the same reason.
- Verification.CheckOne: it runs the corrected `check_hours`, so a verified row reports success where the program as written raises.
- Verification.TickFromWritesOnlyOnVerified: this holds for the corrected `check_hours` only. As written, an attempt recorded as failed can follow an hours write (`R1AttemptFailsAfterWrite`).
- Verification.TickWritesOnlyOnVerified: this holds for the corrected `check_hours` only, for the same reason.
- The `TypeError` text for a missing phone number is the one Python 3.12 and later give. Older versions end the message after "bytes-like object".
- UsersDb.CreateUserSpec: a `user_data` without `user_id` raises `KeyError` after the upsert (app/db/users.py:34), and one whose `user_id` is not a string is upserted under a key the model cannot name. The model returns false and stores nothing in both cases.
- The `datetime` of `created_at` is not modelled: it is a string.
- `URLSearchParams` percent-encoding and the URL text are not modelled: a query is a list of key/value pairs.
- `JSON.stringify` of the post body is not modelled: the body is the JSON value.
- Parse failures of `response.json()` are not modelled: a reply carries a decoded body.
- `console` logging is left out.
- `fetch` and `getToken` are not modelled: their results are parameters.
- RestaurantService.CachedQuery: a limit is an integer, so NaN and fractional limits are not modelled.
- RestaurantService.ConvertPriceFilter: `null` and `undefined` are one `None`, so a distinct null price filter is not modelled. JavaScript treats both alike here.
- RestaurantService.Transform is over the JSON value model. A `length` property that is a numeric string, and getters, are not modelled.
- AppView.Card is a typed view of a UI record; it is not derived from `RestaurantService.Transform`'s output.
- Text.AsciiLower: `toLowerCase` is ASCII-only; Unicode case mapping is not modelled.
- React state, rendering and debounce timing are left out.

## Findings

| source | as written | input that shows it | evidently intended | confidence | as-written member | corrected member |
|---|---|---|---|---|---|---|
| app/clients/vapi.py:229 | On a verified check, `restaurant.is_hours_verified = True` assigns a field that the `Restaurant` model does not declare, so pydantic raises `ValueError`. The hours are already written at that point; the request fails with HTTP 500 and no update is requested. | Restaurant R1 with phone 4155551234, a call that ends, and an analysis with `successEvaluation: true` and both times | a verified check returns its report and requests the verified update | not executed | Verification.CheckResultAsWritten (shown by Verification.R1FailsAsWritten; in a tick, Verification.AttemptResultAsWritten, shown by Verification.R1AttemptFailsAfterWrite) | Verification.CheckResult (used by Verification.CheckHours and by the tick through Verification.AttemptResult, proved in Verification.R1Verified) |
