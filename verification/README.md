# travel-site-frontend: the data layer, session and routing rules in Dafny

This project models the parts of the travel-site front end that hold its logic.
The components and views are out of scope.

- **Response cache** (`TtlCache`). A key/value store where every entry carries an expiry instant. Reads drop expired entries. Entries can be cleared by key, by key prefix or all at once.
- **Request pipeline** (`Gateway`). It covers:
  - the request URL;
  - the merged headers, where the `Authorization` header comes from the stored token;
  - the serialised body;
  - how an answer is classified into a value or an error message;
  - the session teardown on a 401 answer;
  - the cache key of a parameterised list.

  On top of `request` it defines the two cache rules the API clients follow:
  - getters read through the cache;
  - writes invalidate the cache after they succeed.
- **Excursions client** (`Excursions`, class `ExcursionsApi`). Every operation of the newer client:
  - the excursion lists and entities, and their details and images;
  - the composite full view with its image fallback;
  - the create-with-everything and comprehensive-update workflows;
  - invalidation by excursion id.
- **Older all-in-one client** (`LegacyApi`, class `Api`). The same pipeline with a different base URL and a different set of invalidated keys. It adds:
  - login, registration and the current user;
  - the inclusions, itinerary and requirements getters;
  - a raw image upload;
  - the admin check;
  - manual cache clearing.
- **Session helpers** (`Auth`). The login state in localStorage, the JWT payload decoding and the login flow with its error mapping.
- **Router and guard** (`Router`, `Guard`). The route table flags, matched as the router's default options match paths (any letter case, an optional trailing slash), the global `beforeEach` navigation guard, the per-route admin guard and the scroll position.
- **Seat presentation** (`Format`). The Russian plural after a seat count, the availability status and the progress-bar class.

## How the browser is modelled

The browser is a `Browser.Window` object. It holds:
- localStorage, as a map;
- `window.location`;
- the clock;
- every request sent so far;
- a script of the answers the network will give. A `None` answer is a failed `fetch`.

The cache is a `TtlCache.Cache` object. Both are shared by the API clients.

Every client operation is defined twice:
- as a pure step function from one snapshot `Gateway.Env` to the next, together with its outcome;
- as a method of the client class that changes the shared objects and promises in its `ensures` to agree with the step function.

The properties are lemmas about the step functions.

Two library calls become parameters that the caller supplies:
- `JSON.parse`, as a function from text to a JSON value or an error;
- the payload decoding inside `parseJwt` (`atob`, `decodeURIComponent` and `JSON.parse`), as a function from the base64 text.

JSON values (`Js.Json`) carry integers only.

`Js` also models the JavaScript semantics the code relies on:
- truthiness, `||` and optional chaining;
- member access on null, which throws;
- `String(v)` and `JSON.stringify`;
- `String.prototype.split`, `includes` and `startsWith`;
- `encodeURIComponent` and `URLSearchParams` serialisation.

## Model

| member | source | states |
|---|---|---|
| TtlCache.Cache.constructor | src/utils/cache.ts:3 | the cache starts empty |
| TtlCache.Cache.Set | src/utils/cache.ts:6-8 | the key now maps to the value with expiry `now + ttl` (default 5 minutes); other keys keep their entries |
| TtlCache.Cache.Get | src/utils/cache.ts:10-20 | returns the value while `now <= expiry`; returns null for an absent key; returns null for an expired key and deletes that one key |
| TtlCache.Cache.Delete | src/utils/cache.ts:22-24 | exactly the key is removed |
| TtlCache.Cache.ClearByPrefix | src/utils/cache.ts:26-34 | the two-phase loop (collect the keys, then delete them) leaves exactly the entries whose keys do not start with the prefix, with their values and expiries |
| TtlCache.Cache.ClearAll | src/utils/cache.ts:36-38 | the cache is empty |
| TtlCache.SetThenGetWithinTtl | src/utils/cache.ts:6-20 | a value set at t with lifetime ttl is returned at every instant up to and including t + ttl, and reading it changes nothing |
| TtlCache.SetThenGetAfterExpiry | src/utils/cache.ts:6-20 | after t + ttl the read returns null and the store is the old store without that key |
| TtlCache.GetRemovesOnlyExpiredKey | src/utils/cache.ts:10-20 | a read of an absent key changes nothing; a read of an expired key removes only that key; every surviving entry is unchanged |
| TtlCache.PutLeavesOtherKeys | src/utils/cache.ts:6-8 | set does not affect the read of any other key |
| TtlCache.WithoutPrefixExact | src/utils/cache.ts:26-34 | a key survives clearByPrefix iff it does not start with the prefix; survivors keep value and expiry |
| TtlCache.WithoutPrefixExample | src/utils/cache.ts:26-34 | illustration: clearing "excursions" from {excursions:A, excursions:B, reviews:A} leaves only reviews:A |
| TtlCache.PrefixIsCaseSensitive | src/utils/cache.ts:29 | "Excursions:1" survives clearByPrefix("excursions") |
| TtlCache.Put | src/utils/cache.ts:6-8 | the store after set; stated by TtlCache.PutLeavesOtherKeys and TtlCache.SetThenGetWithinTtl |
| TtlCache.Lookup | src/utils/cache.ts:10-20 | what get returns; stated by TtlCache.SetThenGetWithinTtl and TtlCache.SetThenGetAfterExpiry |
| TtlCache.AfterGet | src/utils/cache.ts:10-20 | the store after get; stated by TtlCache.GetRemovesOnlyExpiredKey |
| TtlCache.WithoutPrefix | src/utils/cache.ts:26-34 | the store after clearByPrefix; stated by TtlCache.WithoutPrefixExact |
| Browser.Window.constructor | src/utils/api/base.ts:26 | a window with the given storage, clock and scripted answers, no requests sent, no navigation |
| Browser.Window.Fetch | src/utils/api/base.ts:26 | the request is appended to those sent and the next scripted answer is consumed; storage, location and clock are unchanged |
| Browser.Window.SetItem | src/utils/auth.ts:34-35 | localStorage maps the key to the value; nothing else changes |
| Browser.Window.RemoveItem | src/utils/api/base.ts:30-31 | the key leaves localStorage; nothing else changes |
| Browser.Window.Navigate | src/utils/api/base.ts:33 | the location becomes the new address; nothing else changes |
| Browser.Window.Advance | src/utils/cache.ts:7 | time passes between two operations: only the clock moves, forward by the given amount |
| Gateway.AuthHeaders | src/utils/api/base.ts:56-61 | the only header is Authorization; it is present iff a non-empty token is stored; its value is "type token", with "bearer" when no type is stored |
| Gateway.BuildCacheKey | src/utils/api/base.ts:63-66 | the key starts with the prefix; it equals the prefix iff the params are falsy; otherwise it is `prefix:` followed by the params' JSON text |
| Gateway.BaseApi.constructor | src/utils/api/base.ts:7-8 | a client bound to its base URL, the shared cache and the window |
| Gateway.BaseApi.Request | src/utils/api/base.ts:10-54 | the window, the cache and the result are exactly those of the request step |
| Gateway.BaseApi.ReadThrough | src/utils/api/excursion.ts:74-82 | the state and the result are those of the read-through step: cache hit, else request and store |
| Gateway.BaseApi.RawFetch | src/utils/api/excursion.ts:194-214 | the state and the result are those of a direct fetch with only the auth headers |
| Gateway.HeaderPrecedence | src/utils/api/base.ts:13-20 | caller headers override the auth headers, which override the JSON Content-Type; Content-Type is always present |
| Gateway.OutgoingRequest | src/utils/api/base.ts:11-26 | the URL is base + endpoint; the method is kept; string, form and missing bodies are sent unchanged; object and array bodies become JSON text; a null body is dropped; a string value is sent as it is; Content-Type defaults to application/json |
| Gateway.ErrorMessageCases | src/utils/api/base.ts:36-46 | the error text is: the status line when the body does not parse or is null; a string `detail` as it is; any other `detail` as JSON; "" when `detail` is absent |
| Gateway.OutcomeCases | src/utils/api/base.ts:26-53 | success iff a 2xx answer with a parsable body or status 204; 204 gives {}; a failed fetch gives "Failed to fetch"; other failures give the error message |
| Gateway.RequestSendsOne | src/utils/api/base.ts:26 | each request sends exactly one request, consumes one answer and takes no time |
| Gateway.UnauthorizedTearsDown | src/utils/api/base.ts:29-34 | a 401 removes access_token and token_type, empties the cache, navigates to /login, and still fails |
| Gateway.OnlyUnauthorizedTouchesSession | src/utils/api/base.ts:28-47 | any other answer or a failed fetch leaves cache, storage and location unchanged |
| Gateway.SuccessTouchesNothing | src/utils/api/base.ts:49-53 | a successful request changes only the sent log and the remaining answers |
| Gateway.HitMakesNoRequest | src/utils/api/excursion.ts:74-78 | a live truthy cached value is returned with no request and no change |
| Gateway.MissMakesOneRequest | src/utils/api/excursion.ts:74-82 | a miss sends one GET; a success is stored under the key with the given lifetime; a failure stores nothing |
| Gateway.SecondReadServedFromCache | src/utils/api/excursion.ts:74-82 | after a successful read with a truthy value, repeating it within the lifetime makes no request and returns the same value |
| Gateway.InvalidateExact | src/utils/api/excursion.ts:15-24 | a key survives invalidation iff it does not start with "excursions" or "excursion_full" and is not one of the dropped keys; survivors are unchanged |
| Gateway.WriteInvalidatesOnlyAfterSuccess | src/utils/api/excursion.ts:84-95 | a failed write is just the failed request, with no invalidation; a successful one invalidates and keeps the session |
| Gateway.RawFetchDiffersFromRequest | src/utils/api/excursion.ts:194-214 | a direct fetch never tears the session down, sends no Content-Type, and classifies like `request` except that 204 is parsed |
| Gateway.FieldOrderChangesKey | src/utils/api/base.ts:63-66 | {a:1,b:2} and {b:2,a:1} give different cache keys |
| Gateway.SerializeBody | src/utils/api/base.ts:22-24 | the body handed to fetch; stated by Gateway.OutgoingRequest |
| Gateway.ErrorMessage | src/utils/api/base.ts:36-46 | the message of a failed request; stated by Gateway.ErrorMessageCases |
| Gateway.Outcome | src/utils/api/base.ts:26-53 | the value or error of a request; stated by Gateway.OutcomeCases |
| Gateway.RequestStep | src/utils/api/base.ts:10-54 | `request` on a snapshot; stated by Gateway.RequestSendsOne, Gateway.UnauthorizedTearsDown, Gateway.OnlyUnauthorizedTouchesSession and Gateway.SuccessTouchesNothing |
| Gateway.ReadThroughStep | src/utils/api/excursion.ts:74-82 | the caching getter on a snapshot; stated by Gateway.HitMakesNoRequest, Gateway.MissMakesOneRequest and Gateway.SecondReadServedFromCache |
| Gateway.WriteStep | src/utils/api/excursion.ts:84-95 | a write then invalidation on a snapshot; stated by Gateway.WriteInvalidatesOnlyAfterSuccess and Gateway.InvalidateExact |
| Gateway.RawFetchStep | src/utils/api/excursion.ts:194-214 | a direct fetch on a snapshot; stated by Gateway.RawFetchDiffersFromRequest |
| Js.FieldValue | src/utils/api/base.ts:41 | a field is undefined iff no field has the name; otherwise it is the value of a field with that name |
| Js.Member | src/utils/api/excursion.ts:402 | reading a member throws iff the value is null or undefined |
| Js.SetField | src/utils/api/excursion.ts:324 | after the assignment the member reads back as the new value, and every other member keeps its value |
| Js.Split | src/utils/auth.ts:58 | split always yields at least one part |
| Js.DigitsRoundTrip | src/utils/api/excursion.ts:75 | the decimal rendering of a natural reads back as the same number |
| Js.NumStrInjective | src/utils/api/excursion.ts:75 | distinct integers render to distinct strings, so numeric ids never share a key |
| Js.NumStrHasNoColon | src/utils/api/excursion.ts:75 | a rendered number contains no ':' |
| Excursions.QueryParams | src/utils/api/excursion.ts:36-41 | there are no more pairs than filters |
| Excursions.QueryParamsNames | src/utils/api/excursion.ts:36-41 | every pair is named after one of the filters; distinct filter names give at most one pair each |
| Excursions.ExcursionsApi.constructor | src/utils/api/excursion.ts:14 | the client is bound to its pipeline |
| Excursions.ExcursionsApi.Invalidate | src/utils/api/excursion.ts:15-24 | the store becomes the invalidation of the two prefixes and, for a truthy id, the excursion, details and images keys |
| Excursions.ExcursionsApi.GetActiveExcursions | src/utils/api/excursion.ts:26-48 | reads through the key "activeExcursions[:params]" from /excursions/active with the truthy filters, for 2 minutes |
| Excursions.ExcursionsApi.GetNotActiveExcursions | src/utils/api/excursion.ts:50-72 | the same for "notActiveExcursions" and /excursions/not_active |
| Excursions.ExcursionsApi.GetExcursion | src/utils/api/excursion.ts:74-82 | reads through "excursion:id" from /excursions/id for 5 minutes |
| Excursions.ExcursionsApi.CreateExcursion | src/utils/api/excursion.ts:84-95 | POSTs the JSON body to /excursions; on success clears only the two prefixes (no id is passed) |
| Excursions.ExcursionsApi.UpdateExcursion | src/utils/api/excursion.ts:97-108 | PUTs to /excursions/id; on success invalidates by id |
| Excursions.ExcursionsApi.DeleteExcursion | src/utils/api/excursion.ts:110-119 | DELETEs /excursions/id; on success invalidates by id; the result carries no value |
| Excursions.ExcursionsApi.GetExcursionsByCategory | src/utils/api/excursion.ts:121-129 | reads through "excursions_category:c" for 2 minutes |
| Excursions.ExcursionsApi.SearchExcursions | src/utils/api/excursion.ts:131-141 | reads through "excursions_search:q" from the URI-encoded search endpoint for 2 minutes |
| Excursions.ExcursionsApi.ToggleExcursionActive | src/utils/api/excursion.ts:143-153 | PATCHes /excursions/id/toggle-active; on success invalidates by id |
| Excursions.ExcursionsApi.AddPeopleToExcursion | src/utils/api/excursion.ts:155-167 | PATCHes .../add_people?people_count=n; on success invalidates by id |
| Excursions.ExcursionsApi.ChangeBusNumber | src/utils/api/excursion.ts:169-182 | PUTs .../bus-number?bus_number=n without a body; on success invalidates by id |
| Excursions.ExcursionsApi.AddExcursionImage | src/utils/api/excursion.ts:189-225 | uploads the file as form data by direct fetch; on success drops "excursion_images:id" and invalidates by id |
| Excursions.ExcursionsApi.GetExcursionImages | src/utils/api/excursion.ts:230-249 | reads through the images key; a failure whose text mentions 404 becomes [] |
| Excursions.ExcursionsApi.DeleteExcursionImage | src/utils/api/excursion.ts:254-287 | DELETEs the image by direct fetch; on success clears the three prefixes and returns whether the body is `true` or `"true"` |
| Excursions.ExcursionsApi.UploadAll | src/utils/api/excursion.ts:292-309 | uploads every file in order and collects the outcomes |
| Excursions.ExcursionsApi.BulkAddExcursionImages | src/utils/api/excursion.ts:292-309 | uploads every file; fails with the first failure; otherwise drops the images key, invalidates by id and returns the images in order |
| Excursions.ExcursionsApi.GetExcursionFull | src/utils/api/excursion.ts:313-332 | reads the full view; a response without images gets them from the images read, and a failing fallback is ignored |
| Excursions.ExcursionsApi.GetExcursionDetails | src/utils/api/excursion.ts:334-342 | reads through "excursion_details:id" for 5 minutes |
| Excursions.ExcursionsApi.CreateExcursionDetails | src/utils/api/excursion.ts:344-358 | POSTs the details; on success invalidates by id |
| Excursions.ExcursionsApi.UpdateExcursionDetails | src/utils/api/excursion.ts:360-374 | PUTs the details; on success invalidates by id |
| Excursions.ExcursionsApi.DeleteExcursionDetails | src/utils/api/excursion.ts:376-385 | DELETEs the details; on success invalidates by id |
| Excursions.ExcursionsApi.CreateExcursionWithDetailsAndImages | src/utils/api/excursion.ts:392-412 | creates the excursion, then the details if given, then the images if any, then returns the full view |
| Excursions.ExcursionsApi.DeleteImagesQuietly | src/utils/api/excursion.ts:453-461 | attempts every deletion and swallows failures |
| Excursions.ExcursionsApi.UpdateOrCreateDetails | src/utils/api/excursion.ts:425-445 | updates the details; on a 404 failure it creates them with defaults merged with the update |
| Excursions.ExcursionsApi.UpdateExcursionComprehensive | src/utils/api/excursion.ts:417-467 | updates the excursion, the details, adds and deletes images, then returns the full view |
| Excursions.SplitAtColon | src/utils/api/excursion.ts:20-22 | "f:x" determines f and x when f has no colon |
| Excursions.InvalidationRemovesExactly | src/utils/api/excursion.ts:15-24 | a key survives iff it lies outside both prefixes and, for a truthy id, is none of that excursion's three keys; survivors are unchanged |
| Excursions.GetterKeysInvalidatedBySameId | src/utils/api/excursion.ts:15-24 | for a truthy id the entity, details, images and full keys are all gone |
| Excursions.FalsyIdClearsOnlyPrefixes | src/utils/api/excursion.ts:19 | with id 0 or absent, only the two prefixes are cleared |
| Excursions.ActiveListsSurviveInvalidation | src/utils/api/excursion.ts:32 | the active and inactive list keys survive every invalidation, image upload and image deletion |
| Excursions.CategoryAndSearchAlwaysRemoved | src/utils/api/excursion.ts:122 | the category and search keys fall under "excursions" and are always removed |
| Excursions.EntityKeyOutsidePrefixes | src/utils/api/excursion.ts:20-22 | the entity, details and images keys start with neither prefix |
| Excursions.EntityKeysDistinct | src/utils/api/excursion.ts:20-22 | keys of different numeric ids never coincide |
| Excursions.OtherExcursionSurvives | src/utils/api/excursion.ts:15-24 | a write on excursion a leaves excursion b's entries as they were |
| Excursions.QueryParamsExact | src/utils/api/excursion.ts:36-41 | a (name, text) pair is in the query iff that filter is truthy and text is its string form |
| Excursions.QueryParamsEmpty | src/utils/api/excursion.ts:36-41 | the query is empty iff every filter is falsy |
| Excursions.ListEndpointHasQueryIff | src/utils/api/excursion.ts:42-44 | the endpoint has no "?" part iff every filter is falsy |
| Excursions.FormEncodeKeepsAlphaNumeric | src/utils/api/excursion.ts:42 | letters and digits pass through the form encoding unchanged |
| Excursions.SampleQueryParams | src/utils/api/excursion.ts:36-41 | illustration: {limit:10, skip:0, category:"sea"} yields category then limit |
| Excursions.QueryStringOfTwo | src/utils/api/excursion.ts:42 | two pairs serialise as k1=v1&k2=v2, each part encoded |
| Excursions.QueryStringOfWords | src/utils/api/excursion.ts:42 | alphanumeric pairs appear as written |
| Excursions.SampleQueryString | src/utils/api/excursion.ts:42 | illustration: [("category","sea"),("limit","10")] serialises as "category=sea&limit=10" |
| Excursions.SkipZeroOmitted | src/utils/api/excursion.ts:36-41 | for any params whose skip is falsy (0 or absent): no skip pair is appended, and the pairs follow the fixed order category, limit, excursion_type whatever the order of the object's own fields |
| Excursions.SkipZeroOmittedSample | src/utils/api/excursion.ts:36-42 | illustration: {limit: 10, skip: 0, category: "sea"} gives the query "category=sea&limit=10" |
| Excursions.ImagesNotFoundIsEmptyAndUncached | src/utils/api/excursion.ts:243-245 | a 404 failure yields [] and caches nothing |
| Excursions.ImagesNeverFailWith404 | src/utils/api/excursion.ts:240-248 | the images read never fails with a message mentioning 404 |
| Excursions.ImagesKeepTime | src/utils/api/excursion.ts:230-249 | the images read does not move the clock |
| Excursions.FullViewOutcome | src/utils/api/excursion.ts:313-332 | the full view fails iff its own request fails; what it returns after a miss is cached for 5 minutes |
| Excursions.FullViewWithImagesMakesOneRequest | src/utils/api/excursion.ts:320-330 | a response that already has images (a truthy `images` whose `length` is not 0) costs one request and is cached as received |
| Excursions.FullViewFallsBackToImages | src/utils/api/excursion.ts:321-328 | after a miss, a truthy response without images (none, an empty list, or an object whose `length` is 0) takes the images the images read returns, so an object response's `images` is that list; when that read fails the response is kept as received |
| Excursions.DeleteImageEffects | src/utils/api/excursion.ts:254-287 | the session is never touched; a failure leaves the cache alone; a success clears the three prefixes and returns whether the body is `true` or `"true"` |
| Excursions.AfterImageDeleteExact | src/utils/api/excursion.ts:276-280 | exactly the keys outside "excursion_images", "excursion_full" and "excursions" remain |
| Excursions.UploadAllSendsEveryFile | src/utils/api/excursion.ts:292-309 | every file is sent whatever fails, and the session is untouched |
| Excursions.UploadAllSucceeds | src/utils/api/excursion.ts:292-298 | a successful set of uploads carries one image per file, each the result of that file's upload |
| Excursions.UploadAllFails | src/utils/api/excursion.ts:292-298 | a failed set of uploads reports the first upload, in file order, that failed, after every earlier one succeeded |
| Excursions.BulkAddOutcome | src/utils/api/excursion.ts:292-309 | a success returns the uploaded images, one per file, and afterwards the images key is gone and the cache is invalidated by id; a failure reports the first failing upload and adds no invalidation of its own; every file is sent and the session is kept |
| Excursions.AddImageEffects | src/utils/api/excursion.ts:189-225 | one form POST of the file to /excursions/id/add_image with the auth headers; the result is the answer's outcome; a success drops the images key and invalidates by id; a failure, a 401 included, changes neither the cache nor the session |
| Excursions.ExcursionWritesInvalidateAfterSuccess | src/utils/api/excursion.ts:84-108 | createExcursion, updateExcursion, createExcursionDetails and updateExcursionDetails each send exactly one request with the JSON text of the body; the result is the answer's outcome; a success invalidates (without an id for the create, by id otherwise) and keeps the session; a failure adds no invalidation |
| Excursions.DeleteImagesAttemptsEvery | src/utils/api/excursion.ts:453-461 | every deletion is attempted, and the session is untouched |
| Excursions.DetailsNotFoundCreatesDefaults | src/utils/api/excursion.ts:425-445 | after a 404 from the update, the next request POSTs the defaults merged with the update, and its outcome is returned |
| Excursions.ComprehensiveNoRollback | src/utils/api/excursion.ts:417-467 | any other details failure ends the update with that error; the excursion update stays and nothing more is sent |
| Excursions.ListEndpoint | src/utils/api/excursion.ts:42-44 | the list endpoint with its query; stated by Excursions.ListEndpointHasQueryIff |
| Excursions.ExcursionKeys | src/utils/api/excursion.ts:19-23 | the per-excursion keys an invalidation deletes; stated by Excursions.InvalidationRemovesExactly |
| Excursions.ImagesStep | src/utils/api/excursion.ts:230-249 | getExcursionImages on a snapshot; stated by Excursions.ImagesNotFoundIsEmptyAndUncached, Excursions.ImagesNeverFailWith404 and Excursions.ImagesKeepTime |
| Excursions.WithImages | src/utils/api/excursion.ts:324 | the response with its images set; stated by Js.SetField |
| Excursions.FullStep | src/utils/api/excursion.ts:313-332 | getExcursionFull on a snapshot; stated by Excursions.FullViewOutcome, Excursions.FullViewWithImagesMakesOneRequest and Excursions.FullViewFallsBackToImages |
| Excursions.CreateExcursionStep | src/utils/api/excursion.ts:84-95 | createExcursion on a snapshot; stated by Excursions.ExcursionWritesInvalidateAfterSuccess and Excursions.CreateFailureStops |
| Excursions.UpdateExcursionStep | src/utils/api/excursion.ts:97-108 | updateExcursion on a snapshot; stated by Excursions.ExcursionWritesInvalidateAfterSuccess |
| Excursions.CreateDetailsStep | src/utils/api/excursion.ts:344-358 | createExcursionDetails on a snapshot; stated by Excursions.ExcursionWritesInvalidateAfterSuccess |
| Excursions.UpdateDetailsStep | src/utils/api/excursion.ts:360-374 | updateExcursionDetails on a snapshot; stated by Excursions.ExcursionWritesInvalidateAfterSuccess |
| Excursions.AddImageStep | src/utils/api/excursion.ts:189-225 | addExcursionImage on a snapshot; stated by Excursions.AddImageEffects |
| Excursions.BulkAddStep | src/utils/api/excursion.ts:292-309 | bulkAddExcursionImages on a snapshot; stated by Excursions.BulkAddOutcome |
| Excursions.DeleteImageStep | src/utils/api/excursion.ts:254-287 | deleteExcursionImage on a snapshot; stated by Excursions.DeleteImageEffects and Excursions.AfterImageDeleteExact |
| Excursions.DeleteImagesStep | src/utils/api/excursion.ts:455-463 | the image deletions of the comprehensive update; stated by Excursions.DeleteImagesAttemptsEvery |
| Excursions.UploadAllStep | src/utils/api/excursion.ts:292-309 | the bulk uploads on a snapshot; stated by Excursions.UploadAllSendsEveryFile, Excursions.UploadAllSucceeds and Excursions.UploadAllFails |
| Excursions.DetailsDefaults | src/utils/api/excursion.ts:434-441 | the details created when none exist; stated by Excursions.DetailsNotFoundCreatesDefaults |
| Excursions.DetailsUpdateOrCreateStep | src/utils/api/excursion.ts:428-447 | the details phase of the comprehensive update; stated by Excursions.DetailsNotFoundCreatesDefaults |
| Excursions.CreateWithDetailsStep | src/utils/api/excursion.ts:392-412 | createExcursionWithDetailsAndImages on a snapshot; stated by Excursions.CreateFailureStops and Excursions.CreatedFullViewIsFetched |
| Excursions.ComprehensiveStep | src/utils/api/excursion.ts:417-467 | updateExcursionComprehensive on a snapshot; stated by Excursions.ComprehensiveNoRollback |
| Excursions.CreateFailureStops | src/utils/api/excursion.ts:392-412 | a failed create ends the workflow with its error after the one POST |
| Excursions.CreatedFullViewIsFetched | src/utils/api/excursion.ts:392-412 | without details and images the result is the full view read right after the create, which is never a cache hit |
| LegacyApi.Api.constructor | src/utils/api.ts:14-16 | the client is bound to its pipeline |
| LegacyApi.Api.Invalidate | src/utils/api.ts:77-90 | the two prefixes and, for a truthy id, the five per-excursion keys are removed |
| LegacyApi.Api.Login | src/utils/api.ts:93-99 | POSTs the credentials as JSON text to /login through `request` |
| LegacyApi.Api.GetCurrentUser | src/utils/api.ts:101-108 | GETs /users/me with the auth headers, uncached |
| LegacyApi.Api.Register | src/utils/api.ts:110-115 | POSTs the user data as JSON text to /register |
| LegacyApi.Api.GetExcursions | src/utils/api.ts:118-142 | reads through "excursions[:params]" with the five filters for 2 minutes |
| LegacyApi.Api.GetExcursion | src/utils/api.ts:144-152 | reads through "excursion:id" for 5 minutes |
| LegacyApi.Api.CreateExcursion | src/utils/api.ts:154-166 | POSTs; on success clears only the two prefixes |
| LegacyApi.Api.UpdateExcursion | src/utils/api.ts:168-180 | PUTs; on success invalidates by id |
| LegacyApi.Api.DeleteExcursion | src/utils/api.ts:182-192 | DELETEs; on success invalidates by id |
| LegacyApi.Api.GetExcursionsByCategory | src/utils/api.ts:194-202 | reads through the category key for 2 minutes |
| LegacyApi.Api.SearchExcursions | src/utils/api.ts:204-214 | reads through the search key for 2 minutes |
| LegacyApi.Api.ToggleExcursionActive | src/utils/api.ts:216-227 | PATCHes toggle-active; on success invalidates |
| LegacyApi.Api.AddPeopleToExcursion | src/utils/api.ts:229-242 | PATCHes add_people; on success invalidates |
| LegacyApi.Api.GetExcursionFull | src/utils/api.ts:245-253 | a plain read-through of the full view, with no image fallback |
| LegacyApi.Api.GetExcursionDetails | src/utils/api.ts:256-264 | reads through the details key |
| LegacyApi.Api.CreateExcursionDetails | src/utils/api.ts:267-282 | POSTs the details; on success invalidates |
| LegacyApi.Api.UpdateExcursionDetails | src/utils/api.ts:285-300 | PUTs the details; on success invalidates |
| LegacyApi.Api.CreateOrUpdateExcursionDetails | src/utils/api.ts:303-318 | PATCHes the details; on success invalidates |
| LegacyApi.Api.DeleteExcursionDetails | src/utils/api.ts:321-331 | DELETEs the details; on success invalidates |
| LegacyApi.Api.GetExcursionInclusions | src/utils/api.ts:334-342 | reads through "excursion_inclusions:id" |
| LegacyApi.Api.GetExcursionItinerary | src/utils/api.ts:345-353 | reads through "excursion_itinerary:id" |
| LegacyApi.Api.GetExcursionRequirements | src/utils/api.ts:356-364 | reads through "excursion_requirements:id" |
| LegacyApi.Api.SaveImage | src/utils/api.ts:366-396 | a direct form upload to /excursions/save_image that leaves the cache alone |
| LegacyApi.Api.ChangeBusNumber | src/utils/api.ts:398-411 | PUTs the bus number in the query and in a JSON body; on success invalidates |
| LegacyApi.Api.CheckAdminAccess | src/utils/api.ts:413-420 | the result is that of the admin-check step |
| LegacyApi.Api.ClearCache | src/utils/api.ts:423-425 | the cache is empty |
| LegacyApi.Api.ClearExcursionCache | src/utils/api.ts:428-430 | exactly the effect of invalidation by id |
| LegacyApi.LegacyInvalidationRemovesExactly | src/utils/api.ts:77-90 | a key survives iff it lies outside both prefixes and, for a truthy id, is none of the five keys; survivors are unchanged |
| LegacyApi.FamiliesDistinct | src/utils/api.ts:84-88 | different key families never share a key for the same id |
| LegacyApi.ImagesKeySurvivesLegacyInvalidation | src/utils/api.ts:77-90 | this client never deletes "excursion_images:id" |
| LegacyApi.LegacyGetterKeysInvalidated | src/utils/api.ts:77-90 | every key this client's getters fill for an id is removed by a write on it |
| LegacyApi.ExcursionListAlwaysInvalidated | src/utils/api.ts:125 | the getExcursions key is removed by every invalidation |
| LegacyApi.SessionCallsBypassCache | src/utils/api.ts:93-115 | login, register and current-user change the cache only through the 401 teardown |
| LegacyApi.CheckAdminResult | src/utils/api.ts:413-420 | the admin check never fails: it gives is_superuser of a non-null user, and false otherwise |
| LegacyApi.LegacyKeys | src/utils/api.ts:82-89 | the per-excursion keys this client deletes; stated by LegacyApi.LegacyInvalidationRemovesExactly |
| LegacyApi.CheckAdminStep | src/utils/api.ts:413-420 | checkAdminAccess on a snapshot; stated by LegacyApi.CheckAdminResult |
| Auth.IsSuperuser | src/utils/auth.ts:9-15 | false without a stored record; truthy iff the parsed record's is_superuser is truthy; an error exactly when the stored record does not parse or parses to null |
| Auth.CurrentUser | src/utils/auth.ts:17-20 | models `getCurrentUser`; stated by Auth.LoginThenCurrentUser and Auth.LogoutEndsSession |
| Auth.Logout | src/utils/auth.ts:22-27 | the three session keys are removed and the window goes to /login |
| Auth.ReplaceAll | src/utils/auth.ts:59 | same length; every occurrence of the character is replaced and nothing else |
| Auth.LoginFailure | src/utils/auth.ts:47-52 | the admin-rights message iff the error text contains "403", otherwise the credentials message |
| Auth.Login | src/utils/auth.ts:29-53 | the state and the result are those of the login step |
| Auth.LogoutEndsSession | src/utils/auth.ts:22-27 | after logout: not authenticated, not superuser, no current user, other keys kept |
| Auth.SuperuserIgnoresToken | src/utils/auth.ts:9-15 | the superuser answer does not depend on the token |
| Auth.Base64FromUrlMapsAlphabet | src/utils/auth.ts:59 | no '-' or '_' remains; other characters are kept; '-' becomes '+'; the mapping is idempotent |
| Auth.SplitAfterSegment | src/utils/auth.ts:58 | splitting "h.x" with no '.' in h gives h followed by the parts of x |
| Auth.SplitFirstSegment | src/utils/auth.ts:58 | the first part runs up to the first separator |
| Auth.SplitWithoutSeparator | src/utils/auth.ts:58 | a string without the separator splits into itself |
| Auth.JwtPayloadSegment | src/utils/auth.ts:56-70 | only the second segment of "header.payload[.sig]" is decoded, after the base64url mapping |
| Auth.JwtFailureIsEmptyObject | src/utils/auth.ts:67-69 | a non-string token or one without '.' decodes to {} |
| Auth.FailedLoginRequest | src/utils/auth.ts:47-52 | a failed login request stores nothing beyond the 401 teardown and maps the error text |
| Auth.ForbiddenWithoutBody | src/utils/auth.ts:48-49 | a 403 without a parsable body yields the admin-rights message |
| Auth.ForbiddenWithDetail | src/utils/auth.ts:48-51 | a 403 whose string detail has no '4' yields the credentials message |
| Auth.WithoutFourNo403 | src/utils/auth.ts:48 | text without a '4' never contains "403" |
| Auth.SuccessfulLoginStores | src/utils/auth.ts:34-46 | a successful login stores the token, its type and the user record, and no other key changes |
| Auth.NullPayloadFailsAfterStoringToken | src/utils/auth.ts:38-52 | a payload that decodes to null fails the login after the token was stored |
| Auth.StoredRecordFlag | src/utils/auth.ts:41-46 | the stored record reads back with is_superuser truthy iff the payload's was |
| Auth.LoginStepStores | src/utils/auth.ts:34-46 | the exact storage after a login whose payload yields a record |
| Auth.LoginThenAuthenticated | src/utils/auth.ts:29-46 | a 200 with a non-empty token logs in and isAuthenticated holds |
| Auth.LoginThenSuperuser | src/utils/auth.ts:41-46 | after login, when `JSON.parse` reads the stored record back as written, isSuperuser is truthy iff the token payload's is_superuser is |
| Auth.LoginThenCurrentUser | src/utils/auth.ts:17-46 | after a login whose payload yields a record, when `JSON.parse` reads that record back as written, getCurrentUser returns it, with the email logged in with |
| Auth.IsAuthenticated | src/utils/auth.ts:5-7 | a non-empty access token is stored; stated by Auth.LoginThenAuthenticated and Auth.LogoutEndsSession |
| Auth.LoggedOut | src/utils/auth.ts:22-27 | the storage after logout; stated by Auth.LogoutEndsSession |
| Auth.ParseJwt | src/utils/auth.ts:56-70 | the decoded token payload; stated by Auth.JwtPayloadSegment and Auth.JwtFailureIsEmptyObject |
| Auth.UserRecord | src/utils/auth.ts:41-45 | the stored user record; stated by Auth.StoredRecordFlag and Auth.NullPayloadFailsAfterStoringToken |
| Auth.LoginStep | src/utils/auth.ts:29-53 | login on a snapshot; stated by Auth.LoginStepStores, Auth.SuccessfulLoginStores and Auth.FailedLoginRequest |
| Router.ScrollBehavior | src/router/index.ts:61-72 | the position is always the top, scrolled smoothly |
| Router.RouteFlags | src/router/index.ts:12-60 | every spelling of /admin (any letter case, optional trailing slash) requires auth and admin; every spelling of /access-denied requires auth; every other path has no flags |
| Router.MetaAt | src/router/index.ts:12-56 | the first static route matching the path gives its flags |
| Router.AdminSpellings | src/router/index.ts:58-60 | /Admin and /admin/ resolve to the admin record's flags, with the path kept as written |
| Router.UnauthenticatedGoesToLogin | src/router/index.ts:76-77 | a route requiring auth sends an unauthenticated user to /login |
| Router.AdminProceedsIff | src/router/index.ts:75-85 | every spelling of /admin proceeds iff the user is authenticated and a superuser; without a session it goes to /login; a non-superuser goes to /access-denied |
| Router.LoginPageRedirect | src/router/index.ts:80-81 | /login redirects an authenticated user to /admin and proceeds otherwise |
| Router.OpenPagesProceed | src/router/index.ts:75-84 | every path that is no spelling of /admin or /access-denied, and is not /login as written, proceeds for everyone |
| Router.RedirectsSettle | src/router/index.ts:75-85 | following a redirect, plus at most one more, reaches a page that proceeds |
| Router.ScrollIgnoresInputs | src/router/index.ts:61-72 | the scroll position does not depend on the target or the saved position |
| Router.Resolve | src/router/index.ts:12-60 | the flags a path resolves to; stated by Router.RouteFlags |
| Router.BeforeEach | src/router/index.ts:75-85 | the global guard; stated by Router.UnauthenticatedGoesToLogin, Router.AdminProceedsIff, Router.LoginPageRedirect and Router.OpenPagesProceed |
| Guard.GuardCases | src/utils/guard.ts:3-14 | /login without a session; /access-denied for a non-superuser; admission iff authenticated superuser |
| Guard.StaleRecordWithoutToken | src/utils/guard.ts:4-6 | a superuser record without a token does not admit |
| Guard.GuardAgreesWithRouter | src/utils/guard.ts:3-14 | the guard and the router's beforeEach decide every spelling of /admin alike |
| Guard.AdminGuard | src/utils/guard.ts:3-14 | the admin guard; stated by Guard.GuardCases |
| Format.JsRem | src/utils/format.ts:4 | the truncating remainder: equal to `a % b` for a >= 0, and in (-b, 0] for a < 0 |
| Format.TitleIsCldrPlural | src/utils/format.ts:3-17 | for every count >= 0 the word is the CLDR Russian plural (one / few / many) |
| Format.JsRemIsOdd | src/utils/format.ts:8 | the remainder of -a is minus the remainder of a |
| Format.TitlePeriodic | src/utils/format.ts:3-17 | the word depends only on the last two digits |
| Format.NegativeCountsTakeGenitive | src/utils/format.ts:3-17 | every negative count gets "мест" |
| Format.StatusClassCases | src/utils/format.ts:19-23 | sold-out iff 0 left; few-left iff non-zero and at most a fifth; available otherwise |
| Format.StatusTextMatchesClass | src/utils/format.ts:25-29 | each status text corresponds to its status class |
| Format.PercentageBounds | src/utils/format.ts:36-40 | 0..100 for consistent counts; 100 when sold out |
| Format.ProgressClassByCounts | src/utils/format.ts:43-48 | danger iff at least 90% occupied; warning iff 70% or more but below 90% |
| Format.NoSeatsIsSuccess | src/utils/format.ts:37 | zero seats gives 0% and success |
| Format.SoldOutShowsDanger | src/utils/format.ts:19-48 | a sold-out excursion with seats is "sold-out" and "danger" |
| Format.PeopleLeftTitle | src/utils/format.ts:3-17 | the word after a seat count; stated by Format.TitleIsCldrPlural, Format.TitlePeriodic and Format.NegativeCountsTakeGenitive |
| Format.StatusClass | src/utils/format.ts:19-23 | the availability class; stated by Format.StatusClassCases |
| Format.StatusText | src/utils/format.ts:25-29 | the availability text; stated by Format.StatusTextMatchesClass |
| Format.ProgressPercentage | src/utils/format.ts:36-40 | the occupied share in percent; stated by Format.PercentageBounds |
| Format.ProgressClass | src/utils/format.ts:43-48 | the progress-bar class; stated by Format.ProgressClassByCounts |

## Left out

- Time: `fetch` takes no time. The clock moves only through `Browser.Window.Advance`. `Date.now()` is the window's clock.
- Excursions.ExcursionsApi.BulkAddExcursionImages, Excursions.ExcursionsApi.UploadAll, Excursions.ExcursionsApi.DeleteImagesQuietly, Excursions.ExcursionsApi.UpdateExcursionComprehensive: `Promise.all` over the uploads and over the image deletions is modelled as the calls in sequence, in array order, which is also the order of the scripted answers. When several uploads fail, the bulk upload reports the first failure in file order, whereas `Promise.all` rejects with the first failure to settle while the other uploads keep running.
- Asynchrony: a rejected promise is an `Err` result. Logging to the console is not modelled.
- JSON.parse and decoding: `JSON.parse`, `atob` and `decodeURIComponent` are not modelled. The caller supplies them as functions.
- Number rendering: JSON numbers are integers. `String(n)` is modelled for integers only.
- Gateway.BuildCacheKey: the key follows the parameters object's own field order, so two orders give two keys (`Gateway.FieldOrderChangesKey`).
- Format.StatusClass, Format.StatusText: the comparison `left <= amount * 0.2` is modelled exactly as `5 * left <= amount`. Floating-point rounding of `amount * 0.2` is not modelled.
- Format.ProgressPercentage: computed on exact rationals. Floating-point rounding at the 70 and 90 thresholds is not modelled.
- `formatPrice`: not modelled. It depends on `toLocaleString('ru-RU')` grouping.
- Excursions.WithImages: the full view's image fallback only adds `images` to an object response. An array response with a property added is not modelled.
- Router.Resolve: a path is matched against the static route paths only, case-insensitively and with one optional trailing slash, as the router's default `sensitive: false` and `strict: false` options do. The two dynamic records (`/excursion/:id` and the catch-all) rank below every static record and carry no flags, so a path no static record matches gets no flags. Percent-encoded spellings of a path are not modelled.
- Router.ScrollBehavior: the saved-position and hash branches are commented out in the source and are not modelled.
- Router.RedirectsSettle: holds only when the stored user record parses. When `isSuperuser()` throws, the navigation fails instead.
- `src/utils/api/reviews.ts`, `src/utils/api/booking.ts`, `src/utils/api/auth.ts` and `src/utils/api/index.ts` are not part of this model. The same holds for the Vue views, the components and `main.ts`.
- BaseUrl, LegacyApi.LegacyBaseUrl: the build-time environment (`import.meta.env`) is a parameter.
