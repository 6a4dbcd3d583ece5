# novatrip routers in Dafny

A model of the request logic of four Express routers of the novatrip travel
back end, with proofs about that model:

- **`/:type`** (`routers/tourRouter.js`) aggregates a page of the public
  tourism API for one of eight categories. It validates the category, builds
  the list call with the category's filter and looks up a page cache keyed by
  `${type}_${pageNo}_${numOfRows}`. It then fetches each item's detail through
  a process-wide detail cache and merges `overview`, `homepage` and the two
  images onto the item.
- **`/course`** (`routers/courseRouter.js`) lists travel courses. For each
  course it fetches an overview and a list of places, and for each place a
  detail merged onto the raw place. A course cache and a place cache sit in
  front of these calls. Every failure after the course list degrades to a
  placeholder instead of failing the request.
- **The board router** (`routers/boardRouter.js`) provides:
  - the two tour-style sanitizers;
  - the listing's `skip`/`limit` defaults and `sortField` switch;
  - the new-post payload (the `pinTop` default, the `tourSpot` fallback, the
    coordinate check, the GeoJSON spot and the next board number);
  - the image-list edit of the edit handler.
- **The authentication router** (`routers/auth.js`) provides:
  - the Kakao age-range label (`toKoreanDecadeLabel`);
  - the `/api/me` age label (`calcAgeRange`, `ageRangeOut`) and gender default;
  - the `/api/change-info` update whitelist;
  - the in-memory e-mail verification code store.

Files:

| file | module | what it holds |
|---|---|---|
| `js.dfy` | `Js` | JavaScript values (`undefined`, `null`, booleans, integers, strings, arrays, objects) and the operators the routers use: truthiness, `\|\|`, `??`, `?.`, spread, `String(x)`, `Number(x)`, `trim()`, `toLowerCase()` |
| `upstream.dfy` | `Upstream` | the tourism API's requests and replies, the network as an oracle that records every request (`Network`), and the normalisation of the `response.body.items.item` envelope |
| `tour.dfy` | `TourRouter` | the list aggregator, as specification functions (`HandleTypeSpec`, `MergeAll`, …) and as the `TourService` class whose two map fields are the detail cache and the page cache |
| `course.dfy` | `CourseRouter` | the course aggregator, as specification functions (`HandleCourseSpec`, `CourseAll`, `PlacesAll`, …) and as the `CourseService` class holding the course and place caches |
| `board.dfy` | `BoardRouter` | the board helpers, and `ImageStore` for the image documents the edit handler updates |
| `auth.dfy` | `Auth` | the member helpers, and `EmailCodeStore` for the code map |

Each handler is modelled twice:

- as a **method** of a class whose fields are the router's module-level caches
  (`detailCache`, `itemsCache`, `courseCache`, `placeCache`, `emailCodes`);
- as a **pure function** of the inputs, the old caches and the upstream's
  answers.

Each method's `ensures` states that its response, its new caches and the
requests it added to the network trace are exactly what the function gives.
The lemmas then prove the routers' promises about those functions: what the
caches keep, what is fetched and how often, the order of the results, and
what happens on a repeated request.

## Model

| member | source | states |
|---|---|---|
| `Upstream.DetailRequest` | routers/tourRouter.js:29-33 | the detail call targets `detailCommon2` and carries the requested identifier as `contentId` (the same call is made at routers/courseRouter.js:61-69 and 109-117) |
| `Upstream.DetailRequests` | routers/tourRouter.js:58 | the detail calls for a run of identifiers are one call per identifier, in the same order |
| `Upstream.Network.Get` | routers/tourRouter.js:11 | a call appends its request to the trace and returns the oracle's answer for that request |
| `Upstream.KeepTruthy` | routers/courseRouter.js:44 | `filter(Boolean)` keeps only truthy values |
| `Upstream.KeepTruthyAppend` | routers/courseRouter.js:44 | `filter(Boolean)` distributes over concatenation, so the truthy values keep their input order |
| `Upstream.KeepTruthyMembers` | routers/courseRouter.js:44 | a value survives `filter(Boolean)` exactly when it is in the input and truthy |
| `Upstream.NormalisationsAgree` | routers/tourRouter.js:23-24 | the list aggregator's `item \|\| []` plus wrap and the course aggregator's array-or-`[item].filter(Boolean)` (routers/courseRouter.js:42-44) agree: an array is kept, a truthy non-array becomes one element, a falsy or absent value becomes nothing |
| `Upstream.FirstIfArray` | routers/tourRouter.js:35 | an array becomes its first element (`undefined` when empty); anything else is unchanged |
| `Js.Or` | routers/tourRouter.js:61-64 | `a \|\| b` is `a` when truthy and `b` otherwise |
| `Js.Coalesce` | routers/courseRouter.js:124-130 | `a ?? b` is `a` unless it is `null` or `undefined` |
| `Js.TrimSlice` | routers/auth.js:474-477 | `trim()` keeps a contiguous slice of the input and drops only whitespace; what it keeps neither starts nor ends with whitespace |
| `Js.TrimIdempotent` | routers/auth.js:474-477 | trimming twice is trimming once |
| `Js.TrimUnpadded` | routers/auth.js:478 | a string without leading or trailing whitespace trims to itself |
| `Js.ToLower` | routers/auth.js:476 | `toLowerCase()` keeps the length and lowers each character |
| `Js.LowerIdempotent` | routers/auth.js:476 | lower-casing twice is lower-casing once |
| `Js.TrimLower` | routers/auth.js:476 | `trim()` and `toLowerCase()` commute |
| `Js.NatToStringRoundTrip` | routers/tourRouter.js:17 | reading back the decimal numeral `String(n)` writes gives `n` |
| `Js.NatToStringLength` | routers/tourRouter.js:17 | the numeral of a `k`-digit number has exactly `k` characters |
| `Js.NatToString` | routers/tourRouter.js:17 | `String(n)` of a natural number is a non-empty run of digits with no leading zero |
| `Js.ToNumber` | routers/boardRouter.js:161-164 | `Number(x)` of a number is itself, of `undefined` NaN, of `null` 0 |
| `Js.NumeralNumber` | routers/boardRouter.js:161-164 | `Number(String(i))` is `i` for every integer, negative ones included |
| `Js.BlankNumber` | routers/boardRouter.js:161-164 | `Number` of an empty or all-whitespace string is 0 |
| `Js.NonNumeralNumber` | routers/boardRouter.js:161-164 | `Number` of a string holding a character that is neither whitespace, a digit nor a sign is NaN |
| `TourRouter.ApiFor` | routers/tourRouter.js:81-93 | a category has an endpoint exactly when it is one of the eight `apiMap` keys: `event` and `stay` have their search endpoints, the other six have `areaBasedList2`; anything else is the 400 `invalid type` (the corrected guard, see Findings) |
| `TourRouter.InheritedNamePassesTypeGuard` | routers/tourRouter.js:92-93 | `toString` has no endpoint, yet the guard as written lets it through (see Findings) |
| `TourRouter.QueryOr` | routers/tourRouter.js:78 | an absent `pageNo`/`numOfRows` takes its numeric default, and a present one is its query string |
| `TourRouter.CacheKeyInjective` | routers/tourRouter.js:95 | for valid categories and page numbers without `_`, equal page-cache keys mean equal category, page number and row count |
| `TourRouter.SplitAtFirstUnderscore` | routers/tourRouter.js:95 | two underscore-free prefixes that are each followed by `_` and give the same string are equal, and so are the rests |
| `TourRouter.ListParamsSpread` | routers/tourRouter.js:101-117 | the list call (with `_type` added at line 22) carries the requested `pageNo` and `numOfRows`, `_type=json`, `areaCode=1` and `arrange=Q`; every category-filter entry is sent unchanged; nothing else is sent |
| `TourRouter.BaseAndFilter` | routers/tourRouter.js:103-116 | spreading a filter over the common parameters overrides none of the page or format parameters |
| `TourRouter.FilterKeysApart` | routers/tourRouter.js:110-116 | no conditional spread names a page or format parameter |
| `TourRouter.BaseKeys` | routers/tourRouter.js:22-109 | the common list parameters are exactly `_type`, `numOfRows`, `pageNo`, `MobileOS`, `MobileApp`, `arrange` and `areaCode` |
| `TourRouter.CategoryFilterKeys` | routers/tourRouter.js:110-116 | a category filter uses only `contentTypeId`, `eventStartDate` and the three `cat` keys |
| `TourRouter.CategoryFilterExact` | routers/tourRouter.js:110-116 | per category: `contentTypeId` 12/39/39/14/28/38 for trip/food/cafe/culture/leisure/shop and none for event and stay; `eventStartDate` = today only for event; the three `cat` codes only for cafe |
| `TourRouter.TodayFormat` | routers/tourRouter.js:15-18 | for a four-digit year, `getToday` is an eight-digit `YYYYMMDD` string whose parts read back as the year, the month and the day |
| `TourRouter.Pad2Number` | routers/tourRouter.js:17 | `padStart(2, '0')` of a number below 100 is two digits that read back as the number |
| `TourRouter.EnrichExact` | routers/tourRouter.js:56-69 | the merged record keeps every item field except the four merged ones; `overview`/`homepage` are the detail's truthy value or `''`; each image is the detail's, else the item's, else `''`; a missing detail merges like an empty one (the catch branch, lines 66-69) |
| `TourRouter.EnrichMissing` | routers/tourRouter.js:66-69 | a nullish detail (a cached `undefined` from an empty item array) makes the property reads throw, and the catch branch builds the same record as an empty detail |
| `TourRouter.DetailLookup` | routers/tourRouter.js:44-49 | a cache hit returns the stored value and fetches nothing; a miss fetches once and stores exactly what `fetchDetail` returned |
| `TourRouter.DetailLookupSettles` | routers/tourRouter.js:44-49 | a second lookup of the same identifier fetches nothing and returns the same value; no existing entry changes |
| `TourRouter.MergeItemCache` | routers/tourRouter.js:56-58 | one item changes the detail cache only by fetching and storing its missing `contentid` |
| `TourRouter.MergeItemStep` | routers/tourRouter.js:54-70 | one item appends its outcome, computed from the detail cache afterwards, and keeps every old cache entry |
| `TourRouter.OutcomeStable` | routers/tourRouter.js:56-69 | an item's outcome does not change when the cache grows, once the cache holds the item's identifier |
| `TourRouter.MergeAllCache` | routers/tourRouter.js:53-73 | after `mergeData`, old entries are unchanged, the new keys are exactly the needed identifiers that were missing, each new entry is what `fetchDetail` returned, and each is fetched exactly once |
| `TourRouter.MergeAllEntries` | routers/tourRouter.js:44-49 | the cache keys after `mergeData` are the old keys plus the list's identifiers; new entries are fetched details |
| `TourRouter.MergeAllKeys` | routers/tourRouter.js:44-49 | the cache keys after `mergeData` are the old keys plus the list's identifiers |
| `TourRouter.MergeAllValues` | routers/tourRouter.js:44-49 | `mergeData` never overwrites an entry, and each new entry is the detail fetched for its key |
| `TourRouter.MergeAllFetched` | routers/tourRouter.js:44-49 | `mergeData` fetches exactly the needed identifiers that were not cached, each once |
| `TourRouter.MergeAllCovers` | routers/tourRouter.js:56-58 | after `mergeData`, every identifier the list needed is cached |
| `TourRouter.MergeAllOutcomes` | routers/tourRouter.js:53-73 | `mergeData` keeps length and order: position i depends only on item i and the detail cache afterwards |
| `TourRouter.MergeAllLength` | routers/tourRouter.js:72 | `Promise.all` yields one outcome per item |
| `TourRouter.CachedListFetchesNothing` | routers/tourRouter.js:45 | when every needed identifier is cached, `mergeData` fetches nothing and leaves the detail cache unchanged |
| `TourRouter.Records` | routers/tourRouter.js:72 | the merged records are the outcomes' records, one for one |
| `TourRouter.HandleTypeEffects` | routers/tourRouter.js:76-129 | an unknown category is a 400 that fetches and changes nothing; a cached page is returned with no fetch; on a miss the list call is made first; the page cache changes only by storing a non-empty merged page under the request's key, which is then the response; a failed list call is the 500 with both caches unchanged and only the list call made (lines 100-128); a 500 never changes the page cache |
| `TourRouter.MergePageEffects` | routers/tourRouter.js:122-127 | a non-empty list either leaves the page cache alone or stores the non-empty page it returns |
| `TourRouter.HandleTypePage` | routers/tourRouter.js:100-124 | a fresh 200 page lists one record per upstream item, in upstream order, each being the item's merge with the cached detail |
| `TourRouter.MergePageRecords` | routers/tourRouter.js:122-124 | a merged page holds item i's merge with the detail cache at position i |
| `TourRouter.RepeatRequest` | routers/tourRouter.js:95-123 | repeating a request returns a non-empty page unchanged with no upstream call; an empty page was not cached, so the repeat asks for the list again |
| `TourRouter.TourService.constructor` | routers/tourRouter.js:12-13 | both caches start empty |
| `TourRouter.TourService.FetchDetail` | routers/tourRouter.js:29-41 | one detail call: the envelope item, `{}` when falsy, its first element when an array, `{}` when the call fails |
| `TourRouter.TourService.FetchDetailCached` | routers/tourRouter.js:44-49 | the detail, cache and trace are exactly those of `DetailLookup` |
| `TourRouter.TourService.MergeOne` | routers/tourRouter.js:55-70 | the per-item callback: its outcome, the detail cache and the trace are those of one step of `mergeData` |
| `TourRouter.TourService.MergeData` | routers/tourRouter.js:53-73 | the outcomes, detail cache and trace are exactly those of `MergeAll` over the items in order |
| `TourRouter.TourService.LoadPage` | routers/tourRouter.js:100-128 | after a page-cache miss, the response, both caches and the trace are those of the specification |
| `TourRouter.TourService.MergePage` | routers/tourRouter.js:122-127 | `mergeData` then the page store, or a 500 that stores nothing |
| `TourRouter.TourService.HandleType` | routers/tourRouter.js:76-129 | the response, both caches and the requests made are those of `HandleTypeSpec` |
| `CourseRouter.RowsParam` | routers/courseRouter.js:38 | `numOfRows` is the query value unless it is absent or empty, in which case it is 20 |
| `CourseRouter.OverviewDegrades` | routers/courseRouter.js:59-76 | a failed overview call leaves `null`; an array item uses its first element; a present overview is kept even when falsy |
| `CourseRouter.MergedPlaceExact` | routers/courseRouter.js:119-139 | on success each of the seven detail fields is the detail's value unless nullish, else `null`, and the other raw fields are kept; on failure the record is the raw place alone |
| `CourseRouter.PlaceItemCache` | routers/courseRouter.js:102-139 | one place changes the place cache only by fetching and storing its missing `subcontentid` |
| `CourseRouter.PlacesAllCache` | routers/courseRouter.js:99-143 | after a course's places, old entries are untouched, the new keys are exactly the missing sub-identifiers, and each is fetched exactly once |
| `CourseRouter.PlacesAllKeeps` | routers/courseRouter.js:106 | the place callbacks never overwrite a cached place |
| `CourseRouter.PlacesAllKeys` | routers/courseRouter.js:133-138 | the place-cache keys afterwards are the old keys plus the list's sub-identifiers |
| `CourseRouter.PlacesAllFetched` | routers/courseRouter.js:106-117 | the place details fetched are exactly the missing sub-identifiers, each once |
| `CourseRouter.PlacesAllNewEntries` | routers/courseRouter.js:122-139 | each new place-cache entry is the merge of a listed place carrying that sub-identifier with the detail fetched for it |
| `CourseRouter.PlacesAllOutcomes` | routers/courseRouter.js:99-148 | places keep their order; a nullish place or one without `subcontentid` yields nothing, and any other yields exactly the cached record of its sub-identifier |
| `CourseRouter.Kept` | routers/courseRouter.js:145-148 | the kept records are never more than the outcomes |
| `CourseRouter.KeptAppend` | routers/courseRouter.js:145-148 | the fulfilled-and-truthy filter distributes over concatenation, so survivors keep their order and a dropped outcome shifts none of the others |
| `CourseRouter.KeptMembers` | routers/courseRouter.js:145-148 | a record survives exactly when some outcome holds it; a place that yields nothing (nullish, or no `subcontentid`) contributes nothing |
| `CourseRouter.KeptAll` | routers/courseRouter.js:145-148 | with nothing filtered out, the kept records are the outcomes one for one |
| `CourseRouter.StepUncachedCourse` | routers/courseRouter.js:57-153 | an uncached course is built (overview call, places call, place details) and then cached under its `contentid` |
| `CourseRouter.StepCourseEffects` | routers/courseRouter.js:52-153 | a cached course is returned verbatim with no call; an uncached one calls overview then places then one detail per uncached place, is stored under its `contentid` with that id and overview, and evicts no place-cache entry |
| `CourseRouter.UncachedRequests` | routers/courseRouter.js:61-117 | an uncached course's requests are the overview call, the places call, then only detail calls |
| `CourseRouter.PlacesFailure` | routers/courseRouter.js:79-96 | when the places call of an uncached course fails, the record keeps the overview call's result and has `places: []`, the course is cached under its id, the place cache is unchanged, and only the overview and places calls are made |
| `CourseRouter.DegradedCourse` | routers/courseRouter.js:57-158 | when both of a course's calls fail, its record is `{..., overview: null, places: []}` and nothing else is fetched (the same record as the unreachable catch at lines 154-158) |
| `CourseRouter.StepCourseCaches` | routers/courseRouter.js:49-153 | one course keeps every entry of both caches; a readable course ends up in the course cache and yields that entry; a nullish one yields nothing |
| `CourseRouter.CourseAllCaches` | routers/courseRouter.js:47-161 | no entry of either cache is overwritten, and every course identifier of the list ends up cached, degraded or not |
| `CourseRouter.CourseAllKeeps` | routers/courseRouter.js:52-55 | no entry of either cache is overwritten across the course list |
| `CourseRouter.CourseAllKeys` | routers/courseRouter.js:152 | the course-cache keys afterwards are the old keys plus the list's course identifiers |
| `CourseRouter.RecordStable` | routers/courseRouter.js:52-55 | a cached course's entry does not change as the cache grows |
| `CourseRouter.CourseAllRecords` | routers/courseRouter.js:47-166 | each course yields its record in its own position: nothing for a nullish course (its destructuring throws), otherwise the course cache's entry for its identifier |
| `CourseRouter.CachedCoursesFetchNothing` | routers/courseRouter.js:52-55 | when every course is cached, the courses make no call and change no cache |
| `CourseRouter.HandleCourseOutcome` | routers/courseRouter.js:23-173 | only a failed course-list call gives a 500, which leaves both caches unchanged; otherwise the response is 200, and with no nullish course it lists one record per course, in order, each being the course cache's record |
| `CourseRouter.ListedCourses` | routers/courseRouter.js:164-166 | with no nullish course, the kept records are the course cache's entries for the courses, one for one |
| `CourseRouter.RepeatCourseRequest` | routers/courseRouter.js:52-55 | after a 200, the same request makes only the course-list call and returns the same response |
| `CourseRouter.CoursesAgain` | routers/courseRouter.js:47-161 | a second run over the same courses, on the caches the first run left, fetches nothing and yields the same records and caches |
| `CourseRouter.CourseService.constructor` | routers/courseRouter.js:12-13 | both caches start empty |
| `CourseRouter.CourseService.PlaceOne` | routers/courseRouter.js:101-141 | the place callback: its outcome, place cache and trace are those of one step of the place specification |
| `CourseRouter.CourseService.FetchPlaces` | routers/courseRouter.js:99-143 | the outcomes, place cache and trace are exactly those of `PlacesAll` over the places in order |
| `CourseRouter.CourseService.BuildRecord` | routers/courseRouter.js:57-153 | an uncached course's record, the place cache and the trace (overview call, places call, place details) are those of the specification |
| `CourseRouter.CourseService.ProcessCourse` | routers/courseRouter.js:48-160 | one course's record, both caches and its requests are those of `StepCourse` |
| `CourseRouter.CourseService.ProcessCourses` | routers/courseRouter.js:47-161 | every course in list order; records, caches and trace are those of `CourseAll` |
| `CourseRouter.CourseService.HandleCourse` | routers/courseRouter.js:23-173 | the response, both caches and the requests made are those of `HandleCourseSpec` |
| `BoardRouter.KeepListed` | routers/boardRouter.js:26 | the filter keeps only listed styles and never lengthens the input |
| `BoardRouter.KeepListedAppend` | routers/boardRouter.js:26 | the filter keeps order: filtering a concatenation concatenates the filtered parts |
| `BoardRouter.LegacySanitizerExact` | routers/boardRouter.js:19-27 | the module-level sanitizer keeps exactly the listed strings, as often as they occur and in input order, without trimming, de-duplicating or capping; a non-array gives nothing |
| `BoardRouter.KeepListedMembers` | routers/boardRouter.js:26 | a value survives the filter exactly when it is in the input and listed |
| `BoardRouter.KeepListedAll` | routers/boardRouter.js:26 | an input of listed styles only is returned unchanged |
| `BoardRouter.Candidates` | routers/boardRouter.js:60 | each element is converted with `String` and trimmed, one for one |
| `BoardRouter.KeepAllowed` | routers/boardRouter.js:60 | the allow-list filter keeps only allowed strings from the input |
| `BoardRouter.KeepAllowedAppend` | routers/boardRouter.js:60 | the allow-list filter distributes over concatenation, so the kept strings keep their input order |
| `BoardRouter.KeepAllowedMembers` | routers/boardRouter.js:60 | a string survives the allow-list filter exactly when it is in the input and allowed |
| `BoardRouter.FirstIndex` | routers/boardRouter.js:59-61 | the index found holds the string, and no earlier index does |
| `BoardRouter.FirstIndexUnique` | routers/boardRouter.js:59-61 | a position holding the string with no earlier occurrence is its first index |
| `BoardRouter.Dedupe` | routers/boardRouter.js:59-61 | `Array.from(new Set(s))` holds the same strings as `s`, with no repeats |
| `BoardRouter.DedupeOrder` | routers/boardRouter.js:59-61 | the de-duplicated strings come in the order of their first occurrences |
| `BoardRouter.Take` | routers/boardRouter.js:62 | `slice(0, n)` is the first `min(n, length)` elements |
| `BoardRouter.SanitizeTourStyleBasics` | routers/boardRouter.js:57-63 | the create handler's sanitizer gives nothing for a non-array; every output is allowed and eligible; no output repeats; at most five are kept, and they are the leading distinct eligible strings |
| `BoardRouter.SanitizeTourStyleOrigin` | routers/boardRouter.js:58-60 | every output string is the trimmed `String` of some input element |
| `BoardRouter.SanitizeTourStyleOrder` | routers/boardRouter.js:59-62 | outputs keep the order of their first occurrence among the eligible strings |
| `BoardRouter.SanitizeTourStyleComplete` | routers/boardRouter.js:62 | with five or fewer distinct eligible strings, none is lost |
| `BoardRouter.PageWindow` | routers/boardRouter.js:161-164 | `skip` and `limit` are `Number` of the query values, with NaN replaced by 0 and 10 |
| `BoardRouter.SortParam` | routers/boardRouter.js:171 | the destructuring default `desc` applies only when `sort` is absent |
| `BoardRouter.SortFieldFor` | routers/boardRouter.js:285-304 | every sort puts pinned posts first, ends with `_id`, repeats no field and uses directions ±1; asc, desc, view and good have their keys; anything else sorts by newest `_id` |
| `BoardRouter.SortOption` | routers/boardRouter.js:167-174 | with the `switch` of lines 285-306, an absent sort means newest first by creation; a present but unknown value (including `''`) falls back to `_id` |
| `BoardRouter.DefaultPinTop` | routers/boardRouter.js:75-79 | `pinTop` stays when boolean and otherwise becomes `false`; no other field changes |
| `BoardRouter.EffectiveSpot` | routers/boardRouter.js:84-87 | a truthy `spot` is used as is; without an object `tourSpot` the falsy `spot` stays |
| `BoardRouter.PostSpot` | routers/boardRouter.js:84-87 | the handler's `spot` after the fallback is the effective spot |
| `BoardRouter.FallbackSpotFields` | routers/boardRouter.js:85-86 | the fallback spot copies `lat` and `lng` and defaults each missing text field to `''` |
| `BoardRouter.FallbackSpot` | routers/boardRouter.js:84-98 | a fallback spot is usable exactly when `tourSpot`'s lat and lng convert to finite numbers, and its missing text fields are stored as `''` |
| `BoardRouter.TourSpotShape` | routers/boardRouter.js:103-111 | the stored spot is a GeoJSON `Point` with coordinates `[lng, lat]` as numbers, and each text field is the spot's truthy value or `''` |
| `BoardRouter.NextBoardNumberFresh` | routers/boardRouter.js:89-90 | when `latest` is the highest board number, the new number is above every existing one, and 1 on an empty board |
| `BoardRouter.Strs` | routers/boardRouter.js:101 | the styles are stored as strings, one for one |
| `BoardRouter.NewPostShape` | routers/boardRouter.js:72-111 | the new post has every board field, `pinTop` forced to a boolean, the next board number, the sanitized styles, and the stored spot when the effective spot has finite coordinates; otherwise the board's own `tourSpot` passes through |
| `BoardRouter.NewPostPayload` | routers/boardRouter.js:75-111 | the create handler's payload, built step by step, is the new-post document |
| `BoardRouter.AttachSpot` | routers/boardRouter.js:103-111 | the stored spot is added only when the coordinates are valid; otherwise the payload is unchanged |
| `BoardRouter.NewImages` | routers/boardRouter.js:531-536 | one image per upload, in order, with the upload's names and the path `${BASE_URL}/uploads/<file>` |
| `BoardRouter.KeptImages` | routers/boardRouter.js:546-550 | the deletion filter never lengthens the list |
| `BoardRouter.KeptImagesAppend` | routers/boardRouter.js:546-550 | the deletion filter keeps order |
| `BoardRouter.KeptImagesExact` | routers/boardRouter.js:546-550 | an image survives exactly when none of its id, stored name or path is listed for deletion |
| `BoardRouter.EditedImagesSpec` | routers/boardRouter.js:545-553 | after an edit, an old image is present exactly when none of its names was listed; the new images follow all kept ones, in upload order, and are never filtered |
| `BoardRouter.ImageStore.constructor` | routers/boardRouter.js:538 | no image documents |
| `BoardRouter.ImageStore.EditImages` | routers/boardRouter.js:528-557 | a missing post is a 404 that changes no image document; otherwise the answer is 200 and, without a document, one is created only when there are new images; otherwise the document's list becomes the filtered and extended list; no other document changes |
| `Auth.LeadingDigits` | routers/auth.js:72 | `\d+` matches the longest digit prefix |
| `Auth.LeadingSpaces` | routers/auth.js:72 | `\s*` matches the longest whitespace prefix |
| `Auth.LeadingDigitsExact` | routers/auth.js:72 | a digit prefix followed by a non-digit is the longest one |
| `Auth.LeadingSpacesExact` | routers/auth.js:72 | a whitespace prefix followed by a non-space is the longest one |
| `Auth.MatchTailSound` | routers/auth.js:72 | a match of `\s*~\s*(\d+)$` has two whitespace gaps and a non-empty digit run, and spells its input back |
| `Auth.MatchTailSpellsBack` | routers/auth.js:72 | the three parts of a tail match, put back together, are the input |
| `Auth.SplitAround` | routers/auth.js:72 | a string is its part before a tilde, the tilde and the two parts after it |
| `Auth.MatchTailComplete` | routers/auth.js:72 | every gap–tilde–gap–digits text is matched with those very parts |
| `Auth.MatchRangeSound` | routers/auth.js:72-73 | every match of `^(\d+)\s*~\s*(\d+)$` is well formed and spells the input back |
| `Auth.MatchRangeComplete` | routers/auth.js:72-73 | every well-formed range text is matched, with those very groups |
| `Auth.RangeLabel` | routers/auth.js:70-82 | the label of `a~b` (any whitespace around the tilde) is `10대 미만` below ten and otherwise the decade of `a`; `b` plays no part |
| `Auth.UnmatchedLabel` | routers/auth.js:71-73 | a missing or empty range gives `''`; text that is not a range comes back unchanged |
| `Auth.AgeAndRangeLabelsAgree` | routers/auth.js:430-436 | below 80 the age label equals the `toKoreanDecadeLabel` label (lines 78-81) of a range starting at that age; from 80 on the age gives `80대 이상` where the range gives its own decade |
| `Auth.PlainRangeText` | routers/auth.js:72 | `a~b` is range text with empty gaps |
| `Auth.CalcAgeRangeCases` | routers/auth.js:430-436 | `calcAgeRange` gives `''` exactly for NaN (so for `undefined`), and `10대 미만` for `null` (which converts to 0) |
| `Auth.AgeRangeOutSpec` | routers/auth.js:439-441 | a non-blank stored range is shown as stored, untrimmed; a blank or missing one falls back to the age label |
| `Auth.GenderOut` | routers/auth.js:449 | the gender shown is always `male` or `female`: `female` only when stored as such, else `male` |
| `Auth.UpdatesExact` | routers/auth.js:473-478 | a field is in the update set exactly when the body has a valid value for it, and it holds that value |
| `Auth.TrimmedTextNormal` | routers/auth.js:474-477 | a trimmed non-blank string is non-empty and trims to itself |
| `Auth.EmailNormal` | routers/auth.js:476 | a trimmed lower-cased non-blank e-mail is non-empty, trims to itself and lower-cases to itself |
| `Auth.FieldUpdateNormal` | routers/auth.js:474-478 | each value held is trimmed; all but `ageRange` are non-empty; the e-mail is lower case; the gender is `male` or `female` |
| `Auth.UpdatedValues` | routers/auth.js:473-478 | every value of an update set is normal in that sense |
| `Auth.GetResubmitted` | routers/auth.js:471 | reading a field of a resubmitted update set gives the value it holds |
| `Auth.TrimmedTextFixed` | routers/auth.js:474-477 | a trimmed non-empty string passes the text check unchanged |
| `Auth.ResubmittedFieldUpdate` | routers/auth.js:474-478 | one field of a resubmitted update set reads back as its value |
| `Auth.ResubmittedUpdates` | routers/auth.js:473-478 | a field survives resubmission with its value, and no other field appears |
| `Auth.ResubmittedRoundTrip` | routers/auth.js:473-478 | an update set with normal values reads back as itself once written as a body |
| `Auth.UpdatesIdempotent` | routers/auth.js:470-478 | submitting the update set again as the body yields the same update set |
| `Auth.Position` | routers/auth.js:474-478 | the handler considers the five fields in order |
| `Auth.ConsideredAt` | routers/auth.js:473-478 | the invariant over the first n fields holds for each field |
| `Auth.ConsiderNext` | routers/auth.js:474-478 | considering the next field adds its value, if any |
| `Auth.ConsiderFieldNext` | routers/auth.js:474-478 | considering the next field keeps the invariant for any one field |
| `Auth.ConsideredAll` | routers/auth.js:473-478 | once all five fields are considered, the set is the update set |
| `Auth.FieldUpdateCases` | routers/auth.js:474-478 | the per-field rule, field by field |
| `Auth.BuildUpdates` | routers/auth.js:470-478 | the `updates` object built field by field is the update set of the body |
| `Auth.ChangeInfo` | routers/auth.js:470-481 | a 400 `변경할 값이 없습니다.` exactly when the update set is empty; otherwise that update set is applied |
| `Auth.MissingCodeAccepted` | routers/auth.js:204-212 | with no code stored for an ordinary address (one that is not an `Object.prototype` member name), the check as written accepts a request without a code (see Findings) |
| `Auth.InheritedAddressRejected` | routers/auth.js:204-212 | an address spelled like an `Object.prototype` member (`constructor`, `__proto__`, …) with no code stored reads the inherited member, so the check as written rejects every code |
| `Auth.CodeMatchesSpec` | routers/auth.js:210-212 | the corrected check accepts only a sent code: nothing for an address without one, and where a code is stored it agrees with the check as written |
| `Auth.SaveThenCheck` | routers/auth.js:204-212 | after saving a code, exactly that code is accepted for the address, any earlier code is not, and other addresses are unaffected; saving under `__proto__` stores nothing |
| `Auth.EmailCodeStore.constructor` | routers/auth.js:204 | no codes stored |
| `Auth.EmailCodeStore.Save` | routers/auth.js:204-209 | a new code replaces any earlier code for the address, except that assigning to `__proto__` of the plain object stores nothing |
| `Auth.EmailCodeStore.Check` | routers/auth.js:210-212 | accepts exactly a stored code for the address (corrected check) |
| `Auth.EmailCodeStore.VerifyCode` | routers/auth.js:241-246 | 200 exactly when the code matches, otherwise 400 |

## Left out

- Concurrency: the `p-limit` fan-outs (caps 20 and 10) and `Promise.all`/`allSettled` are modelled as sequential runs in index order. Concurrent misses on the same identifier, which can fetch it twice before either stores it, are not modelled. Neither is the interleaving of the per-item logs.
- The service key, the request timeouts (10 s and 5 s), `dotenv` and `TOUR_API_BASE` are not modelled. The base URL is the literal default. A timeout is one kind of failed reply.
- Console logging is not modelled.
- Numbers are integers: fractional numbers, `NaN` stored as a value, `Infinity` and `parseInt` overflow are not modelled. `Number(s)` reads integer numerals only, so `'1e3'` and `'0x10'` are NaN in the model.
- Object spread of strings and arrays copies nothing in the model. Upstream items are objects.
- `toLowerCase()` lowers only A–Z. Other Unicode case mappings are not modelled.
- The page-cache key `${type}_${pageNo}_${numOfRows}` can collide when `pageNo` contains `_`. `TourRouter.CacheKeyInjective` proves injectivity only for page numbers without an underscore.
- TourRouter.TodayFormat: the clock is a parameter (year, month, day). The proof covers four-digit years only.
- JavaScript `Map` keys compare objects by identity. The model compares them by value, which agrees for the string and number identifiers the upstream sends.
- A null list item in `/:type` rejects `Promise.all` (a 500, nothing stored). The detail fetches made by the other items still fill the detail cache. The model fixes one order for those fetches.
- Board, image, good, review and member storage (Mongo) is not modelled. The new post's `Board.create`, `Image.create`, the latest board number, the stored image ids and whether the edit's `findOneAndUpdate` found the post are inputs.
- Multer uploads, the file system, JWT signing, nodemailer and the random six-digit code are not modelled. The code is a parameter of `Auth.EmailCodeStore.Save`.
- The five-minute `setTimeout` expiry of e-mail codes is not modelled. An expired code is one never stored.
- `models/boardSchema` is not part of this model. The create handler's allow-list is a parameter of `BoardRouter.SanitizeTourStyle`.
- The edit handler's `$set` fields other than the image list are not modelled, and neither is its `tourStyle`. Its call of the module-level sanitizer is modelled by `BoardRouter.LegacySanitizerExact`. A non-array `imagesToDelete` is not modelled; the model takes it as a sequence.
- A board body that is not an object (a JSON string or number from `safeParse`) is not modelled. The body is a map of fields.
- BoardRouter.PageWindow: `Number` of a query value follows `Js.ToNumber`, so integers only.
- `/api/change-info` and `/api/me`: the Mongo lookup and save, the 404s and the other response fields are not modelled. So are the Kakao OAuth calls around `toKoreanDecadeLabel`.
- Auth.ToKoreanDecadeLabel: `Number.isFinite(parseInt(...))` of a digit run is always true in the model, because integers are unbounded.

## Findings

| source | as written | input that shows it | evidently intended | confidence | as-written member | corrected member |
|---|---|---|---|---|---|---|
| routers/tourRouter.js:92-93 | `apiMap[type]` on an object literal also finds members inherited from `Object.prototype`, which are truthy functions, so `!api` lets them through | `GET /toString`: passes the guard, is looked up in the page cache and is sent upstream with a function as the endpoint, instead of getting the 400 `invalid type` | only the eight own keys of `apiMap` are categories | high (not executed) | `TourRouter.InheritedNamePassesTypeGuard` | `TourRouter.ApiFor` |
| routers/auth.js:210-212, 244-245 | `emailCodes[email] === code` is true when no code is stored and none is given, since both are `undefined` | `POST /api/verify-code` with body `{"email": "x@y.z"}` and no code sent to that address (never sent, or expired): the check passes and a 5-minute verification token is issued (an address spelled like an `Object.prototype` member reads the inherited member instead and is rejected) | a code must have been sent to the address and must equal the one given | high (not executed) | `Auth.MissingCodeAccepted` | `Auth.CodeMatchesSpec` |

The model uses the corrected behaviour. `TourRouter.TourService.HandleType`
answers 400 for every name outside the eight categories.
`Auth.EmailCodeStore.Check` and `Auth.EmailCodeStore.VerifyCode` accept only
a stored code (`Auth.CodeMatches`). The as-written predicates,
`TourRouter.PassesTypeGuardAsWritten` and `Auth.CheckEmailCodeAsWritten`, are
kept beside them for the lemmas above.
