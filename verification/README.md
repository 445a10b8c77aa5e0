# MapAble Boston backend — a verified model of its data core

MapAble Boston is a FastAPI backend for finding and rating accessible places in
Boston. This project models its data-handling core in Dafny:

- **Reviews** (`common.dfy`, `reviews.dfy`, `ranking.dfy`, `review_stats.dfy`).
  There is a reviews table and a derived locations table. The locations table
  has one row per `location_id`, holding the review count and mean rating there.
  Creating a review upserts its location. Deleting one recounts its location, or
  removes the location together with its last review. The read endpoints list
  reviews by location, look reviews and locations up, search by radius and report
  statistics, including the five busiest locations.
- **Service requests** (`service_requests.dfy`). A table of accessibility
  requests. It validates type and priority on create, updates status, deletes,
  filters case-insensitively and counts values per column. Rows carry their
  pandas index label:
  - `concat(..., ignore_index=True)` relabels every row `0..n-1`;
  - a boolean-mask delete keeps the labels, leaving gaps.
- **Restrooms** (`restrooms.dfy`). A one-hour TTL cache in front of the city's
  open-data endpoint, with a built-in fallback list. The three read endpoints work
  over its records.
- **Cache registry** (`cache.dfy`). The process-wide dictionary in which caches
  publish themselves, plus the summary computed from it.
- **Chat functions** (`chatbot.dfy`). The four functions the chat model may call,
  their argument coercion and binding, and their dispatch through `FUNCTION_MAP`.

Tables the source keeps in parquet files are modelled as follows:
- as fields of a class (`ReviewStore`, `RequestTable`) that the write endpoints
  reassign, each method proved against a specification function on the old state;
- as plain sequences for the read endpoints.

Other modelling choices:
- The central invariant `Reviews.Consistent` covers review ids, location ids,
  and each location row summarising exactly its reviews. It is proved preserved
  by create and delete.
- Clock readings (`datetime.now()`) and fresh ids (`uuid4`) are parameters.
- The distance function (haversine) and Python's `float(str)` parser are
  function-typed parameters.
- The upstream HTTP fetch is a `FetchOutcome` parameter.
- Time is an integer count of microseconds.

## Model

| member | source | states |
|---|---|---|
| Common.Lower | src/backend/routes/service_requests.py:99 | `str.lower()`: same length, each character lower-cased |
| Common.LowerIdempotent | src/backend/routes/service_requests.py:161-166 | lower-casing a stored (already lower-cased) value again, as the list filter does, leaves it unchanged |
| Cache.Registry.constructor | src/backend/routes/cache.py:27 | the registry starts empty |
| Cache.Registry.Register | src/backend/routes/cache.py:30-37 | the key now maps to the new dictionary (last write wins), every other key keeps its entry, the key set grows by exactly that key |
| Cache.Registry.All | src/backend/routes/cache.py:40-46 | returns a copy equal to the registry and changes nothing |
| Cache.DataCount | src/backend/routes/cache.py:57-64 | the length of `data` when it is a list or a dict, 0 for anything else or when missing |
| Cache.AgeSeconds | src/backend/routes/cache.py:66-69 | for a truthy (datetime) timestamp, the age is `now` minus it in seconds, non-negative when the timestamp is not in the future |
| Cache.Summary | src/backend/routes/cache.py:49-78 | one row per registered key with its key, timestamp, data count and age (`now` minus the timestamp in seconds, None exactly when the timestamp is falsy). It fails (500) exactly when some entry has a truthy timestamp that is not a datetime |
| Cache.SummaryCountsCaches | src/backend/routes/cache.py:137-143 | `total_caches` equals the number of registered caches |
| Cache.CacheByKey | src/backend/routes/cache.py:104-127 | 404 exactly when the key is not registered, otherwise the registered dictionary |
| Restrooms.RestroomCache.constructor | src/backend/routes/restrooms.py:21-24 | the cache starts with no data and no timestamp |
| Restrooms.RestroomCache.Get | src/backend/routes/restrooms.py:120-157 | A hit (data and timestamp set, younger than one hour) returns the cached records and changes nothing. A miss stores and returns the fetched records on a 200, or the mock list on any other status or any exception. A miss stamps the cache with `now` and publishes it under "restrooms" |
| Restrooms.TwoReadsWithinTtl | src/backend/routes/restrooms.py:126-157 | two reads within the TTL return the same records; a failed fetch is not retried before the TTL elapses |
| Restrooms.PublishedSummary | src/backend/routes/restrooms.py:153-156 | after a miss, the registry summary of the restroom cache counts the stored records and reports their age |
| Restrooms.ListRestrooms | src/backend/routes/restrooms.py:160-181 | one response entry per record, in order, with `total` equal to the record count |
| Restrooms.InNeighbourhoodMembers | src/backend/routes/restrooms.py:246-257 | a restroom is listed exactly when some record has a neighbourhood equal to the requested one, ignoring case |
| Restrooms.ByNeighbourhood | src/backend/routes/restrooms.py:232-261 | the matching records in stored order with their count. It fails (500) exactly when some record's neighbourhood is not a string |
| Restrooms.NearbyMembers | src/backend/routes/restrooms.py:200-225 | A restroom is listed exactly when its record's coordinates convert and lie within the radius (inclusive). The entry carries the converted coordinates |
| Restrooms.NearbyBounded | src/backend/routes/restrooms.py:200-227 | the nearby list is no longer than the record list |
| Restrooms.NearbyRestrooms | src/backend/routes/restrooms.py:184-229 | the records within the radius in stored order, skipping unconvertible ones, with `total` their count |
| Reviews.FindReview | src/backend/routes/reviews.py:478-481 | the first position holding the id, or None exactly when no row has it |
| Reviews.FindLocation | src/backend/routes/reviews.py:154-157 | the first location row with the id, or None exactly when no row has it |
| Reviews.ReviewsAtConcat | src/backend/routes/reviews.py:158 | the reviews of a location in a concatenation are the two parts' reviews concatenated |
| Reviews.SumConcat | src/backend/routes/reviews.py:159 | the rating sum of a concatenation is the sum of the parts' sums |
| Reviews.ReviewsAtMembers | src/backend/routes/reviews.py:231 | the mask `location_id == lid` selects exactly the reviews at `lid` |
| Reviews.ReviewsAtBounded | src/backend/routes/reviews.py:231 | the selection is no longer than the table and each selected review has that location id |
| Reviews.WithoutAbsent | src/backend/routes/reviews.py:484 | removing an id no row has leaves the table unchanged |
| Reviews.WithoutUnique | src/backend/routes/reviews.py:484 | with distinct ids, removing an id removes exactly the row holding it |
| Reviews.WithoutLocationAbsent | src/backend/routes/reviews.py:491 | removing a location id no row has leaves the locations unchanged |
| Reviews.WithoutLocationUnique | src/backend/routes/reviews.py:491 | with distinct location ids, removing one removes exactly its row |
| Reviews.RemovalKeepsOtherLocations | src/backend/routes/reviews.py:484-488 | removing a review leaves the reviews of every other location unchanged |
| Reviews.RemovalRecountsLocation | src/backend/routes/reviews.py:484-496 | removing a review drops exactly it from its location's reviews: count minus one, sum minus its rating |
| Reviews.ReviewsAtAppend | src/backend/routes/reviews.py:150-158 | appending a review adds it to its own location's reviews only |
| Reviews.ReviewsAtEmpty | src/backend/routes/reviews.py:488-489 | a location no review names has no reviews |
| Reviews.NoReviewsWithoutLocation | src/backend/routes/reviews.py:494 | in a consistent store, a location id with no row has no reviews, so the recount's `.index[0]` cannot fail |
| Reviews.MeanSingle | src/backend/routes/reviews.py:172-173 | the mean of one review is its rating, which is what a new location row stores |
| Reviews.InsertNewLocation | src/backend/routes/reviews.py:164-175 | at a new location the upsert appends one row (count 1, mean the rating) and keeps every existing row |
| Reviews.InsertExistingLocation | src/backend/routes/reviews.py:155-163 | At an existing location the first matching row gets count + 1 and the mean of old sum plus the new rating. Every other row is unchanged |
| Reviews.InsertAtNewLocation | src/backend/routes/reviews.py:149-177 | appending a review with a fresh id at a new location keeps the store consistent |
| Reviews.InsertAtExistingLocation | src/backend/routes/reviews.py:149-177 | appending a review with a fresh id at a known location keeps the store consistent |
| Reviews.InsertPreservesConsistency | src/backend/routes/reviews.py:149-177 | creating a review with a fresh id keeps the store consistent |
| Reviews.DeletedReviewHasRow | src/backend/routes/reviews.py:481-494 | in a consistent store, the deleted review's location has a row |
| Reviews.DeleteRecountsLocation | src/backend/routes/reviews.py:481-496 | The deleted review's location has a row. Its remaining reviews number one fewer and sum to the old sum minus the rating. None remain exactly when the count was 1 |
| Reviews.DeleteLastOfLocation | src/backend/routes/reviews.py:489-491 | deleting a location's last review and its row keeps the store consistent |
| Reviews.DeleteRecountsRow | src/backend/routes/reviews.py:492-496 | deleting a review and recounting its location's row keeps the store consistent |
| Reviews.DeletePreservesConsistency | src/backend/routes/reviews.py:474-498 | deleting an existing review keeps the store consistent |
| Reviews.ReviewStore.constructor | src/backend/routes/reviews.py:71-86 | both tables start empty |
| Reviews.ReviewStore.Insert | src/backend/routes/reviews.py:149-177 | The review is appended and its location upserted. A new row has count 1 and mean the rating. Otherwise the first matching row is recounted over all reviews of that id. Consistency is preserved for a fresh id |
| Reviews.ReviewStore.CreateReview | src/backend/routes/reviews.py:117-182 | The new review has the given id, both timestamps `now` and tags `[]` when none were given. Earlier rows are unchanged. The location is upserted with `updated_at` set, and consistency is preserved |
| Reviews.ReviewStore.DeleteReview | src/backend/routes/reviews.py:464-509 | An unknown id gives 404 and changes nothing. Otherwise every row with the id is removed, and the location is dropped with its last review or recounted. A missing row gives 500 after the reviews were rewritten. A consistent store stays consistent and never reaches that 500 |
| Reviews.ReviewsByLocation | src/backend/routes/reviews.py:219-256 | exactly the reviews at the location, in stored order, with `total` their count |
| Reviews.ReviewById | src/backend/routes/reviews.py:258-293 | 404 exactly when no review has the id, otherwise the first stored review with that id (`iloc[0]`) |
| Reviews.LocationWithReviews | src/backend/routes/reviews.py:374-424 | 404 exactly when no location row has the id, otherwise the first such row's coordinates, count and mean with exactly the reviews at that id |
| Reviews.LocationReviewAgrees | src/backend/routes/reviews.py:412-418 | in a consistent store the reported count and mean are those of the listed reviews |
| Reviews.LocationsWithinMembers | src/backend/routes/reviews.py:345-367 | a location is listed exactly when it lies within the radius (inclusive) |
| Reviews.LocationsWithinBounded | src/backend/routes/reviews.py:345-369 | the nearby list is no longer than the locations table |
| Reviews.NearbyLocations | src/backend/routes/reviews.py:325-372 | the locations within the radius, in stored order, with `total` their count |
| Ranking.BusiestIsFirstMax | src/backend/routes/reviews.py:446 | the chosen row has the largest review count and comes before every other row with that count |
| Ranking.RestSplit | src/backend/routes/reviews.py:446 | the table is the chosen row plus the rest, as a multiset |
| Ranking.TopLength | src/backend/routes/reviews.py:446 | the top list has `min(k, rows)` entries |
| Ranking.TopFromTable | src/backend/routes/reviews.py:446 | the top list is a sub-multiset of the table |
| Ranking.TopMembers | src/backend/routes/reviews.py:446 | every listed location is a row of the table |
| Ranking.TopSorted | src/backend/routes/reviews.py:446 | the top list is in non-increasing review count |
| Ranking.TopComplete | src/backend/routes/reviews.py:446 | every location busier than a listed one is listed |
| ReviewStats.GetReviewStats | src/backend/routes/reviews.py:426-461 | It reports the table sizes, and a mean rating that is None exactly on an empty table. It lists at most five busiest locations, in non-increasing count, with every busier location included |
| ServiceRequests.Rejection | src/backend/routes/service_requests.py:97-111 | Validation passes exactly when the lower-cased type and priority are both accepted. The type is checked first, and the priority defaults to "medium" |
| ServiceRequests.NewRequestAccepted | src/backend/routes/service_requests.py:113-128 | an accepted request is stored pending, with lower-cased accepted type and priority and both timestamps `now` |
| ServiceRequests.Relabelled | src/backend/routes/service_requests.py:131 | `ignore_index=True` labels row `i` with `i` |
| ServiceRequests.Find | src/backend/routes/service_requests.py:260 | the first row holding the id, or None exactly when no row has it |
| ServiceRequests.WithoutMembers | src/backend/routes/service_requests.py:304 | the mask delete keeps exactly the rows whose id differs |
| ServiceRequests.WithoutKeepsLabelsIncreasing | src/backend/routes/service_requests.py:304 | the mask delete keeps labels (increasing, not dense) and keeps only existing rows |
| ServiceRequests.WithStatus | src/backend/routes/service_requests.py:260-262 | only the matched row's status (lower-cased) and `updated_at` change; its label is kept |
| ServiceRequests.ReplyAsWritten | src/backend/routes/service_requests.py:266 | the reply reads the row at position = label, and fails past the end |
| ServiceRequests.ReplyAsWrittenWhenDense | src/backend/routes/service_requests.py:260-266 | while labels are dense the reply is the updated row |
| ServiceRequests.ReplyAsWrittenAfterDelete | src/backend/routes/service_requests.py:260-266 | after a delete, the reply is another request's row, or a 500 |
| ServiceRequests.RequestTable.constructor | src/backend/routes/service_requests.py:53-62 | the table starts empty |
| ServiceRequests.RequestTable.Append | src/backend/routes/service_requests.py:130-131 | the request is appended and every row relabelled densely |
| ServiceRequests.RequestTable.Create | src/backend/routes/service_requests.py:82-138 | A rejected body gives 400 naming the field and changes nothing. Otherwise the new pending request is appended and returned |
| ServiceRequests.RequestTable.UpdateStatus | src/backend/routes/service_requests.py:234-285 | An unknown id gives 404. An invalid status gives 400 (the id is checked first). Either changes nothing. Otherwise only the first matching row's status and `updated_at` change, and the reply is that row |
| ServiceRequests.RequestTable.Delete | src/backend/routes/service_requests.py:288-315 | an unknown id gives 404 and changes nothing; otherwise every row with the id is removed, labels kept |
| ServiceRequests.FilteredMembers | src/backend/routes/service_requests.py:161-166 | a request is listed exactly when every given non-empty filter equals its lower-cased field |
| ServiceRequests.FilteredBounded | src/backend/routes/service_requests.py:161-166 | filtering never lengthens the list |
| ServiceRequests.NoFiltersListsAll | src/backend/routes/service_requests.py:161-166 | with no filters every request is listed, in order |
| ServiceRequests.ListRequests | src/backend/routes/service_requests.py:141-192 | the matching requests in stored order, with `total` their count |
| ServiceRequests.GetRequest | src/backend/routes/service_requests.py:195-231 | 404 exactly when no row has the id, otherwise the first stored request with that id (`iloc[0]`) |
| ServiceRequests.ValueCounts | src/backend/routes/service_requests.py:338-340 | `value_counts()`: the keys are exactly the values present, each mapped to its number of occurrences |
| ServiceRequests.StoredValuesSelectCreated | src/backend/routes/service_requests.py:161-166 | filtering by the status, type and priority a create stored selects that request, since they are already lower-cased |
| ServiceRequests.StoredStatusSelectsUpdated | src/backend/routes/service_requests.py:161-162 | filtering by the status an update stored selects the updated request |
| ServiceRequests.ValueCountsTotal | src/backend/routes/service_requests.py:338-340 | the counts of `value_counts()` add up to the number of values |
| ServiceRequests.StatsSumToTotal | src/backend/routes/service_requests.py:328-341 | each of `by_status`, `by_type` and `by_priority` sums to `total` |
| ServiceRequests.ColumnCounts | src/backend/routes/service_requests.py:338-340 | the counts of a column are those of the rows' field values |
| ServiceRequests.Stats | src/backend/routes/service_requests.py:318-343 | `total` is the row count; each of the three maps counts its column's values, and is empty on an empty table |
| Chatbot.PairsToMap | src/backend/routes/chatbot.py:539 | `dict(pairs)` has exactly the keys of the pairs |
| Chatbot.PairsLastWins | src/backend/routes/chatbot.py:539 | with repeated keys, the last pair's value wins |
| Chatbot.Coerce | src/backend/routes/chatbot.py:529-546 | Absent args become `{}`, and a dict is used as is. Pairs are converted with `dict()`. Anything else is JSON-parsed, giving `{}` when that fails |
| Chatbot.TagsField | src/backend/routes/chatbot.py:142 | `tags or []`: every falsy value gives `[]`; a non-empty list of strings is kept element by element; a list of strings always validates |
| Chatbot.StrItems | src/backend/routes/reviews.py:29 | a `List[str]` validates exactly when every item is a string, and keeps the items in order |
| Chatbot.BindRequest | src/backend/routes/chatbot.py:41-75 | A call binds exactly when the arguments are a dict of known parameters, with every required one present and of the type `ServiceRequestCreate` accepts. Each bound field is the given argument. `priority` defaults to "medium" and `requester_email` to None |
| Chatbot.ChatRequest | src/backend/routes/chatbot.py:82-96 | the stored request has lower-cased type and priority, no location id, status pending and both timestamps `now` |
| Chatbot.ChatSkipsTypeCheck | src/backend/routes/chatbot.py:66-96 | the chat handler stores a request type the HTTP endpoint refuses |
| Chatbot.CreateServiceRequestFn | src/backend/routes/chatbot.py:41-106 | the request is appended (rows relabelled) and its id returned |
| Chatbot.BindReview | src/backend/routes/chatbot.py:109-143 | A call binds exactly when the arguments are a dict of known parameters, with every required one present and of the type `ReviewCreate` accepts after `tags or []`. Each bound field is the given argument. Missing or falsy tags give `[]` |
| Chatbot.ChatUpsertDiffersOnlyInStamp | src/backend/routes/chatbot.py:170-187 | the chat upsert builds the HTTP one's location table except `updated_at`, which a new row lacks and an existing row keeps |
| Chatbot.CreateReviewFn | src/backend/routes/chatbot.py:109-195 | the review is appended and its location upserted without `updated_at`; consistency is preserved for a fresh id |
| Chatbot.BindSearch | src/backend/routes/chatbot.py:198-202 | binds exactly a dict of known parameters; each given argument is passed through unvalidated, `radius_miles` defaults to 5.0 and the coordinates to None |
| Chatbot.ShownAverage | src/backend/routes/chatbot.py:240 | the average is shown exactly when it is non-zero (truthy) |
| Chatbot.AllListed | src/backend/routes/chatbot.py:245-257 | every location, in order, without a distance |
| Chatbot.HitsWithinMembers | src/backend/routes/chatbot.py:221-242 | a hit is exactly a location within the radius (inclusive) shown with its distance |
| Chatbot.HitsWithinBounded | src/backend/routes/chatbot.py:221-244 | there are no more hits than locations |
| Chatbot.Search | src/backend/routes/chatbot.py:198-257 | An empty table gives nothing. A missing coordinate lists every location. Otherwise the result is exactly the hits within the radius around the given centre, or an exception exactly when a coordinate or the radius is not a number. `count` is the list length |
| Chatbot.SearchLocationsFn | src/backend/routes/chatbot.py:198-257 | the handler's loops compute `Search` |
| Chatbot.Summaries | src/backend/routes/chatbot.py:276-285 | one summary per review, in order |
| Chatbot.GetLocationReviewsFn | src/backend/routes/chatbot.py:260-287 | The summaries of exactly the reviews at a string location id, in stored order, with `count` their number. Any other value matches nothing |
| Chatbot.Dispatch | src/backend/routes/chatbot.py:520-589 | An unknown name gives no result and changes nothing. A call that raises gives a diagnostic and changes nothing. A known name whose call does not raise is always handled: the named handler runs on the coerced arguments and the result is recorded with them |

## Left out

- Parquet persistence and `DATA_DIR`. Each request's load/save pair is
  modelled as the table fields of `ReviewStore` and `RequestTable`. Concurrent
  requests interleaving their load and save are not modelled.
- `datetime.now()` and `uuid4()` are parameters (`now`, `id`). Nothing is
  assumed about the uniqueness of generated ids. The consistency lemmas assume
  the new review id is fresh.
- The upstream fetch (aiohttp, the 5-second timeout, JSON decoding) is reduced
  to a `FetchOutcome` parameter.
- Haversine distances and `round(miles, 2)` are not modelled. Floating point is
  not modelled either. Distances are a function-typed parameter, ratings and
  means are exact rationals, and NaN and infinity are not represented.
- Restrooms.NearbyRestrooms: `float(str)` parsing of coordinates is a parameter.
- FastAPI request parsing and pydantic validation of response models (`Restroom`,
  `Review`, `CacheInfo`, `ServiceRequest`) are not modelled. Responses are
  modelled as the values the handlers build.
- Chatbot.BindRequest: pydantic's lax coercions are treated as validation failures. These are numeric strings and booleans passed for float or int fields, and strings passed for numbers.
- Chatbot.BindReview: the same lax coercions are treated as failures. A float rating with no fractional part is stored as an int, where the handler stores the float.
- Chatbot.GetLocationReviewsFn: a list- or dict-valued `location_id` is treated
  as matching nothing. pandas would compare it elementwise or raise.
- Chatbot.Dispatch: models one function-call part. The following are not modelled:
  - the Gemini chat session;
  - the loop over parts;
  - the follow-up `send_message`;
  - the text assembled into the reply.
  A failure of the follow-up message after the handler ran is not modelled.
- The parquet round trip of `tags` is not modelled. After a reload they are
  arrays rather than lists, so the read endpoints' `isinstance(tags, list)` test
  would turn stored tags into `[]`. Reviews keep their tags here.
- Reviews.LocationWithReviews, Reviews.NearbyLocations, ReviewStats.GetReviewStats:
  the `pd.notna` fallback to a None average is not modelled. Every location
  row here carries a mean.
- Non-ASCII case folding: `Lower` folds only `A`-`Z`.
- CSV export (`/export/reviews`), `/db/all`, `get_all_reviews`,
  `get_all_locations`, `get_all_service_requests`' row conversion to response
  models, and the health endpoints. They only read and convert rows, and are
  outside the modelled core.
- The `/cache/database` and `/cache/register` endpoint wrappers are not modelled
  separately. `/cache/database` returns `Registry.All` and `Summary` in a
  `CacheDatabaseResponse` stamped with `datetime.now()`. `/cache/register` calls
  `Register` and returns a fixed confirmation dict (status, message, key).
  Aliasing of a registered cache dictionary with the
  module's `cache` dictionary is modelled by republishing a snapshot on each miss.

## Findings

| source | as written | input that shows it | evidently intended | confidence | as-written member | corrected member |
|---|---|---|---|---|---|---|
| src/backend/routes/service_requests.py:260-266 | The status is written to the row with index label `idx` (`df.at`), but the reply reads the row at position `idx` (`df.iloc`). After a mask delete the labels are no longer positions | Create requests "x", "a", "b", delete "x", then update "a": the reply is request "b"'s row. Updating "b" reads past the end and gives a 500 | reply with the row just updated | not executed | ServiceRequests.ReplyAsWrittenAfterDelete | ServiceRequests.RequestTable.UpdateStatus |
