# Itinerary cache consistency

This project models the itinerary controller of a travel-itinerary REST API. The
controller keeps itineraries in a MongoDB collection (the durable store). When
REDIS_HOST and REDIS_PORT are both set at module load, it also keeps a Redis
cache in front of the store. The project proves how each handler reads and
writes these two maps, and in what order.

- `options.dfy`: `Option`, for absent JSON paths and unset environment variables.
- `itineraries.dfy`: the itinerary schema, a request body (`Fields`) and its use by
  create and update, the owner-less share projection, and the HTTP responses.
- `queries.dfy`: the read-only handlers as functions: the paged list of one's own
  itineraries, and the share lookup. Neither one can see the cache.
- `coordinator.dfy`: the store/cache state machine. There is one step function per
  handler. Each gives the new state, the response, and the ordered list of store
  and cache calls (`Op`). This list makes "400 before any I/O" (no calls) and
  "served without consulting the store" (no store call) statable. The module also
  holds the coherence invariant, the composition lemmas, and a run of any number
  of requests.
- `controller.dfy`: the class `ItineraryController`. Its fields are the store, the
  optional cache and a ghost trace of calls. Its handler methods are written as
  the sequential code they model. Each method is proved to perform exactly its
  step function.

Ids. A URL id is first checked with `ObjectId.isValid`. The store lookups
(`findById`, `findByIdAndUpdate`, `findByIdAndDelete`) then convert the id to an
ObjectId. The cache calls, however, use the id string exactly as the URL spelled
it. The model therefore has a validity predicate and a canonicalising function
(`IdSyntax`). The store is keyed by canonical ids and the cache by raw ids.

What the code does, as modelled:

- The cache key is the raw itinerary id. There is no namespace and no normalisation.
  Two spellings of one id (upper- and lower-case hex) reach the same document but
  have separate cache entries (see Findings).
- List results are never cached.
- Delete evicts only the one key spelled as in the URL. There is no prefix eviction of list pages.
- Get, update and delete do not check that the requester owns the itinerary.
- An update body that carries `userId` changes the owner (`PatchChangesOwner`).
- Create never writes the cache. The first read of a new record caches it.
- Share reads the store directly, without the cache, and looks the parameter up as
  the document `_id` (see Findings).

The main theorem is `CacheIsTransparent`. Start from a state where every cached
entry is the current document of a stored itinerary and every cached key is
spelled canonically. Apply any sequence of create/get/update/delete requests that
spell their ids canonically. The responses and the final store are then the same
as with no cache client, and the cache stays consistent. With mixed spellings this
fails: `MixedSpellingsServeStale` shows a stale read and a read of a deleted
record. `NormalizedKeysAreTransparent` proves that canonicalising the id before
using it as a cache key restores transparency for every sequence.

## Model

| member | source | states |
|---|---|---|
| `Itineraries.NewItinerary` | src/controllers/itineraryController.js:17 | The created record's owner is always the requester, whatever `userId` the body holds. Every other path is taken from the body, as if a blank record owned by the requester were patched with the body minus `userId`. |
| `Itineraries.PatchNothing` | src/controllers/itineraryController.js:85 | An update body with no paths leaves the record unchanged. |
| `Itineraries.PatchIdempotent` | src/controllers/itineraryController.js:85 | Applying the same update body twice gives the same record as applying it once. |
| `Itineraries.PatchChangesOwner` | src/controllers/itineraryController.js:85 | An update changes the owner exactly when the body carries a different `userId`. |
| `Itineraries.HideOwner` | src/controllers/itineraryController.js:131 | The share projection drops only `userId`: putting the owner back gives the original document. |
| `Queries.Select` | src/controllers/itineraryController.js:31-34 | A document is in the filtered list exactly when it is in the collection, is owned by the requester and, if `destination` is truthy, has exactly that destination. The list is never longer than the collection. |
| `Queries.SelectCounts` | src/controllers/itineraryController.js:31-34 | The filter keeps each matching document as often as it occurs and drops every other document. |
| `Queries.SelectAppend` | src/controllers/itineraryController.js:34-35 | Filtering a concatenation is the concatenation of the filtered parts, so the sort order is kept. |
| `Queries.ListItineraries` | src/controllers/itineraryController.js:30-41 | The default page is 1 and the default limit is 10. The status is 200 exactly when `(page-1)*limit` lies between 0 and 2^63-1 and `limit` is a signed 64-bit value. Any other query gives 500. On 200 the page is the run of filtered documents starting at that offset. Its length is the absolute value of `limit`, or what remains if that is fewer or if `limit` is 0. |
| `Queries.ListOnlyOwn` | src/controllers/itineraryController.js:31-32 | Every listed document comes from the collection, belongs to the requester and passes the destination filter. |
| `Queries.ShareItinerary` | src/controllers/itineraryController.js:125-134 | An invalid id gives 400. A valid id whose canonical form is not stored gives 404. Otherwise the status is 200 with the stored document minus its owner. Only the store is read. |
| `Queries.ShareExposesUnsharedItinerary` | src/controllers/itineraryController.js:131 | Any stored itinerary is served when given a valid spelling of its `_id`, even one that has no `shareableId`. |
| `Queries.ShareByLink` | src/controllers/itineraryController.js:125-134 | The corrected share lookup. It validates the same way and then matches the store on `shareableId`. A 200 serves the projection of a stored document whose `shareableId` is the link. The status is 200 exactly when the link is valid and some stored document carries it. |
| `Queries.ShareByLinkHidesUnshared` | src/models/Itinerary.js:16 | Under the corrected lookup, a stored record without a `shareableId` is never served. |
| `Queries.ShareLookupsDisagree` | src/controllers/itineraryController.js:131 | On one store, a valid spelling of the `_id` of an itinerary without a share link is served with 200 as written, and the corrected lookup answers 404. |
| `Coordinator.CreateStep` | src/controllers/itineraryController.js:15-22 | Create makes one store save and no cache call. On success it stores the new record under the new id and returns 201 with that document. If the id already exists, it returns 500 and nothing changes. It preserves cache coherence. |
| `Coordinator.GetStep` | src/controllers/itineraryController.js:48-71 | Get never changes the store. An invalid id gives 400 with no calls. A hit on the raw id returns 200 with exactly the cached snapshot, makes no store call and changes nothing. On a miss the store is read under the canonical id. An absent record gives 404 and caches nothing. A stored record is cached with TTL 300 under the raw id only and returned with 200, in the order get, findById, setEx. Without a client it makes only store calls. It preserves coherence for any spelling. |
| `Coordinator.UpdateStep` | src/controllers/itineraryController.js:77-94 | An invalid id gives 400 with no calls. An id whose canonical form is absent gives 404 and changes nothing. Otherwise the record stored under the canonical id becomes the patched record. Only the raw-id cache key is overwritten, with that same document and TTL 300, and the response is that document (write-through). Coherence is preserved when no other cached spelling names the same document. |
| `Coordinator.DeleteStep` | src/controllers/itineraryController.js:100-117 | An invalid id gives 400 with no calls. An id whose canonical form is absent gives 404 and changes nothing. Otherwise the record is removed from the store under the canonical id, only the raw-id cache key is evicted, and the response is 200 with the deletion message. Coherence is preserved when no other cached spelling names the same document. |
| `Coordinator.DeleteEvictsOnlyItsKey` | src/controllers/itineraryController.js:112 | Deleting one id leaves every other cached key and its entry untouched. |
| `Coordinator.UpdateThenGetServesFromCache` | src/controllers/itineraryController.js:85-91 | After a successful update with a client, the next get returns the update's own response. Its only call is the cache get, and the served title is the patched title. |
| `Coordinator.GetThenGetHits` | src/controllers/itineraryController.js:57-66 | After a successful get with a client, a second get is a cache hit with the same response and no store call. |
| `Coordinator.DeleteThenGetMisses` | src/controllers/itineraryController.js:108-112 | After a successful delete, a get with the same spelling queries the store, answers 404 and changes nothing. |
| `Coordinator.CreateThenGet` | src/controllers/itineraryController.js:17-19 | From a coherent state, a get by the new (canonical) id right after a create returns the created document with 200 and caches it. |
| `Coordinator.HandleWithoutCache` | src/controllers/itineraryController.js:57-66 | From a consistent state (coherent, with canonical keys), one canonically spelled request gets the same response as without a cache client, leaves the same store, and keeps the cache consistent. |
| `Coordinator.CacheIsTransparent` | src/controllers/itineraryController.js:6-10 | From a consistent state, every sequence of canonically spelled requests gets the same responses and leaves the same store with or without a cache client, and the cache stays consistent. |
| `Coordinator.MixedSpellingsServeStale` | src/controllers/itineraryController.js:58-89 | Take two valid spellings of one id and start from a coherent state with an empty cache. Get by the first, update by the second, then get by the first: the last get serves the pre-update record, where the cache-less controller serves the patched one. With a delete instead of the update, the last get answers 200 where the cache-less controller answers 404. |
| `Coordinator.Normalize` | src/controllers/itineraryController.js:58 | Rewrites a request's valid id to its canonical form. With well-behaved id syntax, every normalised request is canonically spelled. |
| `Coordinator.NormalizeInvisibleWithoutCache` | src/controllers/itineraryController.js:62 | Without a cache, canonicalising a request's id first changes neither its response nor the store. |
| `Coordinator.NormalizedKeysAreTransparent` | src/controllers/itineraryController.js:58-112 | With every valid id canonicalised before it is used as a cache key, any request sequence from a consistent state gets the responses and leaves the store of the cache-less controller. |
| `Controller.ItineraryController.constructor` | src/controllers/itineraryController.js:6-10 | Takes the id validation and conversion. A cache client exists exactly when REDIS_HOST and REDIS_PORT are both non-empty. It then sees the Redis server's existing contents. The trace starts empty. |
| `Controller.ItineraryController.CreateItinerary` | src/controllers/itineraryController.js:15-23 | Performs exactly `CreateStep`: the new store, the response, and the calls appended to the trace. It can change only the store and the trace, never the cache. |
| `Controller.ItineraryController.GetItinerary` | src/controllers/itineraryController.js:48-72 | Performs exactly `GetStep`. It can change only the cache and the trace, never the store. |
| `Controller.ItineraryController.UpdateItinerary` | src/controllers/itineraryController.js:77-95 | Performs exactly `UpdateStep`. |
| `Controller.ItineraryController.DeleteItinerary` | src/controllers/itineraryController.js:100-118 | Performs exactly `DeleteStep`. |
| `Controller.PortalScenario` | tests/itinerary.test.js:51-105 | The test's create, get, update and delete, with an extra get after the update and after the delete, on a fresh controller with Redis configured. The statuses are 201, 200, 200, 200, 200, 404. The get after the update serves "Updated Paris Trip" with a single cache get as its only call. |

## Left out

- Sorting by a caller-named field: the list query takes the collection already in the requested order.
- Non-numeric or fractional `page` and `limit` strings: they are modelled as integers.
- Queries.ListItineraries: the skip `(page - 1) * limit` is exact integer arithmetic. JavaScript's double rounding of products beyond 2^53 is not modelled. Out-of-range values are checked on the exact product.
- The ObjectId syntax check and the conversion of an id string to an ObjectId: both are functions the controller is given, not definitions.
- Id generation: the id the store assigns to a new document is a parameter. A client-supplied `_id` in the create body is not modelled.
- JSON serialisation: a cached snapshot is the document itself. Timestamps and `__v` are not modelled.
- TTL expiry and clocks: each entry records the TTL it was written with (300) and never expires.
- 500 responses from exceptions thrown by the store or by Redis: this includes an unreachable Redis, which makes the code answer 500. The one store failure modelled is a create that reuses an existing id.
- Explicit `null` values and update operators in an update body: a path is either present with a value or absent.
- Concurrent requests and their interleavings: requests are handled one at a time.
- Redis client construction details, connection retry loops and logging (src/redis.js, redis.js, server.js). Authentication, routing and the JWT/password code are not part of this model either.
- `Queries.Select`: its contract states which documents are kept and how many times. `SelectAppend` states the order.

## Findings

| source | as written | input that shows it | evidently intended | confidence | as-written member | corrected member |
|---|---|---|---|---|---|---|
| src/controllers/itineraryController.js:131 | The `:shareableId` parameter is looked up with `findById`, that is, as the document `_id`. | A stored itinerary with a valid `_id` and no `shareableId`: the share handler, given that `_id`, answers 200 with the itinerary's contents. | Match the schema's unique `shareableId` path (src/models/Itinerary.js:16), so that only itineraries given a share link are served. | medium, not executed | `Queries.ShareLookupsDisagree` | `Queries.ShareByLink` |
| src/controllers/itineraryController.js:58 | The cache is read, written (:66, :89) and evicted (:112) under the id string as the URL spelled it, while the store converts that string to an ObjectId first (:62, :85, :108). | `ObjectId.isValid` accepts both hex cases. GET /650C1F77A1B2C3D4E5F60718 caches the record. PUT /650c1f77a1b2c3d4e5f60718 then updates it. A repeated GET /650C1F77A1B2C3D4E5F60718 serves the old record. After a DELETE by the lower-case id, the upper-case GET still answers 200. | Key the cache by the canonical id string, so that every spelling shares one entry and the cache never changes an answer. | medium, not executed | `Coordinator.MixedSpellingsServeStale` | `Coordinator.NormalizedKeysAreTransparent` |
