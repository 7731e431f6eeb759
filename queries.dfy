/**
 * The two read-only handlers: the paged list of the requester's itineraries and
 * the public share lookup. Neither reads nor writes the cache.
 */
module Queries {
  import opened Options
  import opened Itineraries

  /** The list query string: `page`, `limit` and `destination`, each possibly absent. */
  datatype Query = Query(page: Option<int>, limit: Option<int>, destination: Option<string>)

  const DefaultPage := 1
  const DefaultLimit := 10

  /**
   * The find filter: the requester's own records and, when `destination` is truthy
   * (present and not the empty string), only those with exactly that destination.
   */
  predicate Matches(d: Doc, user: UserId, destination: Option<string>) {
    && d.rec.userId == user
    && (destination.None? || destination.value == "" || d.rec.destination == destination)
  }

  /** The documents of `docs` that match the filter, in the order of `docs`. */
  function Select(docs: seq<Doc>, user: UserId, destination: Option<string>): (r: seq<Doc>)
    ensures |r| <= |docs|
    ensures forall d :: d in r <==> d in docs && Matches(d, user, destination)
  {
    if docs == [] then []
    else
      var rest := Select(docs[1..], user, destination);
      if Matches(docs[0], user, destination) then [docs[0]] + rest else rest
  }

  /** The filter keeps each matching document as many times as it occurs and drops the rest. */
  lemma {:induction false} SelectCounts(docs: seq<Doc>, user: UserId, destination: Option<string>, d: Doc)
    ensures multiset(Select(docs, user, destination))[d] == if Matches(d, user, destination) then multiset(docs)[d] else 0
  {
    if docs != [] {
      assert docs == [docs[0]] + docs[1..];
      SelectCounts(docs[1..], user, destination, d);
    }
  }

  /** Filtering a concatenation filters each part in turn, so the filter keeps the order. */
  lemma {:induction false} SelectAppend(a: seq<Doc>, b: seq<Doc>, user: UserId, destination: Option<string>)
    ensures Select(a + b, user, destination) == Select(a, user, destination) + Select(b, user, destination)
  {
    if a == [] {
      assert a + b == b;
    } else {
      var head := if Matches(a[0], user, destination) then [a[0]] else [];
      assert (a + b)[0] == a[0] && (a + b)[1..] == a[1..] + b;
      calc {
        Select(a + b, user, destination);
        head + Select(a[1..] + b, user, destination);
        { SelectAppend(a[1..], b, user, destination); }
        head + (Select(a[1..], user, destination) + Select(b, user, destination));
        Select(a, user, destination) + Select(b, user, destination);
      }
    }
  }

  function Abs(n: int): nat {
    if n < 0 then -n else n
  }

  /** How many records `skip((page - 1) * limit)` passes over. */
  function Skip(q: Query): int {
    (q.page.GetOr(DefaultPage) - 1) * q.limit.GetOr(DefaultLimit)
  }

  const MaxInt64 := 0x7FFF_FFFF_FFFF_FFFF

  /** MongoDB takes skip and limit as signed 64-bit integers and rejects a negative skip. */
  predicate Accepted(q: Query) {
    && 0 <= Skip(q) <= MaxInt64
    && -MaxInt64 - 1 <= q.limit.GetOr(DefaultLimit) <= MaxInt64
  }

  /**
   * `getItineraries` over `docs`, the collection already in the requested sort order:
   * filter, then skip `(page - 1) * limit`, then take `limit`. A skip or limit MongoDB
   * rejects makes the query throw (500); a limit of 0 means no limit and a negative
   * limit counts as its absolute value.
   */
  function ListItineraries(docs: seq<Doc>, user: UserId, q: Query): (r: Response)
    ensures r.status == 200 || r == Failed
    ensures r.status == 200 <==> Accepted(q)
    ensures r.status == 200 ==>
      var matched := Select(docs, user, q.destination);
      var limit := q.limit.GetOr(DefaultLimit);
      var available := if Skip(q) <= |matched| then |matched| - Skip(q) else 0;
      && r.body.Many?
      && |r.body.docs| == (if limit == 0 || Abs(limit) > available then available else Abs(limit))
      && forall i :: 0 <= i < |r.body.docs| ==> r.body.docs[i] == matched[Skip(q) + i]
  {
    if !Accepted(q) then Failed
    else
      var skip := Skip(q);
      var matched := Select(docs, user, q.destination);
      var rest := if skip <= |matched| then matched[skip..] else [];
      var limit := q.limit.GetOr(DefaultLimit);
      var n := if limit == 0 || Abs(limit) > |rest| then |rest| else Abs(limit);
      Response(200, Many(rest[..n]))
  }

  /** Every listed record belongs to the requester and passes the destination filter. */
  lemma ListOnlyOwn(docs: seq<Doc>, user: UserId, q: Query)
    requires ListItineraries(docs, user, q).status == 200
    ensures forall d :: d in ListItineraries(docs, user, q).body.docs ==>
      d in docs && Matches(d, user, q.destination)
  {
  }

  /**
   * `shareItinerary` as written: the URL parameter is validated as an ObjectId and
   * then looked up as the document `_id` (through its canonical form), and the owner
   * is deselected. The cache is never consulted.
   */
  function ShareItinerary(store: map<Id, Itinerary>, ids: IdSyntax, shareableId: Id): (r: Response)
    ensures !ids.isValid(shareableId) ==> r == BadRequest
    ensures ids.isValid(shareableId) && ids.canon(shareableId) !in store ==> r == Missing
    ensures r.status == 200 <==> ids.isValid(shareableId) && ids.canon(shareableId) in store
    ensures r.status == 200 ==>
      var key := ids.canon(shareableId);
      r.body.Shared? && WithOwner(r.body.view, store[key].userId) == Doc(key, store[key])
  {
    var key := ids.canon(shareableId);
    if !ids.isValid(shareableId) then BadRequest
    else if key !in store then Missing
    else Response(200, Shared(HideOwner(Doc(key, store[key]))))
  }

  /** Any stored itinerary is served by the share endpoint, whether or not it was ever given a share link. */
  lemma ShareExposesUnsharedItinerary(store: map<Id, Itinerary>, ids: IdSyntax, id: Id)
    requires ids.isValid(id) && ids.canon(id) in store && store[ids.canon(id)].shareableId.None?
    ensures ShareItinerary(store, ids, id).status == 200
  {
  }

  /**
   * The share lookup the endpoint's parameter name and the schema's unique
   * `shareableId` path call for: the same validation and projection, but matching
   * the stored documents on `shareableId` rather than `_id` (`findOne`).
   */
  ghost function ShareByLink(store: map<Id, Itinerary>, ids: IdSyntax, link: string): (r: Response)
    ensures !ids.isValid(link) ==> r == BadRequest
    ensures r.status == 200 || r == BadRequest || r == Missing
    ensures r.status == 200 ==>
      && r.body.Shared? && r.body.view.shareableId == Some(link)
      && r.body.view.id in store && HideOwner(Doc(r.body.view.id, store[r.body.view.id])) == r.body.view
    ensures r.status == 200 <==> ids.isValid(link) && exists k :: k in store && store[k].shareableId == Some(link)
  {
    if !ids.isValid(link) then BadRequest
    else if exists k :: k in store && store[k].shareableId == Some(link) then
      var k :| k in store && store[k].shareableId == Some(link);
      Response(200, Shared(HideOwner(Doc(k, store[k]))))
    else Missing
  }

  /** With the intended lookup, a record that was never given a share link is never served. */
  lemma ShareByLinkHidesUnshared(store: map<Id, Itinerary>, ids: IdSyntax, link: string, k: Id)
    requires k in store && store[k].shareableId.None?
    ensures ShareByLink(store, ids, link).status == 200 ==> ShareByLink(store, ids, link).body.view != HideOwner(Doc(k, store[k]))
  {
  }

  /**
   * On one store the two lookups disagree: the `_id` of an itinerary that has no share
   * link is served as written and is not found by the intended lookup.
   */
  lemma ShareLookupsDisagree(store: map<Id, Itinerary>, ids: IdSyntax, id: Id)
    requires ids.isValid(id) && ids.canon(id) in store && store[ids.canon(id)].shareableId.None?
    requires forall k :: k in store ==> store[k].shareableId != Some(id)
    ensures ShareItinerary(store, ids, id).status == 200
    ensures ShareByLink(store, ids, id) == Missing
  {
  }
}
