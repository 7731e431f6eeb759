/**
 * The cache-consistency logic of the single-itinerary handlers, as a state machine
 * over the durable store and the optional key-value cache. Each step function gives
 * the new state, the response and the ordered list of store and cache calls made.
 *
 * The store is keyed by canonical ObjectId strings: `findById` and its relatives
 * convert the URL's id first. The cache is keyed by the id exactly as the URL spelled
 * it, so two spellings of one id share a document but not a cache entry.
 */
module Coordinator {
  import opened Options
  import opened Itineraries

  /** Seconds passed to every `setEx`; expiry itself is not modelled. */
  const CacheTtl: nat := 300

  /** A cached snapshot (the serialised document) with the TTL it was written with. */
  datatype Entry = Entry(snapshot: Doc, ttl: nat)

  /** Cache keys are the raw itinerary ids: there is no namespace and no normalisation. */
  type Cache = map<Id, Entry>

  /** The store, and the cache when a client was configured (`None` otherwise). */
  datatype State = State(store: map<Id, Itinerary>, cache: Option<Cache>)

  /** The store and cache calls a handler makes, in order, with the id string passed. */
  datatype Op =
    | CacheGet(key: Id)
    | CacheSetEx(key: Id, ttl: nat, value: Doc)
    | CacheDel(key: Id)
    | StoreSave(id: Id)
    | StoreFindById(id: Id)
    | StoreFindByIdAndUpdate(id: Id)
    | StoreFindByIdAndDelete(id: Id)
  {
    predicate OnStore() {
      StoreSave? || StoreFindById? || StoreFindByIdAndUpdate? || StoreFindByIdAndDelete?
    }
  }

  predicate NoStoreCall(ops: seq<Op>) {
    forall i :: 0 <= i < |ops| ==> !ops[i].OnStore()
  }

  predicate NoCacheCall(ops: seq<Op>) {
    forall i :: 0 <= i < |ops| ==> ops[i].OnStore()
  }

  datatype Step = Step(post: State, resp: Response, ops: seq<Op>)

  /** The call `op`, made only when a cache client exists (`if (client) ...`). */
  function IfClient(cache: Option<Cache>, op: Op): seq<Op> {
    if cache.Some? then [op] else []
  }

  /** `setEx(key, 300, doc)`, a no-op without a client. */
  function Put(cache: Option<Cache>, key: Id, doc: Doc): Option<Cache> {
    if cache.Some? then Some(cache.value[key := Entry(doc, CacheTtl)]) else None
  }

  /** `del(key)`, a no-op without a client. */
  function Evict(cache: Option<Cache>, key: Id): Option<Cache> {
    if cache.Some? then Some(cache.value - {key}) else None
  }

  predicate Hit(s: State, id: Id) {
    s.cache.Some? && id in s.cache.value
  }

  /**
   * The cache holds only current snapshots: every key names, through its canonical
   * form, a stored itinerary and maps to that itinerary's document, written with the
   * handlers' TTL.
   */
  predicate Coherent(s: State, canon: Id -> Id) {
    s.cache.Some? ==> forall k :: k in s.cache.value ==>
      canon(k) in s.store && s.cache.value[k] == Entry(Doc(canon(k), s.store[canon(k)]), CacheTtl)
  }

  /** No cached key other than `id` itself names the same document as `id`. */
  predicate Unaliased(s: State, canon: Id -> Id, id: Id) {
    s.cache.Some? ==> forall k :: k in s.cache.value && canon(k) == canon(id) ==> k == id
  }

  /** Every cached key is spelled canonically. */
  predicate CanonicalKeys(s: State, canon: Id -> Id) {
    s.cache.Some? ==> forall k :: k in s.cache.value ==> canon(k) == k
  }

  /** The same state with no cache client. */
  function WithoutCache(s: State): State {
    s.(cache := None)
  }

  /**
   * `createItinerary`: save the body with the owner forced to the requester under the
   * id the store assigns; a clash on that id makes `save` throw (500). The cache is
   * never touched.
   */
  function CreateStep(s: State, owner: UserId, body: Fields, newId: Id): (r: Step)
    ensures r.ops == [StoreSave(newId)]
    ensures r.post.cache == s.cache
    ensures newId in s.store ==> r.post == s && r.resp == Failed
    ensures newId !in s.store ==>
      && r.post.store == s.store[newId := NewItinerary(body, owner)]
      && r.resp == Response(201, One(Doc(newId, r.post.store[newId])))
      && r.post.store[newId].userId == owner
    ensures forall canon: Id -> Id :: Coherent(s, canon) ==> Coherent(r.post, canon)
  {
    if newId in s.store then Step(s, Failed, [StoreSave(newId)])
    else
      var rec := NewItinerary(body, owner);
      Step(s.(store := s.store[newId := rec]), Response(201, One(Doc(newId, rec))), [StoreSave(newId)])
  }

  /**
   * `getItinerary`: validate, then try the cache under the raw id, then the store under
   * the converted id; a record found in the store is cached for 300 seconds under the
   * raw id, a missing one is not cached.
   */
  function GetStep(s: State, ids: IdSyntax, id: Id): (r: Step)
    ensures r.post.store == s.store
    ensures r.post.cache.Some? == s.cache.Some?
    ensures s.cache.None? ==> NoCacheCall(r.ops) && r.post == s
    ensures !ids.isValid(id) ==> r == Step(s, BadRequest, [])
    ensures ids.isValid(id) && Hit(s, id) ==>
      && r.post == s
      && r.resp == Response(200, One(s.cache.value[id].snapshot))
      && NoStoreCall(r.ops)
    ensures ids.isValid(id) && !Hit(s, id) && ids.canon(id) !in s.store ==>
      && r.post == s
      && r.resp == Missing
      && r.ops == IfClient(s.cache, CacheGet(id)) + [StoreFindById(id)]
    ensures ids.isValid(id) && !Hit(s, id) && ids.canon(id) in s.store ==>
      var doc := Doc(ids.canon(id), s.store[ids.canon(id)]);
      && r.resp == Response(200, One(doc))
      && r.post.cache == Put(s.cache, id, doc)
      && r.ops == IfClient(s.cache, CacheGet(id)) + [StoreFindById(id)] + IfClient(s.cache, CacheSetEx(id, CacheTtl, doc))
    ensures Coherent(s, ids.canon) ==> Coherent(r.post, ids.canon)
    ensures CanonicalKeys(s, ids.canon) && ids.canon(id) == id ==> CanonicalKeys(r.post, ids.canon)
  {
    if !ids.isValid(id) then Step(s, BadRequest, [])
    else if Hit(s, id) then Step(s, Response(200, One(s.cache.value[id].snapshot)), [CacheGet(id)])
    else
      var key := ids.canon(id);
      var lookup := IfClient(s.cache, CacheGet(id)) + [StoreFindById(id)];
      if key !in s.store then Step(s, Missing, lookup)
      else
        var doc := Doc(key, s.store[key]);
        Step(s.(cache := Put(s.cache, id, doc)), Response(200, One(doc)),
             lookup + IfClient(s.cache, CacheSetEx(id, CacheTtl, doc)))
  }

  /**
   * `updateItinerary`: validate, patch the stored record (no ownership check), then
   * write the patched document through to the cache for 300 seconds under the raw id.
   * Other spellings of the same id keep whatever they cached.
   */
  function UpdateStep(s: State, ids: IdSyntax, id: Id, body: Fields): (r: Step)
    ensures r.post.cache.Some? == s.cache.Some?
    ensures s.cache.None? ==> NoCacheCall(r.ops)
    ensures !ids.isValid(id) ==> r == Step(s, BadRequest, [])
    ensures ids.isValid(id) && ids.canon(id) !in s.store ==> r == Step(s, Missing, [StoreFindByIdAndUpdate(id)])
    ensures ids.isValid(id) && ids.canon(id) in s.store ==>
      var key := ids.canon(id);
      var doc := Doc(key, Patch(s.store[key], body));
      && r.post.store == s.store[key := doc.rec]
      && r.post.cache == Put(s.cache, id, doc)
      && r.resp == Response(200, One(doc))
      && r.ops == [StoreFindByIdAndUpdate(id)] + IfClient(s.cache, CacheSetEx(id, CacheTtl, doc))
    ensures Coherent(s, ids.canon) && Unaliased(s, ids.canon, id) ==> Coherent(r.post, ids.canon)
    ensures CanonicalKeys(s, ids.canon) && ids.canon(id) == id ==> CanonicalKeys(r.post, ids.canon)
  {
    var key := ids.canon(id);
    if !ids.isValid(id) then Step(s, BadRequest, [])
    else if key !in s.store then Step(s, Missing, [StoreFindByIdAndUpdate(id)])
    else
      var doc := Doc(key, Patch(s.store[key], body));
      Step(State(s.store[key := doc.rec], Put(s.cache, id, doc)), Response(200, One(doc)),
           [StoreFindByIdAndUpdate(id)] + IfClient(s.cache, CacheSetEx(id, CacheTtl, doc)))
  }

  /**
   * `deleteItinerary`: validate, delete the stored record (no ownership check), then
   * evict the one cache key spelled as in the URL.
   */
  function DeleteStep(s: State, ids: IdSyntax, id: Id): (r: Step)
    ensures r.post.cache.Some? == s.cache.Some?
    ensures s.cache.None? ==> NoCacheCall(r.ops)
    ensures !ids.isValid(id) ==> r == Step(s, BadRequest, [])
    ensures ids.isValid(id) && ids.canon(id) !in s.store ==> r == Step(s, Missing, [StoreFindByIdAndDelete(id)])
    ensures ids.isValid(id) && ids.canon(id) in s.store ==>
      && r.post.store == s.store - {ids.canon(id)}
      && r.post.cache == Evict(s.cache, id)
      && r.resp == Response(200, Message(Deleted))
      && r.ops == [StoreFindByIdAndDelete(id)] + IfClient(s.cache, CacheDel(id))
    ensures Coherent(s, ids.canon) && Unaliased(s, ids.canon, id) ==> Coherent(r.post, ids.canon)
    ensures CanonicalKeys(s, ids.canon) ==> CanonicalKeys(r.post, ids.canon)
  {
    var key := ids.canon(id);
    if !ids.isValid(id) then Step(s, BadRequest, [])
    else if key !in s.store then Step(s, Missing, [StoreFindByIdAndDelete(id)])
    else
      Step(State(s.store - {key}, Evict(s.cache, id)), Response(200, Message(Deleted)),
           [StoreFindByIdAndDelete(id)] + IfClient(s.cache, CacheDel(id)))
  }

  /** Eviction removes exactly the one key: every other cached entry survives unchanged. */
  lemma DeleteEvictsOnlyItsKey(s: State, ids: IdSyntax, id: Id, k: Id)
    requires s.cache.Some? && k in s.cache.value && k != id
    ensures DeleteStep(s, ids, id).post.cache.Some?
    ensures k in DeleteStep(s, ids, id).post.cache.value
    ensures DeleteStep(s, ids, id).post.cache.value[k] == s.cache.value[k]
  {
  }

  /** Update, then get with the same spelling: the patched document is served from the cache without a store call. */
  lemma UpdateThenGetServesFromCache(s: State, ids: IdSyntax, id: Id, body: Fields)
    requires s.cache.Some?
    requires UpdateStep(s, ids, id, body).resp.status == 200
    ensures var u := UpdateStep(s, ids, id, body);
      && GetStep(u.post, ids, id) == Step(u.post, u.resp, [CacheGet(id)])
      && u.resp.body.doc.rec.title == body.title.OrElse(s.store[ids.canon(id)].title)
  {
  }

  /** Get after a miss: a second get with the same spelling is a cache hit with the same answer and no store call. */
  lemma GetThenGetHits(s: State, ids: IdSyntax, id: Id)
    requires s.cache.Some?
    requires GetStep(s, ids, id).resp.status == 200
    ensures var g := GetStep(s, ids, id);
      GetStep(g.post, ids, id) == Step(g.post, g.resp, [CacheGet(id)])
  {
  }

  /** Delete, then get with the same spelling: the get misses the cache and answers 404 from the store, caching nothing. */
  lemma DeleteThenGetMisses(s: State, ids: IdSyntax, id: Id)
    requires DeleteStep(s, ids, id).resp.status == 200
    ensures var d := DeleteStep(s, ids, id);
      && GetStep(d.post, ids, id).resp == Missing
      && GetStep(d.post, ids, id).post == d.post
      && StoreFindById(id) in GetStep(d.post, ids, id).ops
  {
  }

  /** Create, then get (from a coherent cache): the stored document is read back and cached. */
  lemma CreateThenGet(s: State, ids: IdSyntax, owner: UserId, body: Fields, newId: Id)
    requires Coherent(s, ids.canon) && ids.isValid(newId) && ids.canon(newId) == newId
    requires CreateStep(s, owner, body, newId).resp.status == 201
    ensures var c := CreateStep(s, owner, body, newId);
      && GetStep(c.post, ids, newId).resp == Response(200, c.resp.body)
      && GetStep(c.post, ids, newId).post.cache == Put(s.cache, newId, c.resp.body.doc)
  {
  }

  /** The single-itinerary requests a client can send in sequence. */
  datatype Request =
    | Create(owner: UserId, body: Fields, newId: Id)
    | Get(id: Id)
    | Update(id: Id, body: Fields)
    | Delete(id: Id)

  function Handle(s: State, ids: IdSyntax, req: Request): Step {
    match req
    case Create(owner, body, newId) => CreateStep(s, owner, body, newId)
    case Get(id) => GetStep(s, ids, id)
    case Update(id, body) => UpdateStep(s, ids, id, body)
    case Delete(id) => DeleteStep(s, ids, id)
  }

  /** Handles the requests one after another; gives the final state and every response. */
  function Run(s: State, ids: IdSyntax, reqs: seq<Request>): (r: (State, seq<Response>))
    ensures |r.1| == |reqs|
    ensures s.cache.None? ==> r.0.cache.None?
    decreases |reqs|
  {
    if reqs == [] then (s, [])
    else
      var step := Handle(s, ids, reqs[0]);
      var rest := Run(step.post, ids, reqs[1..]);
      (rest.0, [step.resp] + rest.1)
  }

  /** A request whose id passes validation names its itinerary by the canonical spelling. */
  predicate SpelledCanonically(ids: IdSyntax, req: Request) {
    match req
    case Create(_, _, _) => true
    case Get(id) => ids.isValid(id) ==> ids.canon(id) == id
    case Update(id, _) => ids.isValid(id) ==> ids.canon(id) == id
    case Delete(id) => ids.isValid(id) ==> ids.canon(id) == id
  }

  predicate AllCanonical(ids: IdSyntax, reqs: seq<Request>) {
    forall i :: 0 <= i < |reqs| ==> SpelledCanonically(ids, reqs[i])
  }

  /** A coherent cache whose keys are all canonical. */
  predicate Consistent(s: State, canon: Id -> Id) {
    Coherent(s, canon) && CanonicalKeys(s, canon)
  }

  /** One canonically spelled request from a consistent state answers as it would with no cache at all. */
  lemma HandleWithoutCache(s: State, ids: IdSyntax, req: Request)
    requires Consistent(s, ids.canon) && SpelledCanonically(ids, req)
    ensures Handle(s, ids, req).resp == Handle(WithoutCache(s), ids, req).resp
    ensures Handle(WithoutCache(s), ids, req).post == WithoutCache(Handle(s, ids, req).post)
    ensures Consistent(Handle(s, ids, req).post, ids.canon)
  {
  }

  /**
   * The cache is only a hint as long as every request spells ids canonically: from a
   * consistent state such a sequence of requests gets the same responses and leaves
   * the same store as with no cache client, and the cache stays consistent.
   */
  lemma {:induction false} CacheIsTransparent(s: State, ids: IdSyntax, reqs: seq<Request>)
    requires Consistent(s, ids.canon) && AllCanonical(ids, reqs)
    ensures Run(s, ids, reqs).1 == Run(WithoutCache(s), ids, reqs).1
    ensures Run(s, ids, reqs).0.store == Run(WithoutCache(s), ids, reqs).0.store
    ensures Consistent(Run(s, ids, reqs).0, ids.canon)
    decreases |reqs|
  {
    if reqs != [] {
      var step := Handle(s, ids, reqs[0]);
      assert SpelledCanonically(ids, reqs[0]);
      HandleWithoutCache(s, ids, reqs[0]);
      assert forall i :: 0 <= i < |reqs[1..]| ==> reqs[1..][i] == reqs[i + 1];
      CacheIsTransparent(step.post, ids, reqs[1..]);
    }
  }

  /** The third response of a three-request run is the third step's response. */
  lemma RunThird(s: State, ids: IdSyntax, a: Request, b: Request, c: Request)
    ensures Run(s, ids, [a, b, c]).1[2]
      == Handle(Handle(Handle(s, ids, a).post, ids, b).post, ids, c).resp
  {
    var s1 := Handle(s, ids, a).post;
    var s2 := Handle(s1, ids, b).post;
    assert [a, b, c][1..] == [b, c];
    assert [b, c][1..] == [c];
    assert Run(s2, ids, [c]).1 == [Handle(s2, ids, c).resp];
    assert Run(s1, ids, [b, c]).1 == [Handle(s1, ids, b).resp] + Run(s2, ids, [c]).1;
  }

  /**
   * Two spellings of one id, `upper` and `lower`, starting from a coherent state with
   * an empty cache: a get by `upper`, an update by `lower` and another get by `upper`
   * serve the record from before the update, where the store alone would serve the
   * patched one. With a delete in place of the update, the last get still answers 200
   * where the store alone answers 404.
   */
  lemma MixedSpellingsServeStale(ids: IdSyntax, upper: Id, lower: Id, rec: Itinerary, body: Fields)
    requires ids.isValid(upper) && ids.isValid(lower) && upper != lower
    requires ids.canon(upper) == lower && ids.canon(lower) == lower
    requires Patch(rec, body) != rec
    ensures Coherent(State(map[lower := rec], Some(map[])), ids.canon)
    ensures var s := State(map[lower := rec], Some(map[]));
      var reqs := [Get(upper), Update(lower, body), Get(upper)];
      && Run(s, ids, reqs).1[2] == Response(200, One(Doc(lower, rec)))
      && Run(WithoutCache(s), ids, reqs).1[2] == Response(200, One(Doc(lower, Patch(rec, body))))
    ensures var s := State(map[lower := rec], Some(map[]));
      var reqs := [Get(upper), Delete(lower), Get(upper)];
      && Run(s, ids, reqs).1[2] == Response(200, One(Doc(lower, rec)))
      && Run(WithoutCache(s), ids, reqs).1[2] == Missing
  {
    var s := State(map[lower := rec], Some(map[]));
    RunThird(s, ids, Get(upper), Update(lower, body), Get(upper));
    RunThird(WithoutCache(s), ids, Get(upper), Update(lower, body), Get(upper));
    RunThird(s, ids, Get(upper), Delete(lower), Get(upper));
    RunThird(WithoutCache(s), ids, Get(upper), Delete(lower), Get(upper));
  }

  /** Keys the cache by the canonical spelling: every valid id in a request is canonicalised first. */
  function Normalize(ids: IdSyntax, req: Request): (r: Request)
    ensures WellFormed(ids) ==> SpelledCanonically(ids, r)
  {
    match req
    case Create(_, _, _) => req
    case Get(id) => if ids.isValid(id) then Get(ids.canon(id)) else req
    case Update(id, body) => if ids.isValid(id) then Update(ids.canon(id), body) else req
    case Delete(id) => if ids.isValid(id) then Delete(ids.canon(id)) else req
  }

  function NormalizeAll(ids: IdSyntax, reqs: seq<Request>): (r: seq<Request>)
    ensures |r| == |reqs|
    ensures forall i :: 0 <= i < |reqs| ==> r[i] == Normalize(ids, reqs[i])
  {
    seq(|reqs|, i requires 0 <= i < |reqs| => Normalize(ids, reqs[i]))
  }

  /** Without a cache, canonicalising ids first changes neither the response nor the store. */
  lemma NormalizeInvisibleWithoutCache(s: State, ids: IdSyntax, req: Request)
    requires WellFormed(ids) && s.cache.None?
    ensures Handle(s, ids, Normalize(ids, req)).resp == Handle(s, ids, req).resp
    ensures Handle(s, ids, Normalize(ids, req)).post == Handle(s, ids, req).post
  {
  }

  lemma {:induction false} RunNormalizedWithoutCache(s: State, ids: IdSyntax, reqs: seq<Request>)
    requires WellFormed(ids) && s.cache.None?
    ensures Run(s, ids, NormalizeAll(ids, reqs)) == Run(s, ids, reqs)
    decreases |reqs|
  {
    if reqs != [] {
      var n := NormalizeAll(ids, reqs);
      assert n[0] == Normalize(ids, reqs[0]);
      assert n[1..] == NormalizeAll(ids, reqs[1..]);
      NormalizeInvisibleWithoutCache(s, ids, reqs[0]);
      RunNormalizedWithoutCache(Handle(s, ids, reqs[0]).post, ids, reqs[1..]);
    }
  }

  /**
   * With the cache keyed by the canonical spelling, the cache is a hint for every
   * request sequence, whatever spellings it uses: from a consistent state the
   * responses and the final store are those of the controller with no cache client.
   */
  lemma NormalizedKeysAreTransparent(s: State, ids: IdSyntax, reqs: seq<Request>)
    requires WellFormed(ids) && Consistent(s, ids.canon)
    ensures Run(s, ids, NormalizeAll(ids, reqs)).1 == Run(WithoutCache(s), ids, reqs).1
    ensures Run(s, ids, NormalizeAll(ids, reqs)).0.store == Run(WithoutCache(s), ids, reqs).0.store
  {
    var n := NormalizeAll(ids, reqs);
    assert AllCanonical(ids, n);
    CacheIsTransparent(s, ids, n);
    RunNormalizedWithoutCache(WithoutCache(s), ids, reqs);
  }
}
