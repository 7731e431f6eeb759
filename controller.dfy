/**
 * The itinerary controller: the durable store and the module-level cache client it
 * shares across requests, with one handler method per state-changing endpoint.
 * Each handler is proved to make exactly the step its Coordinator function gives.
 */
module Controller {
  import opened Options
  import opened Itineraries
  import opened Coordinator

  /** An environment variable counts as set when it is present and not empty. */
  predicate Truthy(v: Option<string>) {
    v.Some? && v.value != ""
  }

  class ItineraryController {
    /** `mongoose.Types.ObjectId.isValid` and the ObjectId conversion, left uninterpreted. */
    const ids: IdSyntax
    var store: map<Id, Itinerary>
    /** The Redis contents when `client` exists; `None` when it was never created. */
    var cache: Option<Cache>
    /** Every store and cache call made so far, in order. */
    ghost var trace: seq<Op>

    function View(): State
      reads this
    {
      State(store, cache)
    }

    /**
     * Module load: a cache client is created only when both REDIS_HOST and REDIS_PORT
     * are set; it then sees whatever the Redis server already holds.
     */
    constructor (ids: IdSyntax, store: map<Id, Itinerary>, redisHost: Option<string>,
                 redisPort: Option<string>, redisContents: Cache)
      ensures this.ids == ids && this.store == store && trace == []
      ensures cache == if Truthy(redisHost) && Truthy(redisPort) then Some(redisContents) else None
    {
      this.ids := ids;
      this.store := store;
      if Truthy(redisHost) && Truthy(redisPort) {
        cache := Some(redisContents);
      } else {
        cache := None;
      }
      trace := [];
    }

    method CreateItinerary(owner: UserId, body: Fields, newId: Id) returns (resp: Response)
      modifies this`store, this`trace
      ensures var step := CreateStep(old(View()), owner, body, newId);
        View() == step.post && resp == step.resp && trace == old(trace) + step.ops
    {
      trace := trace + [StoreSave(newId)];
      if newId in store {
        return Failed;
      }
      var itinerary := NewItinerary(body, owner);
      store := store[newId := itinerary];
      resp := Response(201, One(Doc(newId, itinerary)));
    }

    method GetItinerary(id: Id) returns (resp: Response)
      modifies this`cache, this`trace
      ensures var step := GetStep(old(View()), ids, id);
        View() == step.post && resp == step.resp && trace == old(trace) + step.ops
    {
      if !ids.isValid(id) {
        return BadRequest;
      }
      if cache.Some? {
        trace := trace + [CacheGet(id)];
        if id in cache.value {
          return Response(200, One(cache.value[id].snapshot));
        }
      }
      trace := trace + [StoreFindById(id)];
      var key := ids.canon(id);
      if key !in store {
        return Missing;
      }
      var doc := Doc(key, store[key]);
      if cache.Some? {
        cache := Some(cache.value[id := Entry(doc, CacheTtl)]);
        trace := trace + [CacheSetEx(id, CacheTtl, doc)];
      }
      resp := Response(200, One(doc));
    }

    method UpdateItinerary(id: Id, body: Fields) returns (resp: Response)
      modifies this`store, this`cache, this`trace
      ensures var step := UpdateStep(old(View()), ids, id, body);
        View() == step.post && resp == step.resp && trace == old(trace) + step.ops
    {
      if !ids.isValid(id) {
        return BadRequest;
      }
      trace := trace + [StoreFindByIdAndUpdate(id)];
      var key := ids.canon(id);
      if key !in store {
        return Missing;
      }
      var updated := Doc(key, Patch(store[key], body));
      store := store[key := updated.rec];
      if cache.Some? {
        cache := Some(cache.value[id := Entry(updated, CacheTtl)]);
        trace := trace + [CacheSetEx(id, CacheTtl, updated)];
      }
      resp := Response(200, One(updated));
    }

    method DeleteItinerary(id: Id) returns (resp: Response)
      modifies this`store, this`cache, this`trace
      ensures var step := DeleteStep(old(View()), ids, id);
        View() == step.post && resp == step.resp && trace == old(trace) + step.ops
    {
      if !ids.isValid(id) {
        return BadRequest;
      }
      trace := trace + [StoreFindByIdAndDelete(id)];
      var key := ids.canon(id);
      if key !in store {
        return Missing;
      }
      store := store - {key};
      if cache.Some? {
        cache := Some(cache.value - {id});
        trace := trace + [CacheDel(id)];
      }
      resp := Response(200, Message(Deleted));
    }
  }

  predicate IsHexDigit(c: char) {
    '0' <= c <= '9' || 'a' <= c <= 'f' || 'A' <= c <= 'F'
  }

  /** The 24-hex-digit form of an ObjectId, in either case, for the scenario below. */
  predicate IsHexObjectId(id: Id) {
    |id| == 24 && forall i :: 0 <= i < |id| ==> IsHexDigit(id[i])
  }

  function LowerChar(c: char): char {
    if 'A' <= c <= 'F' then c - 'A' + 'a' else c
  }

  /** The canonical spelling: hex digits in lower case. */
  function LowerHex(id: Id): (r: Id)
    ensures |r| == |id|
  {
    seq(|id|, i requires 0 <= i < |id| => LowerChar(id[i]))
  }

  const ScenarioId: Id := "650c1f77a1b2c3d4e5f60718"

  lemma ScenarioIdIsCanonical()
    ensures IsHexObjectId(ScenarioId) && LowerHex(ScenarioId) == ScenarioId
  {
  }

  /**
   * The create / get / update / delete steps of the integration test, extended with a
   * get after the update and a get after the delete, against a fresh controller with
   * an empty Redis: the statuses seen, the title the get after the update serves from
   * the cache, and the calls that get makes.
   */
  method PortalScenario() returns (statuses: seq<int>, servedTitle: Option<string>, ghost secondGetOps: seq<Op>)
    ensures statuses == [201, 200, 200, 200, 200, 404]
    ensures servedTitle == Some("Updated Paris Trip")
    ensures secondGetOps == [CacheGet(ScenarioId)]
  {
    var id: Id := ScenarioId;
    ScenarioIdIsCanonical();
    var c := new ItineraryController(IdSyntax(IsHexObjectId, LowerHex), map[], Some("localhost"), Some("6379"), map[]);
    var paris := NoFields.(title := Some("Paris Trip"), destination := Some("Paris"));
    var created := c.CreateItinerary("user-1", paris, id);
    var first := c.GetItinerary(id);
    var updated := c.UpdateItinerary(id, NoFields.(title := Some("Updated Paris Trip")));
    ghost var before := c.trace;
    var second := c.GetItinerary(id);
    secondGetOps := c.trace[|before|..];
    var deleted := c.DeleteItinerary(id);
    var third := c.GetItinerary(id);
    statuses := [created.status, first.status, updated.status, second.status, deleted.status, third.status];
    servedTitle := if second.body.One? then second.body.doc.rec.title else None;
  }
}
