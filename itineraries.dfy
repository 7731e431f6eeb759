/**
 * The itinerary document (the Mongoose schema), the request body that creates or
 * patches one, the owner-less projection used by the share endpoint, and the HTTP
 * responses the handlers send.
 */
module Itineraries {
  import opened Options

  /** A document identifier as received in a URL (the ObjectId's string form). */
  type Id = string
  type UserId = string

  /**
   * What Mongoose does with an id string: `isValid` is `ObjectId.isValid`, and `canon`
   * is the string form of the ObjectId the store converts it to before a lookup.
   * Several spellings can pass validation and name one document (for instance the
   * upper- and lower-case hex forms). Both are left uninterpreted.
   */
  datatype IdSyntax = IdSyntax(isValid: Id -> bool, canon: Id -> Id)

  /** Validation keeps the canonical form valid, and canonicalising twice changes nothing. */
  ghost predicate WellFormed(ids: IdSyntax) {
    forall id :: ids.isValid(id) ==> ids.isValid(ids.canon(id)) && ids.canon(ids.canon(id)) == ids.canon(id)
  }

  datatype Activity = Activity(time: Option<string>, description: Option<string>, location: Option<string>)

  /** A stored itinerary. Its `_id` is the key under which the store holds it. */
  datatype Itinerary = Itinerary(
    userId: UserId,
    title: Option<string>,
    destination: Option<string>,
    startDate: Option<int>,
    endDate: Option<int>,
    activities: seq<Activity>,
    shareableId: Option<string>)

  /** A JSON request body: every schema path may be present or absent. */
  datatype Fields = Fields(
    userId: Option<UserId>,
    title: Option<string>,
    destination: Option<string>,
    startDate: Option<int>,
    endDate: Option<int>,
    activities: Option<seq<Activity>>,
    shareableId: Option<string>)

  const NoFields := Fields(None, None, None, None, None, None, None)

  /** A new document owned by `owner` with nothing else set (an array path defaults to []). */
  function Blank(owner: UserId): Itinerary {
    Itinerary(owner, None, None, None, None, [], None)
  }

  /** `findByIdAndUpdate(id, body)`: every path present in the body replaces the stored one. */
  function Patch(rec: Itinerary, body: Fields): Itinerary {
    Itinerary(
      body.userId.GetOr(rec.userId),
      body.title.OrElse(rec.title),
      body.destination.OrElse(rec.destination),
      body.startDate.OrElse(rec.startDate),
      body.endDate.OrElse(rec.endDate),
      body.activities.GetOr(rec.activities),
      body.shareableId.OrElse(rec.shareableId))
  }

  /**
   * `new Itinerary({ ...req.body, userId: req.user.id })`: the body's paths, with the
   * owner forced to the requester whatever `userId` the body carries.
   */
  function NewItinerary(body: Fields, owner: UserId): (r: Itinerary)
    ensures r.userId == owner
    ensures r == Patch(Blank(owner), body.(userId := None))
    ensures body.userId.Some? ==> r == Patch(Blank(owner), body).(userId := owner)
  {
    Itinerary(owner, body.title, body.destination, body.startDate, body.endDate,
              body.activities.GetOr([]), body.shareableId)
  }

  /** A patch with no paths leaves the record as it was. */
  lemma PatchNothing(rec: Itinerary)
    ensures Patch(rec, NoFields) == rec
  {
  }

  /** Sending the same update twice has the effect of sending it once. */
  lemma PatchIdempotent(rec: Itinerary, body: Fields)
    ensures Patch(Patch(rec, body), body) == Patch(rec, body)
  {
  }

  /** An update body may carry `userId`, and then the record changes owner. */
  lemma PatchChangesOwner(rec: Itinerary, body: Fields)
    ensures Patch(rec, body).userId != rec.userId <==> body.userId.Some? && body.userId.value != rec.userId
  {
  }

  /** The JSON document sent to clients and cached: the record together with its `_id`. */
  datatype Doc = Doc(id: Id, rec: Itinerary)

  /** The document with the `userId` path deselected (`.select('-userId')`). */
  datatype SharedView = SharedView(
    id: Id,
    title: Option<string>,
    destination: Option<string>,
    startDate: Option<int>,
    endDate: Option<int>,
    activities: seq<Activity>,
    shareableId: Option<string>)

  /** Puts an owner back on a shared view. */
  function WithOwner(v: SharedView, owner: UserId): Doc {
    Doc(v.id, Itinerary(owner, v.title, v.destination, v.startDate, v.endDate, v.activities, v.shareableId))
  }

  /** Drops the owner and nothing else: restoring the owner gives back the document. */
  function HideOwner(d: Doc): (v: SharedView)
    ensures WithOwner(v, d.rec.userId) == d
    ensures v.id == d.id
  {
    SharedView(d.id, d.rec.title, d.rec.destination, d.rec.startDate, d.rec.endDate,
               d.rec.activities, d.rec.shareableId)
  }

  /** Response bodies: one document, a shared view, a page of documents, or a message. */
  datatype Body = One(doc: Doc) | Shared(view: SharedView) | Many(docs: seq<Doc>) | Message(text: string)

  datatype Response = Response(status: int, body: Body)

  const InvalidId := "Invalid itinerary ID"
  const NotFound := "Itinerary not found"
  const Deleted := "Itinerary deleted successfully"
  const ServerError := "Server error"

  const BadRequest := Response(400, Message(InvalidId))
  const Missing := Response(404, Message(NotFound))
  const Failed := Response(500, Message(ServerError))
}
