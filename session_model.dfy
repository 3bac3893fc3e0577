/**
 * The collaboration service's durable `Session` document: its fields, their defaults and
 * the two required paths, and the store of documents keyed by id.
 */
module SessionModel {
  import opened Wrappers
  import Json

  type UserId = string

  /** The `{id, name, email}` sub-document a comment or review keeps of a user. */
  datatype Snapshot = Snapshot(id: UserId, name: string, email: string)

  datatype Comment = Comment(id: string, line: Option<int>, text: Option<string>, author: Snapshot, timestamp: nat)

  /** A stored review; its `result` is schema-less. */
  datatype Review = Review(id: string, requestedBy: Snapshot, result: Json.Json, timestamp: nat)

  datatype Session = Session(
    name: string,
    description: string,
    owner: UserId,
    participants: seq<UserId>,
    code: string,
    language: string,
    comments: seq<Comment>,
    reviews: seq<Review>,
    isPublic: bool,
    createdAt: nat,
    updatedAt: nat)

  /** The fields a caller hands to `new Session(...)`; `None` is a field left undefined. */
  datatype Draft = Draft(
    name: Option<string>,
    description: Option<string>,
    owner: Option<UserId>,
    participants: seq<UserId>,
    code: Option<string>,
    language: Option<string>,
    comments: seq<Comment>,
    reviews: seq<Review>,
    isPublic: Option<bool>)

  /** A required `String` path fails on undefined and on the empty string. */
  predicate Present(f: Option<string>) {
    f.Some? && f.value != ""
  }

  /** The paths whose `required` check fails, in schema order. */
  function MissingPaths(d: Draft): (r: seq<string>)
    ensures |r| <= 2
    ensures r == [] <==> Present(d.name) && Present(d.owner)
    ensures "name" in r <==> !Present(d.name)
    ensures "owner" in r <==> !Present(d.owner)
  {
    (if Present(d.name) then [] else ["name"]) + (if Present(d.owner) then [] else ["owner"])
  }

  /**
   * Casting a draft into a document at time `now`: defaults fill the undefined fields and
   * validation refuses a draft with a missing required path.
   */
  function Build(d: Draft, now: nat): (r: Result<Session>)
    ensures r.Failure? <==> !Present(d.name) || !Present(d.owner)
    ensures r.Failure? ==> r.missing == MissingPaths(d)
    ensures r.Success? ==> r.value.name == d.name.value && r.value.owner == d.owner.value
    ensures r.Success? ==> r.value.description == d.description.GetOr("")
    ensures r.Success? ==> r.value.code == d.code.GetOr("")
    ensures r.Success? ==> r.value.language == d.language.GetOr("javascript")
    ensures r.Success? ==> r.value.isPublic == d.isPublic.GetOr(false)
    ensures r.Success? ==> r.value.participants == d.participants && r.value.comments == d.comments
    ensures r.Success? ==> r.value.reviews == d.reviews
    ensures r.Success? ==> r.value.createdAt == now && r.value.updatedAt == now
  {
    var missing := MissingPaths(d);
    if missing != [] then Failure(missing)
    else Success(Session(d.name.value, d.description.GetOr(""), d.owner.value, d.participants,
                         d.code.GetOr(""), d.language.GetOr("javascript"), d.comments, d.reviews,
                         d.isPublic.GetOr(false), now, now))
  }

  /** The outcome of building a document: the document, or the failing required paths. */
  datatype Result<T> = Success(value: T) | Failure(missing: seq<string>)

  /** A draft that gives only the required paths gets every documented default. */
  lemma Defaults(name: string, owner: UserId, now: nat)
    requires name != "" && owner != ""
    ensures Build(Draft(Some(name), None, Some(owner), [], None, None, [], [], None), now)
         == Success(Session(name, "", owner, [], "", "javascript", [], [], false, now, now))
  {
  }

  /** The collection of session documents, keyed by document id. */
  class SessionStore {
    var sessions: map<string, Session>

    constructor ()
      ensures sessions == map[]
    {
      sessions := map[];
    }

    /** `Session.findById(id)`: the document, or nothing. */
    function FindById(id: string): (r: Option<Session>)
      reads this
      ensures r.Some? <==> id in sessions
      ensures r.Some? ==> r.value == sessions[id]
    {
      if id in sessions then Some(sessions[id]) else None
    }

    /** `save()` of a new or changed document. */
    method Save(id: string, s: Session)
      modifies this
      ensures sessions == old(sessions)[id := s]
    {
      sessions := sessions[id := s];
    }

    /** `findByIdAndDelete(id)`. */
    method Delete(id: string)
      modifies this
      ensures sessions == old(sessions) - {id}
    {
      sessions := sessions - {id};
    }
  }
}
