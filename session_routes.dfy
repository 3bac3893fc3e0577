/**
 * The collaboration service's REST routes for sessions: listing with paging, creating with
 * defaults, reading with an access check, owner-only update, delete and invite, and the
 * participant-list join and leave rules.
 */
module SessionRoutes {
  import opened Wrappers
  import opened Http
  import Text
  import Pagination
  import Ranking
  import SM = SessionModel

  type Sessions = map<string, SM.Session>

  datatype Body =
    | Failed(failure: Failure)
    | One(session: SM.Session)
    | Listed(sessions: seq<SM.Session>, total: nat, currentPage: int, totalPages: int)
    | Done(message: string)
    | Joined(message: string, joined: SM.Session)
    | Invited(message: string, sessionId: string, sessionName: string)

  function Fail(status: nat, error: string): Reply<Body> {
    Reply(status, Failed(ErrorBody(error)))
  }

  // ---------------------------------------------------------------- rules

  /** A user sees a session they own, take part in, or that is public. */
  predicate CanView(s: SM.Session, uid: SM.UserId) {
    s.owner == uid || uid in s.participants || s.isPublic
  }

  /** The list query: sessions the user owns or takes part in (public ones are not listed). */
  predicate Involves(s: SM.Session, uid: SM.UserId) {
    s.owner == uid || uid in s.participants
  }

  /** The join rule: someone who is neither owner nor participant is appended; nobody else is. */
  function JoinList(s: SM.Session, uid: SM.UserId): (ps: seq<SM.UserId>)
    ensures uid in ps <==> uid in s.participants || s.owner != uid
    ensures s.participants <= ps && |ps| <= |s.participants| + 1
    ensures |ps| == |s.participants| + 1 ==> ps[|s.participants|] == uid
  {
    if uid !in s.participants && s.owner != uid then s.participants + [uid] else s.participants
  }

  predicate NoDuplicates(ps: seq<SM.UserId>) {
    forall i, j :: 0 <= i < j < |ps| ==> ps[i] != ps[j]
  }

  /** Joining never puts the owner into the list, never adds a duplicate, and repeating it
   *  changes nothing. */
  lemma JoinListFacts(s: SM.Session, uid: SM.UserId)
    ensures s.owner !in s.participants ==> s.owner !in JoinList(s, uid)
    ensures NoDuplicates(s.participants) ==> NoDuplicates(JoinList(s, uid))
    ensures JoinList(s.(participants := JoinList(s, uid)), uid) == JoinList(s, uid)
  {
  }

  /** The leave rule: `participants.filter(p => p !== uid)`. */
  function LeaveList(ps: seq<SM.UserId>, uid: SM.UserId): (r: seq<SM.UserId>)
    ensures uid !in r
    ensures |r| <= |ps|
    ensures forall x :: x in r <==> x in ps && x != uid
  {
    if |ps| == 0 then []
    else if ps[0] == uid then LeaveList(ps[1..], uid)
    else [ps[0]] + LeaveList(ps[1..], uid)
  }

  /** Leaving keeps every other participant in order: it distributes over concatenation,
   *  keeps a list without the user as it is, and keeps each other user's count. */
  lemma LeaveListOrder(a: seq<SM.UserId>, b: seq<SM.UserId>, uid: SM.UserId)
    ensures LeaveList(a + b, uid) == LeaveList(a, uid) + LeaveList(b, uid)
    ensures uid !in a ==> LeaveList(a, uid) == a
    ensures forall x :: x != uid ==> multiset(LeaveList(a, uid))[x] == multiset(a)[x]
  {
    LeaveListSplits(a, b, uid);
    if uid !in a {
      LeaveListKeeps(a, uid);
    }
    LeaveListCounts(a, uid);
  }

  lemma {:induction false} LeaveListSplits(a: seq<SM.UserId>, b: seq<SM.UserId>, uid: SM.UserId)
    ensures LeaveList(a + b, uid) == LeaveList(a, uid) + LeaveList(b, uid)
  {
    if |a| == 0 {
      assert a + b == b;
    } else {
      assert (a + b)[1..] == a[1..] + b;
      LeaveListSplits(a[1..], b, uid);
    }
  }

  lemma {:induction false} LeaveListKeeps(a: seq<SM.UserId>, uid: SM.UserId)
    requires uid !in a
    ensures LeaveList(a, uid) == a
  {
    if |a| > 0 {
      assert uid !in a[1..];
      LeaveListKeeps(a[1..], uid);
      assert a == [a[0]] + a[1..];
    }
  }

  lemma {:induction false} LeaveListCounts(a: seq<SM.UserId>, uid: SM.UserId)
    ensures forall x :: x != uid ==> multiset(LeaveList(a, uid))[x] == multiset(a)[x]
  {
    if |a| > 0 {
      LeaveListCounts(a[1..], uid);
      assert a == [a[0]] + a[1..];
      assert multiset(a) == multiset([a[0]]) + multiset(a[1..]);
      if a[0] != uid {
        assert multiset(LeaveList(a, uid)) == multiset([a[0]]) + multiset(LeaveList(a[1..], uid));
      }
    }
  }

  // ---------------------------------------------------------------- GET routes

  /** The ids of the sessions the list query matches. */
  ghost function Matching(sessions: Sessions, uid: SM.UserId): set<string> {
    set id | id in sessions && Involves(sessions[id], uid)
  }

  /** The list's sort field, `updatedAt`, read through a document id. */
  function UpdatedAt(sessions: Sessions): string -> int {
    id => if id in sessions then sessions[id].updatedAt else 0
  }

  /** `GET /`: a negative `skip` is refused by the database (500); otherwise the requested page
   *  of the user's sessions, most recently updated first, with the paging metadata. */
  ghost function List(sessions: Sessions, uid: SM.UserId, page: Option<int>, limit: Option<int>): (r: Reply<Body>)
    ensures r.status == 500 <==> Pagination.Request(page, limit).skip < 0
    ensures r.status in {200, 500}
    ensures r.status == 200 ==> r.body.Listed?
    ensures r.status == 200 ==> r.body.total == |Matching(sessions, uid)|
    ensures r.status == 200 ==> r.body.currentPage == Pagination.Request(page, limit).page
    ensures r.status == 200 ==> var w := Pagination.Request(page, limit);
            w.limit > 0 ==> (r.body.totalPages - 1) * w.limit < r.body.total <= r.body.totalPages * w.limit
    ensures r.status == 200 ==> var w := Pagination.Request(page, limit);
            exists order :: Ranking.ListedPage(sessions, Matching(sessions, uid), UpdatedAt(sessions), order,
                                               w.skip, Ranking.Count(w.limit), r.body.sessions)
  {
    var w := Pagination.Request(page, limit);
    if w.skip < 0 then Fail(500, "Server error")
    else
      var total := |Matching(sessions, uid)|;
      var listed := Ranking.Page(sessions, Matching(sessions, uid), UpdatedAt(sessions), w.skip, Ranking.Count(w.limit));
      Reply(200, Listed(listed, total, w.page, Pagination.TotalPages(total, w.limit)))
  }

  /** A listed page holds at most `limit` sessions, all of them the user's, most recently
   *  updated first. */
  lemma ListedSessionsFacts(sessions: Sessions, uid: SM.UserId, page: Option<int>, limit: Option<int>)
    ensures var r := List(sessions, uid, page, limit);
            r.status == 200 ==>
              && |r.body.sessions| <= Ranking.Count(Pagination.Request(page, limit).limit)
              && (forall i :: 0 <= i < |r.body.sessions| ==> Involves(r.body.sessions[i], uid))
              && (forall i, j :: 0 <= i < j < |r.body.sessions| ==>
                    r.body.sessions[i].updatedAt >= r.body.sessions[j].updatedAt)
  {
    var r := List(sessions, uid, page, limit);
    if r.status == 200 {
      var w := Pagination.Request(page, limit);
      var ids, key, count := Matching(sessions, uid), UpdatedAt(sessions), Ranking.Count(w.limit);
      var order :| Ranking.ListedPage(sessions, ids, key, order, w.skip, count, r.body.sessions);
      var shown := Ranking.PageFacts(sessions, ids, key, order, w.skip, count, r.body.sessions);
      forall i, j | 0 <= i < j < |r.body.sessions|
        ensures r.body.sessions[i].updatedAt >= r.body.sessions[j].updatedAt
      {
        assert key(shown[i]) >= key(shown[j]);
      }
    }
  }

  /** `GET /:sessionId`. */
  function Get(sessions: Sessions, id: string, uid: SM.UserId): (r: Reply<Body>)
    ensures r.status == 404 <==> id !in sessions
    ensures r.status == 403 <==> id in sessions && !CanView(sessions[id], uid)
    ensures r.status == 200 <==> id in sessions && CanView(sessions[id], uid)
    ensures r.status == 200 ==> r.body == One(sessions[id])
  {
    if id !in sessions then Fail(404, "Session not found")
    else if !CanView(sessions[id], uid) then Fail(403, "Access denied")
    else Reply(200, One(sessions[id]))
  }

  // ---------------------------------------------------------------- create

  /** The create body after its type checks: every field may be missing. */
  datatype CreateBody = CreateBody(name: Option<string>, description: Option<string>, language: Option<string>,
                                   isPublic: Option<bool>, code: Option<string>)

  const StarterCode := "// Start coding here...\n"

  /** The session a valid create body makes: the trimmed name, the requester as owner and the
   *  route's own fallbacks for every falsy field. */
  function NewSession(b: CreateBody, uid: SM.UserId, now: nat): (s: SM.Session)
    ensures s.name == Text.Trim(b.name.GetOr("")) && s.owner == uid
    ensures s.description == b.description.GetOr("")
    ensures s.language == (if b.language.GetOr("") == "" then "javascript" else b.language.value)
    ensures s.isPublic == b.isPublic.GetOr(false)
    ensures s.code == (if b.code.GetOr("") == "" then StarterCode else b.code.value)
    ensures s.participants == [] && s.comments == [] && s.reviews == []
    ensures s.createdAt == now && s.updatedAt == now
  {
    var language := b.language.GetOr("");
    var code := b.code.GetOr("");
    SM.Session(Text.Trim(b.name.GetOr("")), b.description.GetOr(""), uid, [],
               if code == "" then StarterCode else code,
               if language == "" then "javascript" else language,
               [], [], b.isPublic.GetOr(false), now, now)
  }

  /** A body with nothing but a name gets the documented defaults. */
  lemma CreateDefaults(name: string, uid: SM.UserId, now: nat)
    ensures var s := NewSession(CreateBody(Some(name), None, None, None, None), uid, now);
      s.description == "" && s.language == "javascript" && !s.isPublic && s.code == StarterCode
  {
  }

  /** `POST /`: a name that is blank after trimming is refused before anything is stored. */
  method Create(store: SM.SessionStore, freshId: string, uid: SM.UserId, b: CreateBody, now: nat)
    returns (r: Reply<Body>)
    requires freshId !in store.sessions
    modifies store
    ensures r.status == 400 <==> Text.Trim(b.name.GetOr("")) == ""
    ensures r.status == 500 <==> Text.Trim(b.name.GetOr("")) != "" && uid == ""
    ensures r.status != 201 ==> store.sessions == old(store.sessions)
    ensures r.status == 201 ==> (r.body == One(NewSession(b, uid, now)) &&
                                 store.sessions == old(store.sessions)[freshId := NewSession(b, uid, now)])
    ensures r.status in {400, 500, 201}
  {
    if Text.Trim(b.name.GetOr("")) == "" {
      return Reply(400, Failed(ValidationErrors(["name"])));
    }
    if uid == "" {
      // `save()` runs the schema's required check on `owner`.
      return Fail(500, "Server error");
    }
    var s := NewSession(b, uid, now);
    store.Save(freshId, s);
    r := Reply(201, One(s));
  }

  // ---------------------------------------------------------------- owner-only routes

  /** The update body: the whole request body goes to the update, so any field of the
   *  document may be sent; `None` leaves it alone. A sent `updatedAt` is always overwritten
   *  by the route's own time. */
  datatype Patch = Patch(name: Option<string>, description: Option<string>, owner: Option<SM.UserId>,
                         participants: Option<seq<SM.UserId>>, code: Option<string>,
                         language: Option<string>, comments: Option<seq<SM.Comment>>,
                         reviews: Option<seq<SM.Review>>, isPublic: Option<bool>, createdAt: Option<nat>)

  /** The document after `findByIdAndUpdate(id, {...body, updatedAt})`; a sent name is stored
   *  trimmed. */
  function Apply(s: SM.Session, p: Patch, now: nat): (t: SM.Session)
    ensures t.updatedAt == now && t.createdAt == p.createdAt.GetOr(s.createdAt)
    ensures t.comments == p.comments.GetOr(s.comments) && t.reviews == p.reviews.GetOr(s.reviews)
    ensures t.name == (if p.name.Some? then Text.Trim(p.name.value) else s.name)
    ensures t.owner == p.owner.GetOr(s.owner) && t.participants == p.participants.GetOr(s.participants)
    ensures t.code == p.code.GetOr(s.code) && t.language == p.language.GetOr(s.language)
    ensures t.description == p.description.GetOr(s.description) && t.isPublic == p.isPublic.GetOr(s.isPublic)
  {
    s.(name := if p.name.Some? then Text.Trim(p.name.value) else s.name,
       description := p.description.GetOr(s.description),
       owner := p.owner.GetOr(s.owner),
       participants := p.participants.GetOr(s.participants),
       code := p.code.GetOr(s.code),
       language := p.language.GetOr(s.language),
       comments := p.comments.GetOr(s.comments),
       reviews := p.reviews.GetOr(s.reviews),
       isPublic := p.isPublic.GetOr(s.isPublic),
       createdAt := p.createdAt.GetOr(s.createdAt),
       updatedAt := now)
  }

  /**
   * `PUT /:sessionId`: validation, then 404, then the owner check, then the update. The update
   * runs the schema validators, so sending an empty owner fails the required check (500).
   */
  method Update(store: SM.SessionStore, id: string, uid: SM.UserId, p: Patch, now: nat) returns (r: Reply<Body>)
    modifies store
    ensures r.status == 400 <==> p.name.Some? && Text.Trim(p.name.value) == ""
    ensures r.status == 404 <==> r.status != 400 && id !in old(store.sessions)
    ensures r.status == 403 <==> r.status !in {400, 404} && old(store.sessions)[id].owner != uid
    ensures r.status == 500 <==> r.status !in {400, 404, 403} && p.owner == Some("")
    ensures r.status == 200 ==> (
                                 store.sessions == old(store.sessions)[id := Apply(old(store.sessions)[id], p, now)] &&
                                 r.body == One(store.sessions[id]))
    ensures r.status != 200 ==> store.sessions == old(store.sessions)
    ensures r.status in {200, 400, 403, 404, 500}
  {
    if p.name.Some? && Text.Trim(p.name.value) == "" {
      return Reply(400, Failed(ValidationErrors(["name"])));
    }
    if id !in store.sessions {
      return Fail(404, "Session not found");
    }
    var s := store.sessions[id];
    if s.owner != uid {
      return Fail(403, "Only session owner can update");
    }
    if p.owner == Some("") {
      return Fail(500, "Server error");
    }
    var t := Apply(s, p, now);
    store.Save(id, t);
    r := Reply(200, One(t));
  }

  /** `DELETE /:sessionId`: 404, then the owner check, then removal. */
  method Delete(store: SM.SessionStore, id: string, uid: SM.UserId) returns (r: Reply<Body>)
    modifies store
    ensures r.status == 404 <==> id !in old(store.sessions)
    ensures r.status == 403 <==> id in old(store.sessions) && old(store.sessions)[id].owner != uid
    ensures r.status == 200 <==> id in old(store.sessions) && old(store.sessions)[id].owner == uid
    ensures store.sessions == if r.status == 200 then old(store.sessions) - {id} else old(store.sessions)
  {
    if id !in store.sessions {
      return Fail(404, "Session not found");
    }
    if store.sessions[id].owner != uid {
      return Fail(403, "Only session owner can delete");
    }
    store.Delete(id);
    r := Reply(200, Done("Session deleted successfully"));
  }

  /** `POST /:sessionId/invite`: validation, 404, the owner check; nothing is stored. `emailOk`
   *  is the e-mail validator's verdict and `email` the normalised address. */
  function Invite(sessions: Sessions, id: string, uid: SM.UserId, email: string, emailOk: bool): (r: Reply<Body>)
    ensures r.status == 400 <==> !emailOk
    ensures r.status == 404 <==> emailOk && id !in sessions
    ensures r.status == 403 <==> emailOk && id in sessions && sessions[id].owner != uid
    ensures r.status == 200 <==> emailOk && id in sessions && sessions[id].owner == uid
    ensures r.status == 200 ==> r.body == Invited("Invitation sent to " + email, id, sessions[id].name)
  {
    if !emailOk then Reply(400, Failed(ValidationErrors(["email"])))
    else if id !in sessions then Fail(404, "Session not found")
    else if sessions[id].owner != uid then Fail(403, "Only session owner can invite users")
    else Reply(200, Invited("Invitation sent to " + email, id, sessions[id].name))
  }

  // ---------------------------------------------------------------- join / leave

  /** A REST join is refused exactly for a private session the user neither owns nor takes
   *  part in. */
  predicate MayJoin(s: SM.Session, uid: SM.UserId) {
    s.isPublic || s.owner == uid || uid in s.participants
  }

  /** `POST /:sessionId/join`: the participant list grows by the user at most once; the
   *  document is saved only when it changed. */
  method Join(store: SM.SessionStore, id: string, uid: SM.UserId) returns (r: Reply<Body>)
    modifies store
    ensures r.status == 404 <==> id !in old(store.sessions)
    ensures r.status == 403 <==> id in old(store.sessions) && !MayJoin(old(store.sessions)[id], uid)
    ensures r.status == 200 ==>
      var s := old(store.sessions)[id];
      && store.sessions == old(store.sessions)[id := s.(participants := JoinList(s, uid))]
      && r.body == Joined("Joined session successfully", s.(participants := JoinList(s, uid)))
    ensures r.status != 200 ==> store.sessions == old(store.sessions)
    ensures r.status in {200, 403, 404}
  {
    if id !in store.sessions {
      return Fail(404, "Session not found");
    }
    var s := store.sessions[id];
    if !s.isPublic && s.owner != uid && uid !in s.participants {
      return Fail(403, "Access denied");
    }
    if uid !in s.participants && s.owner != uid {
      s := s.(participants := s.participants + [uid]);
      store.Save(id, s);
    } else {
      assert store.sessions == store.sessions[id := s];
    }
    r := Reply(200, Joined("Joined session successfully", s));
  }

  /** `POST /:sessionId/leave`: no access check; every occurrence of the user goes. */
  method Leave(store: SM.SessionStore, id: string, uid: SM.UserId) returns (r: Reply<Body>)
    modifies store
    ensures r.status == 404 <==> id !in old(store.sessions)
    ensures r.status == 200 <==> id in old(store.sessions)
    ensures r.status == 200 ==>
      var s := old(store.sessions)[id];
      store.sessions == old(store.sessions)[id := s.(participants := LeaveList(s.participants, uid))]
    ensures r.status == 404 ==> store.sessions == old(store.sessions)
  {
    if id !in store.sessions {
      return Fail(404, "Session not found");
    }
    var s := store.sessions[id];
    s := s.(participants := LeaveList(s.participants, uid));
    store.Save(id, s);
    r := Reply(200, Done("Left session successfully"));
  }
}
