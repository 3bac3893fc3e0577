/**
 * The collaboration service's live session registry: the handshake check, the table of
 * connected users, the table of live sessions (participants, code, language, cursors) and
 * the messages each socket event sends out.
 *
 * Every event is specified by a pure step function over the registry tables (`JoinStep`,
 * `CodeChangeStep`, ...) that returns the new tables together with the outgoing messages;
 * the lemmas below state what those steps promise, and the methods of `Server` apply them
 * to its fields.
 */
module SocketHandler {
  import opened Wrappers
  import Json
  import OM = OrderedMap
  import SM = SessionModel

  type ConnId = string
  type SessionId = string

  /** The user record cached at login and attached to the socket by the handshake. */
  datatype User = User(id: string, email: string, name: string, role: string)

  /** An entry of the connected-users table: the user plus its socket id and connection time. */
  datatype ActiveUser = ActiveUser(user: User, socketId: ConnId, joinedAt: nat)

  datatype Cursor = Cursor(user: User, position: Json.Json, timestamp: nat)

  /** The in-memory state of a session that has live participants; `participants` keeps the
   *  insertion order of a JavaScript `Map` from socket id to user. */
  datatype LiveSession = LiveSession(
    participants: seq<(ConnId, User)>,
    code: string,
    language: string,
    cursor: map<ConnId, Cursor>,
    lastActivity: nat)

  type Live = map<SessionId, LiveSession>

  /** Who receives a message: the sender only, the room without the sender, or the whole room. */
  datatype Scope = ToSender(conn: ConnId) | ToOthers(room: SessionId, except: ConnId) | ToRoom(room: SessionId)

  /** The fixed result the simulated review reports. */
  datatype ReviewResult = ReviewResult(summary: string, issues: seq<Json.Json>, suggestions: seq<Json.Json>)

  const SimulatedResult := ReviewResult("AI review completed", [], [])

  /** A comment as broadcast: the payload's own fields with the server's author and time. */
  datatype CommentData = CommentData(id: string, line: Option<int>, text: Option<string>, author: User, timestamp: nat)

  /** The fields of what the client sends as `comment` that the model keeps; `author` and
   *  `timestamp` may be sent but are overwritten. The server spreads the whole object into the
   *  broadcast, so any other field the client adds is passed on as well; those extra fields
   *  are not modelled. */
  datatype CommentPayload = CommentPayload(
    id: Option<string>, line: Option<int>, text: Option<string>,
    author: Option<Json.Json>, timestamp: Option<Json.Json>)

  datatype Event =
    | Error(message: string)
    | SessionJoined(sessionId: SessionId, code: string, language: string, participants: seq<User>)
    | UserJoined(user: User, participantCount: nat)
    | CodeChanged(code: string, changes: Json.Json, author: User)
    | CursorMoved(userId: string, mover: User, position: Json.Json)
    | CommentAdded(comment: CommentData)
    | ReviewStarted(requestedBy: User)
    | ReviewCompleted(reviewId: string, completedFor: User, result: ReviewResult)
    | UserTyping(typistId: string, typist: User, isTyping: Json.Json)
    | UserLeft(leaver: User, remaining: nat)

  datatype Message = Message(scope: Scope, event: Event)

  /** The new registry tables and the messages one event sends, in order. */
  datatype Step = Step(live: Live, out: seq<Message>)

  // ---------------------------------------------------------------- handshake

  /** What the user cache returns for `user:<id>`: a JSON text still to be parsed, or an
   *  already-decoded user. */
  datatype Cached = CachedText(text: string) | CachedUser(user: User)

  datatype AuthResult = Admit(user: User) | Refuse(reason: string)

  /**
   * The handshake middleware. `verify` stands for the token check (`None` when it throws),
   * `lookup` for the cache read (`None` for a miss) and `parse` for `JSON.parse` of the cached
   * text (`None` when it throws).
   */
  function Authenticate(token: Option<string>, verify: string -> Option<string>,
                        lookup: string -> Option<Cached>, parse: string -> Option<User>): (r: AuthResult)
    ensures (token.None? || token.value == "") <==> r == Refuse("No token provided")
    ensures r == Refuse("Authentication failed") <==> token.Some? && token.value != "" && verify(token.value).None?
    ensures r.Admit? <==>
              token.Some? && token.value != "" && verify(token.value).Some? &&
              match lookup("user:" + verify(token.value).value)
              case Some(CachedUser(_)) => true
              case Some(CachedText(t)) => t != "" && parse(t).Some?
              case None => false
    ensures r == Refuse("Invalid session data") <==>
              token.Some? && token.value != "" && verify(token.value).Some? &&
              match lookup("user:" + verify(token.value).value)
              case Some(CachedText(t)) => t != "" && parse(t).None?
              case _ => false
    ensures r.Admit? ==> match lookup("user:" + verify(token.value).value)
                         case Some(CachedUser(u)) => r.user == u
                         case Some(CachedText(t)) => t != "" && parse(t) == Some(r.user)
                         case None => false
    ensures r == Refuse("Invalid session") <==>
              token.Some? && token.value != "" && verify(token.value).Some? &&
              (lookup("user:" + verify(token.value).value) in {None, Some(CachedText(""))})
  {
    if token.None? || token.value == "" then Refuse("No token provided")
    else match verify(token.value)
      case None => Refuse("Authentication failed")
      case Some(uid) =>
        match lookup("user:" + uid)
        case None => Refuse("Invalid session")
        case Some(CachedText(t)) =>
          if t == "" then Refuse("Invalid session")
          else if parse(t).None? then Refuse("Invalid session data")
          else Admit(parse(t).value)
        case Some(CachedUser(u)) => Admit(u)
  }

  // ---------------------------------------------------------------- joinSession

  /** What `Session.findById` gave: it threw, found nothing, or found the document. */
  datatype Lookup = LookupFailed | NotFound | Found(session: SM.Session)

  /** The socket join admits the owner and listed participants; visibility is not consulted. */
  predicate Admitted(s: SM.Session, uid: string) {
    uid in s.participants || s.owner == uid
  }

  /** The live state created for a session that has none: durable code (or ''), durable
   *  language (or 'javascript'), no participants and no cursors. */
  function Seed(s: SM.Session, now: nat): (ls: LiveSession)
    ensures ls.participants == [] && ls.cursor == map[]
    ensures ls.code == s.code
    ensures ls.language == (if s.language != "" then s.language else "javascript")
  {
    LiveSession([], s.code, if s.language != "" then s.language else "javascript", map[], now)
  }

  /** The live state after `conn` (carrying user `u`) joins `sid`, seeding it if absent. */
  function Enter(live: Live, sid: SessionId, s: SM.Session, conn: ConnId, u: User, now: nat): Live {
    var base := if sid in live then live[sid] else Seed(s, now);
    live[sid := base.(participants := OM.Put(base.participants, conn, u))]
  }

  /** The replies to a successful join: a snapshot to the joiner, then a count to the others. */
  function JoinReplies(sid: SessionId, ls: LiveSession, conn: ConnId, u: User): seq<Message> {
    [Message(ToSender(conn), SessionJoined(sid, ls.code, ls.language, OM.Values(ls.participants))),
     Message(ToOthers(sid, conn), UserJoined(u, |ls.participants|))]
  }

  /** The `joinSession` event. */
  function JoinStep(live: Live, sid: SessionId, found: Lookup, conn: ConnId, u: User, now: nat): Step {
    match found
    case LookupFailed => Step(live, [Message(ToSender(conn), Error("Failed to join session"))])
    case NotFound => Step(live, [Message(ToSender(conn), Error("Session not found"))])
    case Found(s) =>
      if !Admitted(s, u.id) then Step(live, [Message(ToSender(conn), Error("Access denied"))])
      else
        var live' := Enter(live, sid, s, conn, u, now);
        Step(live', JoinReplies(sid, live'[sid], conn, u))
  }

  /** A join that fails the lookup or the access check leaves the live sessions alone and only
   *  answers the sender with the matching error. */
  lemma JoinRefusals(live: Live, sid: SessionId, found: Lookup, conn: ConnId, u: User, now: nat)
    ensures found.NotFound? ==>
      JoinStep(live, sid, found, conn, u, now) == Step(live, [Message(ToSender(conn), Error("Session not found"))])
    ensures found.Found? && found.session.owner != u.id && u.id !in found.session.participants ==>
      JoinStep(live, sid, found, conn, u, now) == Step(live, [Message(ToSender(conn), Error("Access denied"))])
    ensures JoinStep(live, sid, found, conn, u, now).live != live ==> found.Found? && Admitted(found.session, u.id)
  {
    if found.Found? && Admitted(found.session, u.id) {
      var live' := JoinStep(live, sid, found, conn, u, now).live;
      OM.PutFacts(if sid in live then live[sid].participants else [], conn, u);
    }
  }

  /** After an admitted join the connection is a participant, the joiner's snapshot lists every
   *  participant including the joiner, and the count sent to the others is the new size. */
  lemma JoinAdmits(live: Live, sid: SessionId, s: SM.Session, conn: ConnId, u: User, now: nat)
    requires Admitted(s, u.id)
    ensures var st := JoinStep(live, sid, Found(s), conn, u, now);
      && sid in st.live
      && conn in OM.Keys(st.live[sid].participants)
      && |st.out| == 2
      && st.out[0].scope == ToSender(conn)
      && st.out[0].event.SessionJoined?
      && u in st.out[0].event.participants
      && |st.out[0].event.participants| == |st.live[sid].participants|
      && st.out[1] == Message(ToOthers(sid, conn), UserJoined(u, |st.live[sid].participants|))
  {
    var base := if sid in live then live[sid] else Seed(s, now);
    OM.PutFacts(base.participants, conn, u);
    var p := OM.Put(base.participants, conn, u);
    var k :| 0 <= k < |p| && p[k] == (conn, u);
    assert OM.Values(p)[k] == u;
  }

  /** Live state is seeded from the durable document only when absent: an existing entry keeps
   *  its in-memory code, language and activity time. */
  lemma JoinKeepsLiveCode(live: Live, sid: SessionId, s: SM.Session, conn: ConnId, u: User, now: nat)
    requires Admitted(s, u.id)
    ensures var l' := JoinStep(live, sid, Found(s), conn, u, now).live;
      if sid in live then
        l'[sid].code == live[sid].code && l'[sid].language == live[sid].language &&
        l'[sid].cursor == live[sid].cursor && l'[sid].lastActivity == live[sid].lastActivity
      else
        l'[sid].code == s.code && l'[sid].language == (if s.language == "" then "javascript" else s.language) &&
        OM.Keys(l'[sid].participants) == [conn]
  {
    if sid !in live {
      assert OM.Keys(Seed(s, now).participants) == [];
    }
  }

  /** Re-joining with a connection already in the session does not grow it. */
  lemma RejoinKeepsSize(live: Live, sid: SessionId, s: SM.Session, conn: ConnId, u: User, now: nat)
    requires Admitted(s, u.id)
    requires sid in live && conn in OM.Keys(live[sid].participants)
    ensures |JoinStep(live, sid, Found(s), conn, u, now).live[sid].participants| == |live[sid].participants|
  {
    OM.PutFacts(live[sid].participants, conn, u);
  }

  /** Joining creates at most the joined session's entry and never touches another session. */
  lemma JoinTouchesOnlyItsSession(live: Live, sid: SessionId, s: SM.Session, conn: ConnId, u: User, now: nat)
    requires Admitted(s, u.id)
    ensures var l' := JoinStep(live, sid, Found(s), conn, u, now).live;
      l'.Keys == live.Keys + {sid} && (forall other :: other in live && other != sid ==> l'[other] == live[other])
  {
    assert JoinStep(live, sid, Found(s), conn, u, now).live == Enter(live, sid, s, conn, u, now);
  }

  /** The socket join decides access without looking at the session's visibility. */
  lemma JoinIgnoresVisibility(live: Live, sid: SessionId, s: SM.Session, conn: ConnId, u: User, now: nat, pub: bool)
    ensures JoinStep(live, sid, Found(s.(isPublic := pub)), conn, u, now)
         == JoinStep(live, sid, Found(s), conn, u, now)
  {
    var s' := s.(isPublic := pub);
    assert Admitted(s', u.id) == Admitted(s, u.id);
    assert Seed(s', now) == Seed(s, now);
  }

  // ---------------------------------------------------------------- codeChange / cursorPosition / typing

  /** The `codeChange` event: a live session's code is replaced and the others are told. */
  function CodeChangeStep(live: Live, sid: SessionId, code: string, changes: Json.Json,
                          conn: ConnId, u: User, now: nat): Step {
    if sid !in live then Step(live, [Message(ToSender(conn), Error("Session not found"))])
    else Step(live[sid := live[sid].(code := code, lastActivity := now)],
              [Message(ToOthers(sid, conn), CodeChanged(code, changes, u))])
  }

  /** Code changes on a live session are last-write-wins and touch nothing but that session's
   *  code and activity time; on an unknown session they change nothing and answer with an error. */
  lemma CodeChangeLastWriteWins(live: Live, sid: SessionId, c1: string, c2: string, ch: Json.Json,
                                a: ConnId, b: ConnId, ua: User, ub: User, t1: nat, t2: nat)
    ensures sid !in live ==> CodeChangeStep(live, sid, c1, ch, a, ua, t1).live == live
    ensures sid in live ==>
      var l1 := CodeChangeStep(live, sid, c1, ch, a, ua, t1).live;
      var l2 := CodeChangeStep(l1, sid, c2, ch, b, ub, t2).live;
      && l2[sid].code == c2 && l2[sid].lastActivity == t2
      && l2[sid].participants == live[sid].participants && l2[sid].cursor == live[sid].cursor
      && l2 == live[sid := live[sid].(code := c2, lastActivity := t2)]
  {
  }

  /** The `cursorPosition` event; silently ignored for a session with no live state. */
  function CursorStep(live: Live, sid: SessionId, position: Json.Json, conn: ConnId, u: User, now: nat): Step {
    if sid !in live then Step(live, [])
    else Step(live[sid := live[sid].(cursor := live[sid].cursor[conn := Cursor(u, position, now)])],
              [Message(ToOthers(sid, conn), CursorMoved(u.id, u, position))])
  }

  /** A session keeps exactly one cursor per connection: a move adds the mover's key once and
   *  replaces its previous entry. */
  lemma CursorOnePerConnection(live: Live, sid: SessionId, p: Json.Json, conn: ConnId, u: User, now: nat)
    ensures sid !in live ==> CursorStep(live, sid, p, conn, u, now) == Step(live, [])
    ensures sid in live ==>
      var l' := CursorStep(live, sid, p, conn, u, now).live;
      && l'[sid].cursor.Keys == live[sid].cursor.Keys + {conn}
      && l'[sid].cursor[conn] == Cursor(u, p, now)
      && (forall c :: c in live[sid].cursor && c != conn ==> l'[sid].cursor[c] == live[sid].cursor[c])
      && l'[sid].participants == live[sid].participants && l'[sid].code == live[sid].code
  {
  }

  // ---------------------------------------------------------------- addComment

  /** The comment built from a payload: the payload's id wins over the fresh one because it is
   *  spread after it, while author and time are always the server's. */
  function BuildComment(p: CommentPayload, freshId: string, u: User, now: nat): (c: CommentData)
    ensures c.author == u && c.timestamp == now
    ensures c.id == (if p.id.Some? then p.id.value else freshId)
    ensures c.line == p.line && c.text == p.text
  {
    CommentData(p.id.GetOr(freshId), p.line, p.text, u, now)
  }

  /** The sub-document stored for a comment. */
  function Stored(c: CommentData): SM.Comment {
    SM.Comment(c.id, c.line, c.text, SM.Snapshot(c.author.id, c.author.name, c.author.email), c.timestamp)
  }

  // ---------------------------------------------------------------- disconnect

  /** The `disconnect` event on the live tables, given the socket's current session. */
  function LeaveStep(live: Live, current: Option<SessionId>, conn: ConnId, u: User): Step {
    if current.None? || current.value == "" || current.value !in live then Step(live, [])
    else
      var sid := current.value;
      var ls := live[sid];
      var p := OM.Remove(ls.participants, conn);
      var out := [Message(ToOthers(sid, conn), UserLeft(u, |p|))];
      if |p| == 0 then Step(live - {sid}, out)
      else Step(live[sid := ls.(participants := p, cursor := ls.cursor - {conn})], out)
  }

  /** Disconnecting removes the connection from its current session's participants and cursors,
   *  reports the count after removal (one less than before), and deletes the session's live
   *  state exactly when that count is zero. */
  lemma LeaveRemoves(live: Live, sid: SessionId, conn: ConnId, u: User)
    requires sid != "" && sid in live && OM.DistinctKeys(live[sid].participants)
    requires conn in OM.Keys(live[sid].participants)
    ensures var st := LeaveStep(live, Some(sid), conn, u);
      var n := |live[sid].participants| - 1;
      && st.out == [Message(ToOthers(sid, conn), UserLeft(u, n))]
      && (sid !in st.live <==> n == 0)
      && (sid in st.live ==> conn !in OM.Keys(st.live[sid].participants) && conn !in st.live[sid].cursor
                             && |st.live[sid].participants| == n)
      && st.live.Keys <= live.Keys
      && (forall other :: other in live && other != sid ==> other in st.live && st.live[other] == live[other])
  {
    OM.RemoveSize(live[sid].participants, conn);
    OM.RemoveKeys(live[sid].participants, conn);
  }

  /**
   * A second join does not leave the first session: after joining `s1`, then `s2`, then
   * disconnecting, the connection is still listed among `s1`'s live participants.
   */
  lemma SecondJoinLeavesStaleEntry(live: Live, s1: SessionId, s2: SessionId, d1: SM.Session, d2: SM.Session,
                                   conn: ConnId, u: User, now: nat)
    requires s1 != s2 && s2 != "" && Admitted(d1, u.id) && Admitted(d2, u.id)
    ensures var l1 := JoinStep(live, s1, Found(d1), conn, u, now).live;
      var l2 := JoinStep(l1, s2, Found(d2), conn, u, now).live;
      var l3 := LeaveStep(l2, Some(s2), conn, u).live;
      s1 in l3 && conn in OM.Keys(l3[s1].participants)
  {
    var l1 := JoinStep(live, s1, Found(d1), conn, u, now).live;
    JoinAdmits(live, s1, d1, conn, u, now);
    JoinTouchesOnlyItsSession(l1, s2, d2, conn, u, now);
  }

  // ---------------------------------------------------------------- the server

  /** A review announced with `reviewStarted` whose completion is still scheduled. */
  datatype PendingReview = PendingReview(room: SessionId, requestedBy: User)

  /** The message that announced a pending review occurs in the log. */
  ghost predicate Announced(log: seq<Message>, r: PendingReview) {
    exists i :: 0 <= i < |log| && log[i] == Message(ToRoom(r.room), ReviewStarted(r.requestedBy))
  }

  /**
   * The registry invariant: every live session has at least one participant and no
   * connection twice, and a socket's current session is live and lists that socket.
   */
  ghost predicate Registry(current: map<ConnId, SessionId>, live: Live) {
    && (forall sid :: sid in live ==> |live[sid].participants| > 0 && OM.DistinctKeys(live[sid].participants))
    && (forall c :: c in current ==> current[c] in live && c in OM.Keys(live[current[c]].participants))
  }

  /** Joining keeps every live session non-empty and free of repeated connections. */
  lemma EnterKeepsSessionsWellFormed(live: Live, sid: SessionId, s: SM.Session, conn: ConnId, u: User, now: nat)
    requires forall x :: x in live ==> |live[x].participants| > 0 && OM.DistinctKeys(live[x].participants)
    ensures var l' := Enter(live, sid, s, conn, u, now);
      forall x :: x in l' ==> |l'[x].participants| > 0 && OM.DistinctKeys(l'[x].participants)
  {
    var base := if sid in live then live[sid] else Seed(s, now);
    assert OM.DistinctKeys(base.participants);
    var p := OM.Put(base.participants, conn, u);
    OM.PutFacts(base.participants, conn, u);
    assert |p| > 0 by { assert |OM.Keys(p)| == |p|; }
    var l' := live[sid := base.(participants := p)];
    assert Enter(live, sid, s, conn, u, now) == l';
    forall x | x in l' ensures |l'[x].participants| > 0 && OM.DistinctKeys(l'[x].participants) {
      if x != sid {
        assert l'[x] == live[x];
      }
    }
  }

  /** Joining keeps every socket's current session live and listing that socket. */
  lemma EnterKeepsCurrent(current: map<ConnId, SessionId>, live: Live, sid: SessionId, s: SM.Session,
                          conn: ConnId, u: User, now: nat)
    requires forall c :: c in current ==> current[c] in live && c in OM.Keys(live[current[c]].participants)
    ensures var l' := Enter(live, sid, s, conn, u, now);
      var cur' := current[conn := sid];
      forall c :: c in cur' ==> cur'[c] in l' && c in OM.Keys(l'[cur'[c]].participants)
  {
    var base := if sid in live then live[sid] else Seed(s, now);
    var p := OM.Put(base.participants, conn, u);
    var l' := live[sid := base.(participants := p)];
    assert Enter(live, sid, s, conn, u, now) == l';
  }

  /** An admitted join keeps the registry invariant and makes the joined session current. */
  lemma JoinKeepsRegistry(current: map<ConnId, SessionId>, live: Live, sid: SessionId, s: SM.Session,
                          conn: ConnId, u: User, now: nat)
    requires Registry(current, live) && Admitted(s, u.id)
    ensures Registry(current[conn := sid], JoinStep(live, sid, Found(s), conn, u, now).live)
  {
    EnterKeepsSessionsWellFormed(live, sid, s, conn, u, now);
    EnterKeepsCurrent(current, live, sid, s, conn, u, now);
  }

  /** A disconnect keeps the registry invariant once the socket is forgotten. */
  lemma LeaveKeepsRegistry(current: map<ConnId, SessionId>, live: Live, conn: ConnId, u: User)
    requires Registry(current, live)
    ensures Registry(current - {conn},
                     LeaveStep(live, if conn in current then Some(current[conn]) else None, conn, u).live)
  {
    var cur := if conn in current then Some(current[conn]) else None;
    var l' := LeaveStep(live, cur, conn, u).live;
    if cur.Some? && cur.value != "" && cur.value in live {
      var sid := cur.value;
      var p := OM.Remove(live[sid].participants, conn);
      OM.RemoveKeys(live[sid].participants, conn);
      OM.RemoveDistinct(live[sid].participants, conn);
      forall c | c in current - {conn}
        ensures current[c] in l' && c in OM.Keys(l'[current[c]].participants)
      {
        if current[c] == sid {
          assert c in OM.Keys(p);
          assert |p| > 0;
        }
      }
    }
  }

  /** Sending more messages keeps every earlier announcement in the log. */
  lemma AnnouncedKept(log: seq<Message>, more: seq<Message>, pending: seq<PendingReview>)
    requires forall i :: 0 <= i < |pending| ==> Announced(log, pending[i])
    ensures forall i :: 0 <= i < |pending| ==> Announced(log + more, pending[i])
  {
    forall i | 0 <= i < |pending| ensures Announced(log + more, pending[i]) {
      var k :| 0 <= k < |log| && log[k] == Message(ToRoom(pending[i].room), ReviewStarted(pending[i].requestedBy));
      assert (log + more)[k] == log[k];
    }
  }

  class Server {
    /** Connected users by socket id. */
    var activeUsers: map<ConnId, ActiveUser>
    /** Each socket's `currentSession`, set by its last successful join. */
    var currentSession: map<ConnId, SessionId>
    var activeSessions: Live
    /** Scheduled review completions, in the order they fire (all share one delay). */
    var pendingReviews: seq<PendingReview>
    const store: SM.SessionStore
    /** Every message sent so far, and every id the generator has handed out. */
    ghost var log: seq<Message>
    ghost var issuedIds: set<string>

    ghost predicate Valid()
      reads this
    {
      && (forall c :: c in currentSession ==> c in activeUsers)
      && Registry(currentSession, activeSessions)
      && (forall i :: 0 <= i < |pendingReviews| ==> Announced(log, pendingReviews[i]))
    }

    constructor (store: SM.SessionStore)
      ensures Valid() && this.store == store
      ensures activeUsers == map[] && currentSession == map[] && activeSessions == map[]
      ensures pendingReviews == [] && log == [] && issuedIds == {}
    {
      this.store := store;
      activeUsers := map[];
      currentSession := map[];
      activeSessions := map[];
      pendingReviews := [];
      log := [];
      issuedIds := {};
    }

    /** The handshake and the `connection` handler: an admitted socket is registered, a refused
     *  one leaves every table as it was. */
    method Handshake(conn: ConnId, token: Option<string>, verify: string -> Option<string>,
                     lookup: string -> Option<Cached>, parse: string -> Option<User>, now: nat)
      returns (r: AuthResult)
      requires Valid() && conn !in activeUsers
      modifies this
      ensures Valid()
      ensures r == Authenticate(token, verify, lookup, parse)
      ensures activeUsers == if r.Admit? then old(activeUsers)[conn := ActiveUser(r.user, conn, now)]
                             else old(activeUsers)
      ensures currentSession == old(currentSession) && activeSessions == old(activeSessions)
      ensures pendingReviews == old(pendingReviews) && log == old(log) && issuedIds == old(issuedIds)
    {
      r := Authenticate(token, verify, lookup, parse);
      if r.Admit? {
        activeUsers := activeUsers[conn := ActiveUser(r.user, conn, now)];
      }
    }

    /** `joinSession`: the durable document is read from the store unless the read throws. */
    method JoinSession(conn: ConnId, sid: SessionId, readFails: bool, now: nat) returns (out: seq<Message>)
      requires Valid() && conn in activeUsers
      modifies this
      ensures Valid()
      ensures var found := if readFails then LookupFailed
                           else if sid in store.sessions then Found(store.sessions[sid]) else NotFound;
              var st := JoinStep(old(activeSessions), sid, found, conn, old(activeUsers)[conn].user, now);
              && activeSessions == st.live && out == st.out
              && currentSession == (if found.Found? && Admitted(found.session, old(activeUsers)[conn].user.id)
                                    then old(currentSession)[conn := sid] else old(currentSession))
      ensures activeUsers == old(activeUsers) && pendingReviews == old(pendingReviews)
      ensures log == old(log) + out && issuedIds == old(issuedIds)
    {
      var u := activeUsers[conn].user;
      var found := if readFails then LookupFailed
                   else if sid in store.sessions then Found(store.sessions[sid]) else NotFound;
      var st := JoinStep(activeSessions, sid, found, conn, u, now);
      if found.Found? && Admitted(found.session, u.id) {
        JoinKeepsRegistry(currentSession, activeSessions, sid, found.session, conn, u, now);
        currentSession := currentSession[conn := sid];
      }
      activeSessions := st.live;
      out := st.out;
      AnnouncedKept(log, out, pendingReviews);
      log := log + out;
    }

    /** `codeChange`. Any connected socket may change a live session's code; membership is not
     *  checked. The cache write that follows is best-effort and has no effect here. */
    method CodeChange(conn: ConnId, sid: SessionId, code: string, changes: Json.Json, now: nat)
      returns (out: seq<Message>)
      requires Valid() && conn in activeUsers
      modifies this
      ensures Valid()
      ensures var st := CodeChangeStep(old(activeSessions), sid, code, changes, conn, old(activeUsers)[conn].user, now);
              activeSessions == st.live && out == st.out
      ensures activeUsers == old(activeUsers) && currentSession == old(currentSession)
      ensures pendingReviews == old(pendingReviews) && log == old(log) + out && issuedIds == old(issuedIds)
    {
      var st := CodeChangeStep(activeSessions, sid, code, changes, conn, activeUsers[conn].user, now);
      activeSessions := st.live;
      out := st.out;
      AnnouncedKept(log, out, pendingReviews);
      log := log + out;
    }

    /** `cursorPosition`. */
    method CursorPosition(conn: ConnId, sid: SessionId, position: Json.Json, now: nat)
      returns (out: seq<Message>)
      requires Valid() && conn in activeUsers
      modifies this
      ensures Valid()
      ensures var st := CursorStep(old(activeSessions), sid, position, conn, old(activeUsers)[conn].user, now);
              activeSessions == st.live && out == st.out
      ensures activeUsers == old(activeUsers) && currentSession == old(currentSession)
      ensures pendingReviews == old(pendingReviews) && log == old(log) + out && issuedIds == old(issuedIds)
    {
      var st := CursorStep(activeSessions, sid, position, conn, activeUsers[conn].user, now);
      activeSessions := st.live;
      out := st.out;
      AnnouncedKept(log, out, pendingReviews);
      log := log + out;
    }

    /**
     * `addComment`. The comment is appended to the stored document (a missing document is
     * silently not updated) and then broadcast to the whole room; when the write throws the
     * sender gets an error and nothing is broadcast. `freshId` is the generator's new id.
     */
    method AddComment(conn: ConnId, sid: SessionId, payload: CommentPayload, freshId: string,
                      writeFails: bool, now: nat) returns (out: seq<Message>)
      requires Valid() && conn in activeUsers && freshId !in issuedIds
      modifies this, store
      ensures Valid()
      ensures var c := BuildComment(payload, freshId, old(activeUsers)[conn].user, now);
              && (writeFails ==> out == [Message(ToSender(conn), Error("Failed to add comment"))]
                                 && store.sessions == old(store.sessions))
              && (!writeFails ==> out == [Message(ToRoom(sid), CommentAdded(c))]
                                  && store.sessions == if sid in old(store.sessions)
                                     then old(store.sessions)[sid := old(store.sessions)[sid].(
                                            comments := old(store.sessions)[sid].comments + [Stored(c)])]
                                     else old(store.sessions))
      ensures activeUsers == old(activeUsers) && currentSession == old(currentSession)
      ensures activeSessions == old(activeSessions) && pendingReviews == old(pendingReviews)
      ensures log == old(log) + out && issuedIds == old(issuedIds) + {freshId}
    {
      var c := BuildComment(payload, freshId, activeUsers[conn].user, now);
      issuedIds := issuedIds + {freshId};
      if writeFails {
        out := [Message(ToSender(conn), Error("Failed to add comment"))];
      } else {
        if sid in store.sessions {
          var s := store.sessions[sid];
          store.Save(sid, s.(comments := s.comments + [Stored(c)]));
        }
        out := [Message(ToRoom(sid), CommentAdded(c))];
      }
      AnnouncedKept(log, out, pendingReviews);
      log := log + out;
    }

    /** `requestAIReview`: the room hears `reviewStarted` now and the completion is scheduled. */
    method RequestAIReview(conn: ConnId, sid: SessionId) returns (out: seq<Message>)
      requires Valid() && conn in activeUsers
      modifies this
      ensures Valid()
      ensures out == [Message(ToRoom(sid), ReviewStarted(old(activeUsers)[conn].user))]
      ensures pendingReviews == old(pendingReviews) + [PendingReview(sid, old(activeUsers)[conn].user)]
      ensures activeUsers == old(activeUsers) && currentSession == old(currentSession)
      ensures activeSessions == old(activeSessions) && log == old(log) + out && issuedIds == old(issuedIds)
    {
      var u := activeUsers[conn].user;
      out := [Message(ToRoom(sid), ReviewStarted(u))];
      AnnouncedKept(log, out, pendingReviews);
      log := log + out;
      pendingReviews := pendingReviews + [PendingReview(sid, u)];
      assert log[|log| - 1] == Message(ToRoom(sid), ReviewStarted(u));
    }

    /**
     * The scheduled completion of the oldest pending review: it goes to the same room with a
     * freshly generated review id, and its `reviewStarted` was sent earlier.
     */
    method CompleteReview(freshId: string) returns (out: seq<Message>)
      requires Valid() && |pendingReviews| > 0 && freshId !in issuedIds
      modifies this
      ensures Valid()
      ensures var p := old(pendingReviews)[0];
              && out == [Message(ToRoom(p.room), ReviewCompleted(freshId, p.requestedBy, SimulatedResult))]
              && Announced(old(log), p)
      ensures pendingReviews == old(pendingReviews)[1..]
      ensures freshId !in old(issuedIds) && issuedIds == old(issuedIds) + {freshId}
      ensures activeUsers == old(activeUsers) && currentSession == old(currentSession)
      ensures activeSessions == old(activeSessions) && log == old(log) + out
    {
      var p := pendingReviews[0];
      out := [Message(ToRoom(p.room), ReviewCompleted(freshId, p.requestedBy, SimulatedResult))];
      pendingReviews := pendingReviews[1..];
      ghost var before := log;
      log := log + out;
      issuedIds := issuedIds + {freshId};
      forall i | 0 <= i < |pendingReviews|
        ensures Announced(log, pendingReviews[i])
      {
        assert pendingReviews[i] == old(pendingReviews)[i + 1];
        var k :| 0 <= k < |before| && before[k] == Message(ToRoom(pendingReviews[i].room), ReviewStarted(pendingReviews[i].requestedBy));
        assert log[k] == before[k];
      }
    }

    /** `typing`: relayed to the rest of the room, nothing stored. */
    method Typing(conn: ConnId, sid: SessionId, isTyping: Json.Json) returns (out: seq<Message>)
      requires Valid() && conn in activeUsers
      modifies this
      ensures Valid()
      ensures var u := old(activeUsers)[conn].user; out == [Message(ToOthers(sid, conn), UserTyping(u.id, u, isTyping))]
      ensures activeUsers == old(activeUsers) && currentSession == old(currentSession)
      ensures activeSessions == old(activeSessions) && pendingReviews == old(pendingReviews)
      ensures log == old(log) + out && issuedIds == old(issuedIds)
    {
      var u := activeUsers[conn].user;
      out := [Message(ToOthers(sid, conn), UserTyping(u.id, u, isTyping))];
      AnnouncedKept(log, out, pendingReviews);
      log := log + out;
    }

    /** `disconnect`: the socket leaves the connected-users table and its current session. */
    method Disconnect(conn: ConnId) returns (out: seq<Message>)
      requires Valid() && conn in activeUsers
      modifies this
      ensures Valid()
      ensures var cur := if conn in old(currentSession) then Some(old(currentSession)[conn]) else None;
              var st := LeaveStep(old(activeSessions), cur, conn, old(activeUsers)[conn].user);
              activeSessions == st.live && out == st.out
      ensures activeUsers == old(activeUsers) - {conn} && currentSession == old(currentSession) - {conn}
      ensures pendingReviews == old(pendingReviews) && log == old(log) + out && issuedIds == old(issuedIds)
    {
      var u := activeUsers[conn].user;
      var cur := if conn in currentSession then Some(currentSession[conn]) else None;
      var st := LeaveStep(activeSessions, cur, conn, u);
      LeaveKeepsRegistry(currentSession, activeSessions, conn, u);
      activeUsers := activeUsers - {conn};
      currentSession := currentSession - {conn};
      activeSessions := st.live;
      out := st.out;
      AnnouncedKept(log, out, pendingReviews);
      log := log + out;
    }
  }
}
