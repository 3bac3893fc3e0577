/**
 * The gateway's user routes: reading and updating the caller's profile (with or without an
 * avatar upload), and the admin-only listing and deletion of users.
 */
module UserRoutes {
  import opened Wrappers
  import opened Http
  import Text
  import Json
  import Pagination
  import Ranking

  type UserId = string

  /** The stored user as these routes read and write it (without the password). */
  datatype User = User(name: string, email: string, role: string, preferences: map<string, Json.Json>,
                       avatar: Option<string>, createdAt: nat, updatedAt: nat)

  datatype Body =
    | Failed(failure: Failure)
    | Profile(user: User)
    | ProfileWithAvatar(user: User, avatarUrl: Option<string>)
    | Page(users: seq<User>, total: nat, currentPage: int, totalPages: int, hasNext: bool, hasPrev: bool)
    | Done(message: string)

  function Fail(status: nat, error: string): Reply<Body> {
    Reply(status, Failed(ErrorBody(error)))
  }

  /** The collection of user documents, keyed by id. */
  class UserStore {
    var users: map<UserId, User>

    constructor ()
      ensures users == map[]
    {
      users := map[];
    }

    method Replace(id: UserId, u: User)
      modifies this
      ensures users == old(users)[id := u]
    {
      users := users[id := u];
    }

    method Delete(id: UserId)
      modifies this
      ensures users == old(users) - {id}
    {
      users := users - {id};
    }
  }

  // ---------------------------------------------------------------- avatar file name

  /**
   * `path.extname(name)` for a name without directory separators: from the last '.' to the
   * end, except when that dot starts the name or the name is '..'.
   */
  function Extname(name: string): (e: string)
    ensures e == "" || (e[0] == '.' && '.' !in e[1..])
    ensures exists k :: 0 <= k <= |name| && name[k..] == e
    ensures '.' !in name ==> e == ""
    ensures e == "" <==> name == ".." || forall k :: 0 < k < |name| ==> name[k] != '.'
  {
    match Text.LastIndex(name, '.')
    case None => assert name[|name|..] == ""; ""
    case Some(d) =>
      if d == 0 || name == ".." then (assert name[|name|..] == ""; "")
      else
        assert name[d..][1..] == name[d + 1..];
        name[d..]
  }

  /** The stored avatar's file name: the user id, '-', the upload time in decimal and the
   *  original extension. */
  function AvatarFileName(uid: UserId, now: nat, originalName: string): (f: string)
    ensures f == uid + "-" + Text.NatToString(now) + Extname(originalName)
    ensures Text.StartsWith(f, uid + "-")
  {
    uid + "-" + Text.NatToString(now) + Extname(originalName)
  }

  /** One user's uploads at different times get different file names, whatever the original
   *  names: the digits of the time end where the extension's '.' (or the name) ends. */
  lemma AvatarNamesDistinctInTime(uid: UserId, t1: nat, t2: nat, n1: string, n2: string)
    requires t1 != t2
    ensures AvatarFileName(uid, t1, n1) != AvatarFileName(uid, t2, n2)
  {
    var d1, d2 := Text.NatToString(t1), Text.NatToString(t2);
    var e1, e2 := Extname(n1), Extname(n2);
    var h := uid + "-";
    var f1, f2 := h + (d1 + e1), h + (d2 + e2);
    assert AvatarFileName(uid, t1, n1) == f1;
    assert AvatarFileName(uid, t2, n2) == f2;
    if f1 == f2 {
      assert f1[|h|..] == d1 + e1;
      assert f2[|h|..] == d2 + e2;
      TailsOfDigits(d1, e1, d2, e2);
      Text.NatToStringInjective(t1, t2);
    }
  }

  /** Digits followed by an extension split in only one way. */
  lemma TailsOfDigits(d1: string, e1: string, d2: string, e2: string)
    requires forall i :: 0 <= i < |d1| ==> '0' <= d1[i] <= '9'
    requires forall i :: 0 <= i < |d2| ==> '0' <= d2[i] <= '9'
    requires e1 == "" || e1[0] == '.'
    requires e2 == "" || e2[0] == '.'
    requires d1 + e1 == d2 + e2
    ensures d1 == d2
  {
    if |d1| < |d2| {
      ShorterDigitsDiffer(d1, e1, d2, e2);
    } else if |d2| < |d1| {
      ShorterDigitsDiffer(d2, e2, d1, e1);
    } else {
      assert d1 == (d1 + e1)[..|d1|];
      assert d2 == (d2 + e2)[..|d2|];
    }
  }

  /** Where the shorter run of digits ends, the longer one still has a digit, never a '.'. */
  lemma ShorterDigitsDiffer(d1: string, e1: string, d2: string, e2: string)
    requires |d1| < |d2|
    requires forall i :: 0 <= i < |d2| ==> '0' <= d2[i] <= '9'
    requires e1 == "" || e1[0] == '.'
    ensures d1 + e1 != d2 + e2
  {
    assert (d2 + e2)[|d1|] == d2[|d1|];
    if e1 != "" {
      assert (d1 + e1)[|d1|] == '.';
    }
  }

  // ---------------------------------------------------------------- profile

  /** `GET /profile`. */
  function GetProfile(users: map<UserId, User>, uid: UserId): (r: Reply<Body>)
    ensures r.status == 404 <==> uid !in users
    ensures r.status == 200 ==> r.body == Profile(users[uid])
  {
    if uid !in users then Fail(404, "User not found") else Reply(200, Profile(users[uid]))
  }

  /** The fields an update writes; `None` leaves a field alone. */
  datatype ProfileUpdate = ProfileUpdate(name: Option<string>, email: Option<string>,
                                         preferences: Option<map<string, Json.Json>>, avatar: Option<string>,
                                         updatedAt: nat)

  /** The user after `findByIdAndUpdate(id, update)`. */
  function ApplyUpdate(u: User, d: ProfileUpdate): (v: User)
    ensures v.role == u.role && v.updatedAt == d.updatedAt
    ensures v.name == d.name.GetOr(u.name) && v.email == d.email.GetOr(u.email)
    ensures v.preferences == d.preferences.GetOr(u.preferences) && v.avatar == (if d.avatar.Some? then d.avatar else u.avatar)
  {
    u.(name := d.name.GetOr(u.name), email := d.email.GetOr(u.email),
       preferences := d.preferences.GetOr(u.preferences),
       avatar := if d.avatar.Some? then d.avatar else u.avatar, updatedAt := d.updatedAt)
  }

  /** The preferences the multipart form carries: a string is parsed as JSON when it can be,
   *  and is kept as the string otherwise. */
  function FormPreferences(p: Json.Json, parse: string -> Option<Json.Json>): (q: Json.Json)
    ensures !p.JStr? ==> q == p
    ensures p.JStr? && parse(p.s).Some? ==> q == parse(p.s).value
    ensures p.JStr? && parse(p.s).None? ==> q == p
  {
    if p.JStr? && parse(p.s).Some? then parse(p.s).value else p
  }

  /**
   * The update `POST /profile/update` builds: name and e-mail only when truthy, preferences
   * when truthy, the avatar path when a file came with the request, and always the time. The
   * preferences are spread over the requester's cached record, which carries only the id,
   * e-mail, name and role, so the sent preferences become the whole stored object.
   */
  method FormUpdate(name: Option<string>, email: Option<string>, preferences: Option<Json.Json>,
                    uploaded: Option<string>, parse: string -> Option<Json.Json>, now: nat)
    returns (d: ProfileUpdate)
    ensures d.name == (if name.Some? && name.value != "" then name else None)
    ensures d.email == (if email.Some? && email.value != "" then email else None)
    ensures Json.TruthyOpt(preferences) <==> d.preferences.Some?
    ensures d.preferences.Some? ==> d.preferences.value == Json.Spread(FormPreferences(preferences.value, parse))
    ensures d.avatar == (if uploaded.Some? then Some("/uploads/avatars/" + uploaded.value) else None)
    ensures d.updatedAt == now
  {
    d := ProfileUpdate(None, None, None, None, now);
    if name.Some? && name.value != "" {
      d := d.(name := name);
    }
    if email.Some? && email.value != "" {
      d := d.(email := email);
    }
    if Json.TruthyOpt(preferences) {
      var prefs := FormPreferences(preferences.value, parse);
      var cached: map<string, Json.Json> := map[];
      d := d.(preferences := Some(Json.Merge(cached, Json.Spread(prefs))));
    }
    if uploaded.Some? {
      d := d.(avatar := Some("/uploads/avatars/" + uploaded.value));
    }
  }

  /** As written, a form that sends only a theme erases a stored `notifications` setting. */
  lemma FormUpdateDropsStoredPreference(u: User, parse: string -> Option<Json.Json>, now: nat)
    requires u.preferences == map["notifications" := Json.JBool(true)]
    ensures var sent := Json.JObj(map["theme" := Json.JStr("light")]);
            var d := ProfileUpdate(None, None, Some(Json.Spread(FormPreferences(sent, parse))), None, now);
            && "notifications" in u.preferences
            && "notifications" !in ApplyUpdate(u, d).preferences
  {
    var sent := Json.JObj(map["theme" := Json.JStr("light")]);
    assert Json.Spread(FormPreferences(sent, parse)).Keys == {"theme"};
  }

  /** The form's preferences spread over the user's stored ones, as the JSON route does. */
  function MergedFormPreferences(stored: map<string, Json.Json>, p: Json.Json, parse: string -> Option<Json.Json>)
    : (m: map<string, Json.Json>)
    ensures m.Keys == stored.Keys + Json.Spread(FormPreferences(p, parse)).Keys
    ensures forall k :: k in stored && k !in Json.Spread(FormPreferences(p, parse)) ==> m[k] == stored[k]
    ensures forall k :: k in Json.Spread(FormPreferences(p, parse)) ==> m[k] == Json.Spread(FormPreferences(p, parse))[k]
  {
    Json.Merge(stored, Json.Spread(FormPreferences(p, parse)))
  }

  /** With the merge, the form that sends only a theme keeps the stored `notifications`. */
  lemma MergedFormKeepsStoredPreference(u: User, parse: string -> Option<Json.Json>)
    requires u.preferences == map["notifications" := Json.JBool(true)]
    ensures var m := MergedFormPreferences(u.preferences, Json.JObj(map["theme" := Json.JStr("light")]), parse);
            "notifications" in m && m["notifications"] == Json.JBool(true) && m["theme"] == Json.JStr("light")
  {
    var sent := Json.JObj(map["theme" := Json.JStr("light")]);
    assert Json.Spread(FormPreferences(sent, parse)) == map["theme" := Json.JStr("light")];
  }

  /** `POST /profile/update`: the built update is applied; a missing user gives 404 and
   *  changes nothing. */
  method UpdateProfileForm(store: UserStore, uid: UserId, update: ProfileUpdate) returns (r: Reply<Body>)
    modifies store
    ensures r.status == 404 <==> uid !in old(store.users)
    ensures r.status == 404 ==> store.users == old(store.users)
    ensures r.status == 200 ==>
              store.users == old(store.users)[uid := ApplyUpdate(old(store.users)[uid], update)]
              && r.body == ProfileWithAvatar(store.users[uid], store.users[uid].avatar)
    ensures r.status in {200, 404}
  {
    if uid !in store.users {
      return Fail(404, "User not found");
    }
    var v := ApplyUpdate(store.users[uid], update);
    store.Replace(uid, v);
    r := Reply(200, ProfileWithAvatar(v, v.avatar));
  }

  /** express-validator's `isBoolean()` on the value's string form. */
  predicate BooleanLike(j: Json.Json) {
    j.JBool? || (j.JStr? && j.s in {"true", "false", "0", "1"}) || (j.JNum? && (j.n == 0.0 || j.n == 1.0))
  }

  /** The checks on `preferences.theme` (one of light and dark) and
   *  `preferences.notifications` (a boolean), each only when present. */
  function PreferenceErrors(preferences: Option<Json.Json>): (errors: seq<string>)
    ensures errors == [] <==>
              (preferences.None? || (
                 (Json.Get(preferences.value, "theme").None?
                  || Json.Get(preferences.value, "theme").value in {Json.JStr("light"), Json.JStr("dark")})
                 && (Json.Get(preferences.value, "notifications").None?
                     || BooleanLike(Json.Get(preferences.value, "notifications").value))))
  {
    if preferences.None? then []
    else
      var theme := Json.Get(preferences.value, "theme");
      var notifications := Json.Get(preferences.value, "notifications");
      (if theme.Some? && theme.value !in {Json.JStr("light"), Json.JStr("dark")} then ["preferences.theme"] else [])
      + (if notifications.Some? && !BooleanLike(notifications.value) then ["preferences.notifications"] else [])
  }

  /** `PUT /profile`: 400 on a bad preference, 404 for a missing user, otherwise the stored
   *  preferences with the sent ones spread over them, and the time. */
  method UpdateProfile(store: UserStore, uid: UserId, preferences: Option<Json.Json>, now: nat)
    returns (r: Reply<Body>)
    modifies store
    ensures r.status == 400 <==> PreferenceErrors(preferences) != []
    ensures r.status == 404 <==> PreferenceErrors(preferences) == [] && uid !in old(store.users)
    ensures r.status == 200 ==>
              var u := old(store.users)[uid];
              var prefs := if Json.TruthyOpt(preferences) then Json.Merge(u.preferences, Json.Spread(preferences.value))
                           else u.preferences;
              && store.users == old(store.users)[uid := u.(preferences := prefs, updatedAt := now)]
              && r.body == Profile(store.users[uid])
    ensures r.status != 200 ==> store.users == old(store.users)
    ensures r.status in {200, 400, 404}
  {
    var errors := PreferenceErrors(preferences);
    if errors != [] {
      return Reply(400, Failed(ValidationErrors(errors)));
    }
    if uid !in store.users {
      return Fail(404, "User not found");
    }
    var u := store.users[uid];
    var update := ProfileUpdate(None, None, None, None, now);
    if Json.TruthyOpt(preferences) {
      update := update.(preferences := Some(Json.Merge(u.preferences, Json.Spread(preferences.value))));
    }
    var v := ApplyUpdate(u, update);
    store.Replace(uid, v);
    r := Reply(200, Profile(v));
  }

  /** Sending only some preference keys keeps every other stored key. */
  lemma PreferenceMergeKeeps(stored: map<string, Json.Json>, sent: map<string, Json.Json>, k: string)
    requires k in stored && k !in sent
    ensures k in Json.Merge(stored, Json.Spread(Json.JObj(sent)))
    ensures Json.Merge(stored, Json.Spread(Json.JObj(sent)))[k] == stored[k]
  {
  }

  // ---------------------------------------------------------------- admin

  /** The list's sort field, `createdAt`, read through a user id. */
  function CreatedAt(users: map<UserId, User>): UserId -> int {
    id => if id in users then users[id].createdAt else 0
  }

  /** `GET /`: admins only; a negative `skip` is refused by the database (500); otherwise the
   *  requested page of all users, newest first, with the count of the whole collection and
   *  `hasNext`/`hasPrev`. */
  ghost function ListUsers(users: map<UserId, User>, role: string, page: Option<int>, limit: Option<int>)
    : (r: Reply<Body>)
    ensures r.status == 403 <==> role != "admin"
    ensures r.status == 500 <==> role == "admin" && Pagination.Request(page, limit).skip < 0
    ensures r.status in {200, 403, 500}
    ensures r.status == 200 ==>
              var w := Pagination.Request(page, limit);
              var pages := Pagination.TotalPages(|users|, w.limit);
              && r.body.Page?
              && r.body.total == |users| && r.body.currentPage == w.page && r.body.totalPages == pages
              && (r.body.hasNext <==> w.page < pages) && (r.body.hasPrev <==> w.page > 1)
              && exists order :: Ranking.ListedPage(users, users.Keys, CreatedAt(users), order,
                                                    w.skip, Ranking.Count(w.limit), r.body.users)
  {
    if role != "admin" then Fail(403, "Access denied")
    else
      var w := Pagination.Request(page, limit);
      if w.skip < 0 then Fail(500, "Server error")
      else
        var listed := Ranking.Page(users, users.Keys, CreatedAt(users), w.skip, Ranking.Count(w.limit));
        var pages := Pagination.TotalPages(|users|, w.limit);
        Reply(200, Page(listed, |users|, w.page, pages, w.page < pages, w.page > 1))
  }

  /** A listed page holds at most `limit` users, newest first. */
  lemma ListedUsersFacts(users: map<UserId, User>, page: Option<int>, limit: Option<int>)
    ensures var r := ListUsers(users, "admin", page, limit);
            r.status == 200 ==>
              && |r.body.users| <= Ranking.Count(Pagination.Request(page, limit).limit)
              && (forall i, j :: 0 <= i < j < |r.body.users| ==>
                    r.body.users[i].createdAt >= r.body.users[j].createdAt)
  {
    var r := ListUsers(users, "admin", page, limit);
    if r.status == 200 {
      var w := Pagination.Request(page, limit);
      var key, count := CreatedAt(users), Ranking.Count(w.limit);
      var order :| Ranking.ListedPage(users, users.Keys, key, order, w.skip, count, r.body.users);
      var shown := Ranking.PageFacts(users, users.Keys, key, order, w.skip, count, r.body.users);
      forall i, j | 0 <= i < j < |r.body.users|
        ensures r.body.users[i].createdAt >= r.body.users[j].createdAt
      {
        assert key(shown[i]) >= key(shown[j]);
      }
    }
  }

  /** With positive paging parameters, a page has a successor exactly when some user lies
   *  past it. */
  lemma HasNextIffMoreUsers(users: map<UserId, User>, page: int, limit: int)
    requires page > 0 && limit > 0
    ensures var r := ListUsers(users, "admin", Some(page), Some(limit));
            r.status == 200 && (r.body.hasNext <==> page * limit < |users|)
  {
    Pagination.PositiveRequest(page, limit);
    Pagination.BeforeLastIffMore(|users|, page, limit);
  }

  /** `DELETE /:userId`: admins only; 404 for a missing user. */
  method DeleteUser(store: UserStore, role: string, id: UserId) returns (r: Reply<Body>)
    modifies store
    ensures r.status == 403 <==> role != "admin"
    ensures r.status == 404 <==> role == "admin" && id !in old(store.users)
    ensures r.status == 200 <==> role == "admin" && id in old(store.users)
    ensures store.users == if r.status == 200 then old(store.users) - {id} else old(store.users)
  {
    if role != "admin" {
      return Fail(403, "Access denied");
    }
    if id !in store.users {
      return Fail(404, "User not found");
    }
    store.Delete(id);
    r := Reply(200, Done("User deleted successfully"));
  }
}
