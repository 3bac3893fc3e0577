/**
 * The gateway's REST routes for projects: listing with paging, creating with defaults,
 * reading with an access check, owner-only update and delete, and adding a collaborator at
 * most once.
 */
module ProjectRoutes {
  import opened Wrappers
  import opened Http
  import Text
  import Pagination
  import Ranking
  import PM = ProjectModel

  type Projects = map<string, PM.Project>

  datatype Body =
    | Failed(failure: Failure)
    | One(project: PM.Project)
    | Listed(projects: seq<PM.Project>, total: nat, currentPage: int, totalPages: int)
    | Done(message: string)

  function Fail(status: nat, error: string): Reply<Body> {
    Reply(status, Failed(ErrorBody(error)))
  }

  /** A user sees a project they own, collaborate on, or that is public. */
  predicate CanView(p: PM.Project, uid: PM.UserId) {
    p.owner == uid || uid in p.collaborators || p.isPublic
  }

  /** The list query: projects the user owns or collaborates on. */
  predicate Involves(p: PM.Project, uid: PM.UserId) {
    p.owner == uid || uid in p.collaborators
  }

  /** The ids of the projects the list query matches. */
  ghost function Matching(projects: Projects, uid: PM.UserId): (ids: set<string>)
    ensures ids <= projects.Keys
  {
    set id | id in projects && Involves(projects[id], uid)
  }

  /** The list's sort field, `updatedAt`, read through a document id. */
  function UpdatedAt(projects: Projects): string -> int {
    id => if id in projects then projects[id].updatedAt else 0
  }

  /** `GET /`: a negative `skip` is refused by the database (500); otherwise the requested page
   *  of the user's projects, most recently updated first, with the sessions route's defaults
   *  and paging arithmetic. */
  ghost function List(projects: Projects, uid: PM.UserId, page: Option<int>, limit: Option<int>): (r: Reply<Body>)
    ensures r.status == 500 <==> Pagination.Request(page, limit).skip < 0
    ensures r.status in {200, 500}
    ensures r.status == 200 ==> r.body.Listed?
    ensures r.status == 200 ==> r.body.total == |Matching(projects, uid)|
    ensures r.status == 200 ==> r.body.currentPage == Pagination.Request(page, limit).page
    ensures r.status == 200 ==> var w := Pagination.Request(page, limit);
            w.limit > 0 ==> (r.body.totalPages - 1) * w.limit < r.body.total <= r.body.totalPages * w.limit
    ensures r.status == 200 ==> var w := Pagination.Request(page, limit);
            exists order :: Ranking.ListedPage(projects, Matching(projects, uid), UpdatedAt(projects), order,
                                               w.skip, Ranking.Count(w.limit), r.body.projects)
  {
    var w := Pagination.Request(page, limit);
    if w.skip < 0 then Fail(500, "Server error")
    else
      var total := |Matching(projects, uid)|;
      var listed := Ranking.Page(projects, Matching(projects, uid), UpdatedAt(projects), w.skip, Ranking.Count(w.limit));
      Reply(200, Listed(listed, total, w.page, Pagination.TotalPages(total, w.limit)))
  }

  /** A listed page holds at most `limit` projects, all of them owned by or shared with the
   *  user, most recently updated first. */
  lemma ListedProjectsFacts(projects: Projects, uid: PM.UserId, page: Option<int>, limit: Option<int>)
    ensures var r := List(projects, uid, page, limit);
            r.status == 200 ==>
              && |r.body.projects| <= Ranking.Count(Pagination.Request(page, limit).limit)
              && (forall i :: 0 <= i < |r.body.projects| ==> Involves(r.body.projects[i], uid))
              && (forall i, j :: 0 <= i < j < |r.body.projects| ==>
                    r.body.projects[i].updatedAt >= r.body.projects[j].updatedAt)
  {
    var r := List(projects, uid, page, limit);
    if r.status == 200 {
      var w := Pagination.Request(page, limit);
      var ids, key, count := Matching(projects, uid), UpdatedAt(projects), Ranking.Count(w.limit);
      var order :| Ranking.ListedPage(projects, ids, key, order, w.skip, count, r.body.projects);
      var shown := Ranking.PageFacts(projects, ids, key, order, w.skip, count, r.body.projects);
      forall i, j | 0 <= i < j < |r.body.projects|
        ensures r.body.projects[i].updatedAt >= r.body.projects[j].updatedAt
      {
        assert key(shown[i]) >= key(shown[j]);
      }
    }
  }

  /** `GET /:projectId`. */
  function Get(projects: Projects, id: string, uid: PM.UserId): (r: Reply<Body>)
    ensures r.status == 404 <==> id !in projects
    ensures r.status == 403 <==> id in projects && !CanView(projects[id], uid)
    ensures r.status == 200 <==> id in projects && CanView(projects[id], uid)
    ensures r.status == 200 ==> r.body == One(projects[id])
  {
    if id !in projects then Fail(404, "Project not found")
    else if !CanView(projects[id], uid) then Fail(403, "Access denied")
    else Reply(200, One(projects[id]))
  }

  /** The create body after its sanitisers: `description` is trimmed when sent. */
  datatype CreateBody = CreateBody(name: Option<string>, description: Option<string>, language: Option<string>,
                                   isPublic: Option<bool>)

  /** The draft the create route hands to the schema. */
  function CreateDraft(b: CreateBody, uid: PM.UserId): (d: PM.Draft)
    ensures d.owner == Some(uid) && d.collaborators == [] && d.files == []
    ensures d.language == Some(if b.language.GetOr("") == "" then "javascript" else b.language.value)
    ensures d.isPublic == Some(b.isPublic.GetOr(false))
  {
    PM.Draft(b.name, if b.description.Some? then Some(Text.Trim(b.description.value)) else None, Some(uid),
             [], [], Some(if b.language.GetOr("") == "" then "javascript" else b.language.value),
             Some(b.isPublic.GetOr(false)), None, None)
  }

  /** `POST /`: a name that is blank after trimming is refused; a draft the schema rejects
   *  (only an empty owner can be, once the name passed) fails the save (500); otherwise the new
   *  document is saved (its `updatedAt` stamped) and returned with 201. */
  method Create(store: PM.ProjectStore, freshId: string, uid: PM.UserId, b: CreateBody, now: nat)
    returns (r: Reply<Body>)
    modifies store
    ensures r.status == 400 <==> Text.Trim(b.name.GetOr("")) == ""
    ensures r.status == 500 <==> Text.Trim(b.name.GetOr("")) != "" && uid == ""
    ensures r.status != 201 ==> store.projects == old(store.projects)
    ensures r.status == 201 ==>
              var p := PM.Build(CreateDraft(b, uid), now).value;
              && r == Reply(201, One(p))
              && store.projects == old(store.projects)[freshId := p]
              && p.owner == uid && p.collaborators == [] && p.files == [] && !p.settings.autoReview
              && p.description == (if b.description.Some? then Text.Trim(b.description.value) else "")
    ensures r.status in {400, 500, 201}
  {
    if Text.Trim(b.name.GetOr("")) == "" {
      return Reply(400, Failed(ValidationErrors(["Project name is required"])));
    }
    var built := PM.Build(CreateDraft(b, uid), now);
    if built.Failure? {
      return Fail(500, "Server error");
    }
    var p := built.value;
    store.Save(freshId, p, now);
    assert p.(updatedAt := now) == p;
    r := Reply(201, One(p));
  }

  /** A `settings` object as sent: the theme is whatever string the client chose. */
  datatype SettingsPatch = SettingsPatch(autoReview: bool, theme: string)

  /** The update body: the whole request body goes to the update, so any field of the
   *  document may be sent; `None` leaves it alone. A sent `updatedAt` is always overwritten
   *  by the route's own time. */
  datatype Patch = Patch(name: Option<string>, description: Option<string>, language: Option<string>,
                         isPublic: Option<bool>, owner: Option<PM.UserId>,
                         collaborators: Option<seq<PM.UserId>>, files: Option<seq<PM.FileEntry>>,
                         settings: Option<SettingsPatch>, createdAt: Option<nat>)

  /** The update's validators refuse the patch: an empty owner, a file without a name, or a
   *  theme outside the enumeration. */
  predicate SchemaRejects(u: Patch) {
    || u.owner == Some("")
    || (u.files.Some? && exists i :: 0 <= i < |u.files.value| && u.files.value[i].name == "")
    || (u.settings.Some? && PM.ParseTheme(u.settings.value.theme).None?)
  }

  /** The document after `findByIdAndUpdate(id, {...body, updatedAt})`, for a patch the
   *  validators accept. */
  function Apply(p: PM.Project, u: Patch, now: nat): (q: PM.Project)
    requires !SchemaRejects(u)
    ensures q.updatedAt == now && q.createdAt == u.createdAt.GetOr(p.createdAt)
    ensures q.collaborators == u.collaborators.GetOr(p.collaborators) && q.files == u.files.GetOr(p.files)
    ensures u.settings.None? ==> q.settings == p.settings
    ensures u.settings.Some? ==> q.settings.autoReview == u.settings.value.autoReview
                                 && (q.settings.theme == PM.Light <==> u.settings.value.theme == "light")
    ensures q.name == (if u.name.Some? then Text.Trim(u.name.value) else p.name)
    ensures q.description == (if u.description.Some? then Text.Trim(u.description.value) else p.description)
    ensures q.language == u.language.GetOr(p.language) && q.isPublic == u.isPublic.GetOr(p.isPublic)
    ensures q.owner == u.owner.GetOr(p.owner) && (p.owner != "" ==> q.owner != "")
  {
    p.(name := if u.name.Some? then Text.Trim(u.name.value) else p.name,
       description := if u.description.Some? then Text.Trim(u.description.value) else p.description,
       language := u.language.GetOr(p.language),
       isPublic := u.isPublic.GetOr(p.isPublic),
       owner := u.owner.GetOr(p.owner),
       collaborators := u.collaborators.GetOr(p.collaborators),
       files := u.files.GetOr(p.files),
       settings := if u.settings.Some? then PM.Settings(u.settings.value.autoReview,
                                                        PM.ParseTheme(u.settings.value.theme).value)
                   else p.settings,
       createdAt := u.createdAt.GetOr(p.createdAt),
       updatedAt := now)
  }

  /**
   * `PUT /:projectId`: validation, then 404, then the owner check, then the update. The update
   * runs the schema validators, so a patch they refuse fails with 500.
   */
  method Update(store: PM.ProjectStore, id: string, uid: PM.UserId, u: Patch, now: nat) returns (r: Reply<Body>)
    modifies store
    ensures r.status == 400 <==> u.name.Some? && Text.Trim(u.name.value) == ""
    ensures r.status == 404 <==> r.status != 400 && id !in old(store.projects)
    ensures r.status == 403 <==> r.status !in {400, 404} && old(store.projects)[id].owner != uid
    ensures r.status == 500 <==> r.status !in {400, 404, 403} && SchemaRejects(u)
    ensures r.status == 200 ==> (!SchemaRejects(u) &&
                                 store.projects == old(store.projects)[id := Apply(old(store.projects)[id], u, now)] &&
                                 r.body == One(store.projects[id]))
    ensures r.status != 200 ==> store.projects == old(store.projects)
    ensures r.status in {200, 400, 403, 404, 500}
  {
    if u.name.Some? && Text.Trim(u.name.value) == "" {
      return Reply(400, Failed(ValidationErrors(["name"])));
    }
    if id !in store.projects {
      return Fail(404, "Project not found");
    }
    var p := store.projects[id];
    if p.owner != uid {
      return Fail(403, "Only project owner can update");
    }
    if SchemaRejects(u) {
      return Fail(500, "Server error");
    }
    var q := Apply(p, u, now);
    store.Replace(id, q);
    r := Reply(200, One(q));
  }

  /** `DELETE /:projectId`: 404, then the owner check, then removal. */
  method Delete(store: PM.ProjectStore, id: string, uid: PM.UserId) returns (r: Reply<Body>)
    modifies store
    ensures r.status == 404 <==> id !in old(store.projects)
    ensures r.status == 403 <==> id in old(store.projects) && old(store.projects)[id].owner != uid
    ensures r.status == 200 <==> id in old(store.projects) && old(store.projects)[id].owner == uid
    ensures store.projects == if r.status == 200 then old(store.projects) - {id} else old(store.projects)
  {
    if id !in store.projects {
      return Fail(404, "Project not found");
    }
    if store.projects[id].owner != uid {
      return Fail(403, "Only project owner can delete");
    }
    store.Delete(id);
    r := Reply(200, Done("Project deleted successfully"));
  }

  predicate NoDuplicates(xs: seq<PM.UserId>) {
    forall i, j :: 0 <= i < j < |xs| ==> xs[i] != xs[j]
  }

  /** The collaborator rule: the user is appended unless already listed. */
  function AddCollaborator(xs: seq<PM.UserId>, uid: PM.UserId): (r: Option<seq<PM.UserId>>)
    ensures r.None? <==> uid in xs
    ensures r.Some? ==> r.value == xs + [uid] && multiset(r.value)[uid] == 1
  {
    if uid in xs then None
    else
      assert multiset(xs)[uid] == 0;
      Some(xs + [uid])
  }

  /** Adding a collaborator keeps the list free of duplicates, and a second addition of the
   *  same user is refused. */
  lemma AddCollaboratorFacts(xs: seq<PM.UserId>, uid: PM.UserId)
    requires NoDuplicates(xs) && uid !in xs
    ensures NoDuplicates(AddCollaborator(xs, uid).value)
    ensures AddCollaborator(AddCollaborator(xs, uid).value, uid).None?
  {
    var ys := xs + [uid];
    forall i, j | 0 <= i < j < |ys|
      ensures ys[i] != ys[j]
    {
      if j == |xs| { assert ys[i] == xs[i]; }
    }
  }

  /** `POST /:projectId/collaborators`: validation, 404 for the project, the owner check,
   *  404 for an unknown e-mail, 400 for an existing collaborator, then one append and a save.
   *  `users` maps each known (normalised) e-mail to its user id. */
  method AddCollaboratorRoute(store: PM.ProjectStore, users: map<string, PM.UserId>, id: string, uid: PM.UserId,
                              email: string, emailOk: bool, now: nat) returns (r: Reply<Body>)
    modifies store
    ensures !emailOk ==> r == Reply(400, Failed(ValidationErrors(["email"])))
    ensures emailOk && id !in old(store.projects) ==> r == Fail(404, "Project not found")
    ensures emailOk && id in old(store.projects) && old(store.projects)[id].owner != uid ==> r.status == 403
    ensures emailOk && id in old(store.projects) && old(store.projects)[id].owner == uid && email !in users ==>
              r == Fail(404, "User not found")
    ensures emailOk && id in old(store.projects) && old(store.projects)[id].owner == uid && email in users
            && users[email] in old(store.projects)[id].collaborators ==>
              r == Fail(400, "User is already a collaborator")
    ensures r.status == 200 <==> emailOk && id in old(store.projects) && old(store.projects)[id].owner == uid
                                 && email in users && users[email] !in old(store.projects)[id].collaborators
    ensures r.status == 200 ==>
              var p := old(store.projects)[id];
              store.projects == old(store.projects)[id := p.(collaborators := p.collaborators + [users[email]],
                                                              updatedAt := now)]
    ensures r.status != 200 ==> store.projects == old(store.projects)
  {
    if !emailOk {
      return Reply(400, Failed(ValidationErrors(["email"])));
    }
    if id !in store.projects {
      return Fail(404, "Project not found");
    }
    var p := store.projects[id];
    if p.owner != uid {
      return Fail(403, "Only project owner can add collaborators");
    }
    if email !in users {
      return Fail(404, "User not found");
    }
    var added := AddCollaborator(p.collaborators, users[email]);
    if added.None? {
      return Fail(400, "User is already a collaborator");
    }
    p := p.(collaborators := added.value);
    store.Save(id, p, now);
    r := Reply(200, One(store.projects[id]));
  }
}
