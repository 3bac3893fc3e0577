/**
 * The gateway's durable `Project` document and its embedded files: fields, defaults, the
 * required and enumerated paths, and the store whose every save stamps `updatedAt`.
 */
module ProjectModel {
  import opened Wrappers
  import Text

  type UserId = string

  datatype Theme = Light | Dark

  datatype Settings = Settings(autoReview: bool, theme: Theme)

  datatype FileEntry = FileEntry(name: string, content: string, language: string, lastModified: nat,
                                 lastModifiedBy: Option<UserId>)

  datatype Project = Project(
    name: string,
    description: string,
    owner: UserId,
    collaborators: seq<UserId>,
    files: seq<FileEntry>,
    language: string,
    isPublic: bool,
    settings: Settings,
    createdAt: nat,
    updatedAt: nat)

  /** The outcome of casting and validating a document: the document, or the failing paths. */
  datatype Result<T> = Success(value: T) | Failure(paths: seq<string>)

  /** The `settings.theme` enumeration. */
  function ParseTheme(t: string): (r: Option<Theme>)
    ensures r.Some? <==> t == "light" || t == "dark"
    ensures r == Some(Light) <==> t == "light"
  {
    if t == "light" then Some(Light) else if t == "dark" then Some(Dark) else None
  }

  /** The fields handed to `new Project(...)`; `None` is a field left undefined. */
  datatype Draft = Draft(
    name: Option<string>,
    description: Option<string>,
    owner: Option<UserId>,
    collaborators: seq<UserId>,
    files: seq<FileEntry>,
    language: Option<string>,
    isPublic: Option<bool>,
    autoReview: Option<bool>,
    theme: Option<string>)

  /** The name after the schema's `trim` setter. */
  function StoredName(d: Draft): string {
    Text.Trim(d.name.GetOr(""))
  }

  /** The failing paths in schema order: a name that trims to nothing, a missing owner, a
   *  theme outside the enumeration. */
  function Invalid(d: Draft): (r: seq<string>)
    ensures r == [] <==> StoredName(d) != "" && d.owner.Some? && d.owner.value != ""
                         && (d.theme.None? || ParseTheme(d.theme.value).Some?)
    ensures "name" in r <==> StoredName(d) == ""
  {
    (if StoredName(d) == "" then ["name"] else [])
    + (if d.owner.Some? && d.owner.value != "" then [] else ["owner"])
    + (if d.theme.Some? && ParseTheme(d.theme.value).None? then ["settings.theme"] else [])
  }

  /** Casting a draft at time `now`: defaults fill undefined fields, validation refuses the
   *  rest. */
  function Build(d: Draft, now: nat): (r: Result<Project>)
    ensures r.Failure? <==> Invalid(d) != []
    ensures r.Failure? ==> r.paths == Invalid(d)
    ensures r.Success? ==> r.value.name == StoredName(d) != "" && r.value.owner == d.owner.value
    ensures r.Success? ==> r.value.description == d.description.GetOr("")
    ensures r.Success? ==> r.value.language == d.language.GetOr("javascript")
    ensures r.Success? ==> r.value.isPublic == d.isPublic.GetOr(false)
    ensures r.Success? ==> r.value.settings.autoReview == d.autoReview.GetOr(false)
    ensures r.Success? ==> r.value.settings.theme == (if d.theme.Some? then ParseTheme(d.theme.value).value else Dark)
    ensures r.Success? ==> r.value.collaborators == d.collaborators && r.value.files == d.files
    ensures r.Success? ==> r.value.createdAt == now && r.value.updatedAt == now
  {
    var invalid := Invalid(d);
    if invalid != [] then Failure(invalid)
    else
      var theme := if d.theme.Some? then ParseTheme(d.theme.value).value else Dark;
      Success(Project(StoredName(d), d.description.GetOr(""), d.owner.value, d.collaborators, d.files,
                      d.language.GetOr("javascript"), d.isPublic.GetOr(false),
                      Settings(d.autoReview.GetOr(false), theme), now, now))
  }

  /** A draft with only a name and an owner gets every documented default. */
  lemma ProjectDefaults(name: string, owner: UserId, now: nat)
    requires Text.Trim(name) != "" && owner != ""
    ensures Build(Draft(Some(name), None, Some(owner), [], [], None, None, None, None), now)
         == Success(Project(Text.Trim(name), "", owner, [], [], "javascript", false, Settings(false, Dark), now, now))
  {
  }

  /** The fields handed to a new file entry. */
  datatype FileDraft = FileDraft(name: Option<string>, content: Option<string>, language: Option<string>,
                                 lastModifiedBy: Option<UserId>)

  /** A file entry requires its name; content defaults to '' and language to 'javascript'. */
  function BuildFile(f: FileDraft, now: nat): (r: Result<FileEntry>)
    ensures r.Failure? <==> f.name.None? || f.name.value == ""
    ensures r.Success? ==> r.value == FileEntry(f.name.value, f.content.GetOr(""), f.language.GetOr("javascript"),
                                                now, f.lastModifiedBy)
  {
    if f.name.None? || f.name.value == "" then Failure(["name"])
    else Success(FileEntry(f.name.value, f.content.GetOr(""), f.language.GetOr("javascript"), now, f.lastModifiedBy))
  }

  /** The collection of project documents, keyed by document id. */
  class ProjectStore {
    var projects: map<string, Project>

    constructor ()
      ensures projects == map[]
    {
      projects := map[];
    }

    /** `save()`: the pre-save hook stamps `updatedAt` with the current time first. */
    method Save(id: string, p: Project, now: nat)
      modifies this
      ensures projects == old(projects)[id := p.(updatedAt := now)]
      ensures projects[id].updatedAt == now
    {
      projects := projects[id := p.(updatedAt := now)];
    }

    /** `findByIdAndUpdate`: an update query does not run the save hook. */
    method Replace(id: string, p: Project)
      modifies this
      ensures projects == old(projects)[id := p]
    {
      projects := projects[id := p];
    }

    /** `findByIdAndDelete(id)`. */
    method Delete(id: string)
      modifies this
      ensures projects == old(projects) - {id}
    {
      projects := projects - {id};
    }
  }
}
