/**
 * The profile page: the personal-information form with the registration rules for name and
 * e-mail, the preferences form with its starting values, and how a successful save rewrites
 * the signed-in user held by the page.
 */
module ProfilePage {
  import opened Wrappers
  import Json
  import Avatar
  import RegisterForm

  /** The signed-in user as the page holds it. `preferences` is whatever the stored user
   *  carries there (`None` when absent). */
  datatype User = User(name: Option<string>, email: Option<string>, role: Option<string>,
                       avatarUrl: Option<string>, preferences: Option<Json.Json>)

  /** The personal-information form's messages, name first. */
  function ProfileErrors(name: string, email: string): (r: seq<string>)
    ensures r == [] <==> |name| >= 2 && RegisterForm.EmailShape(email)
    ensures |r| <= 2
  {
    (match RegisterForm.NameError(name) case Some(m) => [m] case None => [])
    + (match RegisterForm.EmailError(email) case Some(m) => [m] case None => [])
  }

  /** `user?.preferences?.[key]`. */
  function Pref(u: Option<User>, key: string): Option<Json.Json> {
    if u.Some? && u.value.preferences.Some? then Json.Get(u.value.preferences.value, key) else None
  }

  /** The preference form's starting values: the theme through `|| 'light'`, so any falsy
   *  theme becomes 'light'; notifications through `?? true`, so only a missing or null value
   *  becomes true and a stored `false` is kept. */
  function PreferenceDefaults(u: Option<User>): (r: (Json.Json, Json.Json))
    ensures Json.TruthyOpt(Pref(u, "theme")) ==> r.0 == Pref(u, "theme").value
    ensures !Json.TruthyOpt(Pref(u, "theme")) ==> r.0 == Json.JStr("light")
    ensures Pref(u, "notifications").Some? && Pref(u, "notifications").value != Json.JNull ==>
              r.1 == Pref(u, "notifications").value
    ensures Pref(u, "notifications").None? || Pref(u, "notifications").value == Json.JNull ==> r.1 == Json.JBool(true)
  {
    var theme := Pref(u, "theme");
    var notifications := Pref(u, "notifications");
    (if Json.TruthyOpt(theme) then theme.value else Json.JStr("light"),
     if notifications.Some? && notifications.value != Json.JNull then notifications.value else Json.JBool(true))
  }

  /** `{ ...prev.preferences, ...data }`. */
  function MergedPreferences(prev: Option<Json.Json>, data: map<string, Json.Json>): (r: map<string, Json.Json>)
    ensures prev.None? ==> r == data
    ensures prev.Some? ==> r.Keys == Json.Spread(prev.value).Keys + data.Keys
    ensures forall k :: k in data ==> k in r && r[k] == data[k]
    ensures prev.Some? ==> forall k :: k in Json.Spread(prev.value) && k !in data ==> r[k] == Json.Spread(prev.value)[k]
  {
    Json.Merge(if prev.Some? then Json.Spread(prev.value) else map[], data)
  }

  /** The form's own values as the preferences request sends them. */
  function PreferenceData(theme: string, notifications: bool): map<string, Json.Json> {
    map["theme" := Json.JStr(theme), "notifications" := Json.JBool(notifications)]
  }

  /** What the avatar circle shows: the chosen or stored picture, else the initial. */
  datatype Face = Picture(url: string) | Letter(initial: string)

  function AvatarFace(preview: string, name: Option<string>): (f: Face)
    ensures f.Picture? <==> preview != ""
    ensures f.Letter? ==> f.initial == Avatar.Initial(name)
  {
    if preview != "" then Picture(preview) else Letter(Avatar.Initial(name))
  }

  /** The reply to the personal-information request: a failure, or success with the stored
   *  user when the server sends one and the new avatar address when it sends one. */
  datatype ProfileReply = Failed | Updated(user: Option<User>, avatarUrl: Option<string>)

  /** The page's state: the signed-in user, the avatar preview and the busy flag. */
  class Profile {
    var user: User
    var avatarPreview: string
    var isLoading: bool

    constructor (u: User)
      ensures user == u && !isLoading
      ensures avatarPreview == if u.avatarUrl.Some? then u.avatarUrl.value else ""
    {
      user := u;
      avatarPreview := if u.avatarUrl.Some? then u.avatarUrl.value else "";
      isLoading := false;
    }

    /** `handleAvatarChange`: a chosen file is previewed through its object URL. */
    method ChooseAvatar(chosen: bool, objectUrl: string)
      modifies this
      ensures avatarPreview == if chosen then objectUrl else old(avatarPreview)
      ensures user == old(user) && isLoading == old(isLoading)
    {
      if chosen {
        avatarPreview := objectUrl;
      }
    }

    /** `onProfileSubmit`, reached only when the form's rules pass: the stored user the server
     *  returns, or the old user with the typed name and e-mail and the new avatar address
     *  (the preview when the server sends none). */
    method SubmitProfile(name: string, email: string, reply: ProfileReply) returns (sent: bool)
      modifies this
      ensures sent <==> ProfileErrors(name, email) == []
      ensures !sent || reply.Failed? ==> user == old(user)
      ensures sent && reply.Updated? && reply.user.Some? ==> user == reply.user.value
      ensures sent && reply.Updated? && reply.user.None? ==>
                user == old(user).(name := Some(name), email := Some(email),
                                   avatarUrl := Some(if reply.avatarUrl.Some? && reply.avatarUrl.value != ""
                                                     then reply.avatarUrl.value else old(avatarPreview)))
      ensures sent ==> !isLoading
      ensures !sent ==> isLoading == old(isLoading)
      ensures avatarPreview == old(avatarPreview)
    {
      if ProfileErrors(name, email) != [] {
        return false;
      }
      sent := true;
      isLoading := true;
      if reply.Updated? {
        if reply.user.Some? {
          user := reply.user.value;
        } else {
          var url := reply.avatarUrl;
          var avatar := if url.Some? && url.value != "" then url.value else avatarPreview;
          user := user.(name := Some(name), email := Some(email), avatarUrl := Some(avatar));
        }
      }
      isLoading := false;
    }

    /** `onPrefsSubmit`: on success the form's values are merged over the stored preferences. */
    method SubmitPreferences(theme: string, notifications: bool, succeeded: bool)
      modifies this
      ensures succeeded ==>
                user == old(user).(preferences :=
                  Some(Json.JObj(MergedPreferences(old(user).preferences, PreferenceData(theme, notifications)))))
      ensures !succeeded ==> user == old(user)
      ensures !isLoading && avatarPreview == old(avatarPreview)
    {
      isLoading := true;
      if succeeded {
        var merged := MergedPreferences(user.preferences, PreferenceData(theme, notifications));
        user := user.(preferences := Some(Json.JObj(merged)));
      }
      isLoading := false;
    }
  }

  /** Saved preferences come back as the form's next starting values, except an empty theme,
   *  which `||` turns into 'light'; an explicit `false` for notifications survives. */
  lemma SavedPreferencesReload(u: User, theme: string, notifications: bool)
    ensures var saved := u.(preferences := Some(Json.JObj(MergedPreferences(u.preferences, PreferenceData(theme, notifications)))));
            PreferenceDefaults(Some(saved)) ==
              (if theme != "" then Json.JStr(theme) else Json.JStr("light"), Json.JBool(notifications))
  {
    var saved := Json.JObj(MergedPreferences(u.preferences, PreferenceData(theme, notifications)));
    assert Json.Get(saved, "theme") == Some(Json.JStr(theme));
    assert Json.Get(saved, "notifications") == Some(Json.JBool(notifications));
  }
}
