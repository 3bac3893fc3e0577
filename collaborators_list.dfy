/**
 * The collaborators tab: one row per participant with avatar, online dot, role, a "(You)"
 * marker and an activity label.
 */
module CollaboratorsList {
  import opened Wrappers
  import Avatar
  import Roster

  datatype Activity = Typing | Reviewing | Active | Idle

  /** How recent the last activity must be for 'active', in milliseconds. */
  const ActiveWindowMs: int := 60000

  /** `getActivityStatus` at time `now`: typing, then reviewing, then recent activity. */
  function ActivityStatus(m: Roster.Member, now: int): (a: Activity)
    ensures a == Typing <==> m.isTyping
    ensures a == Reviewing <==> !m.isTyping && m.isReviewing
    ensures a == Active <==> !m.isTyping && !m.isReviewing && m.lastActivity.Some?
                             && now - m.lastActivity.value < ActiveWindowMs
  {
    if m.isTyping then Typing
    else if m.isReviewing then Reviewing
    else if m.lastActivity.Some? && now - m.lastActivity.value < ActiveWindowMs then Active
    else Idle
  }

  /** One collaborator as drawn. */
  datatype Row = Row(color: string, initial: string, displayName: string, online: bool, crown: bool,
                     roleLabel: string, isYou: bool, activity: Activity)

  function RowOf(m: Roster.Member, current: Option<string>, now: int): (r: Row)
    ensures r.color == Avatar.UserColor(m.id) && r.initial == Avatar.Initial(m.name)
    ensures r.online <==> m.isOnline != Some(false)
    ensures r.crown <==> m.role == Some("owner")
    ensures r.roleLabel == (if r.crown then "Session Owner" else "Collaborator")
    ensures r.isYou <==> current == Some(m.id)
    ensures r.displayName == (if m.name.Some? && m.name.value != "" then m.name.value else "Unknown User")
    ensures r.activity == ActivityStatus(m, now)
  {
    var owner := m.role == Some("owner");
    Row(Avatar.UserColor(m.id), Avatar.Initial(m.name),
        if m.name.Some? && m.name.value != "" then m.name.value else "Unknown User",
        m.isOnline != Some(false), owner, if owner then "Session Owner" else "Collaborator",
        current == Some(m.id), ActivityStatus(m, now))
  }

  /** The tab: the count and the rows; a missing or empty list shows the empty state. */
  datatype View = View(count: nat, rows: seq<Row>)

  function Render(collaborators: Option<seq<Roster.Member>>, current: Option<string>, now: int): (v: View)
    ensures collaborators.None? ==> v == View(0, [])
    ensures collaborators.Some? ==> v.count == |collaborators.value| == |v.rows|
    ensures collaborators.Some? ==> forall i :: 0 <= i < |v.rows| ==> v.rows[i] == RowOf(collaborators.value[i], current, now)
    ensures v.count == 0 <==> v.rows == []
  {
    match collaborators
    case None => View(0, [])
    case Some(cs) =>
      if |cs| == 0 then View(0, [])
      else View(|cs|, seq(|cs|, i requires 0 <= i < |cs| => RowOf(cs[i], current, now)))
  }
}
