/**
 * The review tab: what it shows for a review in flight, a missing review, a reply of the
 * wrong shape and a proper review, and how each issue of a review is drawn.
 */
module ReviewPanel {
  import opened Wrappers
  import Json
  import Text
  import AiService

  /** The four screens the panel can show. */
  datatype Screen = Loading | NoReview | Malformed | Normal(review: AiService.Review)

  /** A review object carries an `overall_score` key. */
  predicate Shaped(review: Json.Json) {
    Json.Get(review, "overall_score").Some?
  }

  /** The panel's checks in order: loading, then a falsy review, then a value that is not an
   *  object with `overall_score`; anything else is read defensively, field by field. */
  function Show(isLoading: bool, review: Option<Json.Json>): (s: Screen)
    ensures isLoading <==> s == Loading
    ensures s == NoReview <==> !isLoading && !Json.TruthyOpt(review)
    ensures s == Malformed <==> !isLoading && Json.TruthyOpt(review) && !Shaped(review.value)
    ensures s.Normal? <==> !isLoading && Json.TruthyOpt(review) && Shaped(review.value)
    ensures s.Normal? ==> s.review == AiService.Normalize(review.value)
  {
    if isLoading then Loading
    else if !Json.TruthyOpt(review) then NoReview
    else if !Shaped(review.value) then Malformed
    else Normal(AiService.Normalize(review.value))
  }

  /** Every review the AI service sends is shown as it was sent. */
  lemma ServiceReviewShown(r: AiService.Review)
    ensures Show(false, Some(AiService.ToJson(r))) == Normal(r)
  {
    AiService.NormalizeRoundTrip(r, AiService.ToJson(r));
  }

  // ---------------------------------------------------------------- colours

  const Green := "#10b981"
  const Amber := "#f59e0b"
  const Red := "#ef4444"
  const Blue := "#3b82f6"

  /** The score's colour band. */
  function ScoreColor(score: real): (c: string)
    ensures c == Green <==> score >= 8.0
    ensures c == Amber <==> 6.0 <= score < 8.0
    ensures c == Red <==> score < 6.0
  {
    if score >= 8.0 then Green else if score >= 6.0 then Amber else Red
  }

  // ---------------------------------------------------------------- issues

  datatype Tone = ErrorTone | WarningTone | InfoTone

  /** The border and icon of an issue: `issue.severity || 'info'` compared with 'error' and
   *  'warning'; anything else is drawn as information. */
  function ToneOf(issue: Json.Json): (t: Tone)
    ensures t == ErrorTone <==> Json.Get(issue, "severity") == Some(Json.JStr("error"))
    ensures t == WarningTone <==> Json.Get(issue, "severity") == Some(Json.JStr("warning"))
  {
    match Json.Get(issue, "severity")
    case Some(JStr(s)) => if s == "error" then ErrorTone else if s == "warning" then WarningTone else InfoTone
    case _ => InfoTone
  }

  function ToneColor(t: Tone): string {
    match t
    case ErrorTone => Red
    case WarningTone => Amber
    case InfoTone => Blue
  }

  /** `(issue.type || 'general').replace('_', ' ')`: `None` when the type is truthy but not a
   *  string, where the call throws and the panel fails to render. */
  function Label(issue: Json.Json): (r: Option<string>)
    ensures r.None? <==> Json.TruthyOpt(Json.Get(issue, "type")) && !Json.Get(issue, "type").value.JStr?
    ensures !Json.TruthyOpt(Json.Get(issue, "type")) ==> r == Some("general")
    ensures (Json.TruthyOpt(Json.Get(issue, "type")) && Json.Get(issue, "type").value.JStr?) ==>
              var t := Json.Get(issue, "type").value.s;
              && r.Some? && |r.value| == |t|
              && ('_' !in t ==> r.value == t)
              && ('_' in t ==> var k := Text.FirstIndex(t, '_').value;
                               r.value == t[..k] + " " + t[k + 1..])
  {
    if !Json.TruthyOpt(Json.Get(issue, "type")) then
      assert Text.FirstIndex("general", '_').None?;
      Some("general")
    else match Json.Get(issue, "type").value
      case JStr(t) => Some(Text.ReplaceFirst(t, '_', ' '))
      case _ => None
  }

  /** One issue as drawn: its tone, caption, line badge, message and suggestion. */
  datatype IssueRow = IssueRow(tone: Tone, caption: Option<string>, line: Option<Json.Json>, message: Json.Json,
                               suggestion: Option<Json.Json>)

  /** The line badge shows for any `line` that is not null or undefined, 0 included; the
   *  message falls back to ''; the suggestion shows only when truthy. */
  function IssueRowOf(issue: Json.Json): (r: IssueRow)
    ensures r.line.Some? <==> Json.Get(issue, "line").Some? && Json.Get(issue, "line").value != Json.JNull
    ensures r.line.Some? ==> r.line == Json.Get(issue, "line")
    ensures Json.TruthyOpt(Json.Get(issue, "message")) ==> r.message == Json.Get(issue, "message").value
    ensures !Json.TruthyOpt(Json.Get(issue, "message")) ==> r.message == Json.JStr("")
    ensures r.suggestion.Some? <==> Json.TruthyOpt(Json.Get(issue, "suggestion"))
    ensures r.tone == ToneOf(issue) && r.caption == Label(issue)
  {
    var line := Json.Get(issue, "line");
    var message := Json.Get(issue, "message");
    var suggestion := Json.Get(issue, "suggestion");
    IssueRow(ToneOf(issue), Label(issue),
             if line.Some? && line.value != Json.JNull then line else None,
             if Json.TruthyOpt(message) then message.value else Json.JStr(""),
             if Json.TruthyOpt(suggestion) then suggestion else None)
  }
}
