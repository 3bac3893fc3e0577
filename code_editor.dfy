/**
 * The editor page: its state, how each collaboration event rewrites that state, and the
 * review, comment and download actions.
 */
module CodeEditor {
  import opened Wrappers
  import Text
  import Json
  import Roster
  import CommentPanel

  const InitialCode := "// Welcome to the AI Code Review Platform\n// Start typing your code here...\n\n"

  datatype Tab = ReviewTab | CommentsTab | UsersTab

  /** What the page sends over the socket. */
  datatype Emit =
    | JoinSession(sessionId: string)
    | RequestAIReview(sessionId: string, code: string, language: string)
    | PostComment(sessionId: string, line: int, text: string)

  /** The downloaded file's name: 'js' is the extension of JavaScript, every other language
   *  name is used as its own extension. */
  function DownloadName(language: string): (r: string)
    ensures Text.StartsWith(r, "code.")
    ensures r[5..] == "js" <==> language == "javascript" || language == "js"
    ensures language != "javascript" ==> r[5..] == language
  {
    "code." + (if language == "javascript" then "js" else language)
  }

  /** The status bar's line count: one more than the number of line breaks. */
  function LineCount(code: string): (n: nat)
    ensures n == |Text.Lines(code)|
    ensures n == Text.Occurrences(code, '\n') + 1
  {
    Text.SplitCount(code, '\n');
    |Text.Lines(code)|
  }

  /** The comment kept on the page when there is no session: stamped with the clock, written
   *  by the signed-in user, identified by the clock's decimal rendering. */
  function LocalComment(line: int, text: string, user: CommentPanel.Author, now: nat): (c: CommentPanel.Comment)
    ensures c.author == user && c.line == Some(line) && c.text == text && c.timestamp == now
    ensures c.id == Text.NatToString(now)
  {
    CommentPanel.Comment(Text.NatToString(now), Some(line), text, user, now)
  }

  /** The editor page of a signed-in `user`. */
  class Editor {
    var code: string
    var language: string
    var collaborators: seq<Roster.Member>
    var comments: seq<CommentPanel.Comment>
    var review: Option<Json.Json>
    var isReviewing: bool
    var activeTab: Tab
    var sessionId: Option<string>
    const user: CommentPanel.Author

    constructor (user: CommentPanel.Author)
      ensures this.user == user
      ensures code == InitialCode && language == "javascript" && collaborators == [] && comments == []
      ensures review.None? && !isReviewing && activeTab == ReviewTab && sessionId.None?
    {
      this.user := user;
      code := InitialCode;
      language := "javascript";
      collaborators := [];
      comments := [];
      review := None;
      isReviewing := false;
      activeTab := ReviewTab;
      sessionId := None;
    }

    /** `sessionId && socket`: the page works in a live session. */
    predicate Live(hasSocket: bool)
      reads this
    {
      sessionId.Some? && sessionId.value != "" && hasSocket
    }

    /** The `?session=` parameter: a non-empty one becomes the session id, and is joined at
     *  once when the socket is up. */
    method OpenFromQuery(session: Option<string>, hasSocket: bool, connected: bool) returns (sent: Option<Emit>)
      modifies this
      ensures session.Some? && session.value != "" ==> sessionId == session
      ensures !(session.Some? && session.value != "") ==> sessionId == old(sessionId)
      ensures sent.Some? <==> session.Some? && session.value != "" && hasSocket && connected
      ensures sent.Some? ==> sent.value == JoinSession(session.value)
      ensures code == old(code) && language == old(language) && collaborators == old(collaborators)
      ensures comments == old(comments) && review == old(review) && isReviewing == old(isReviewing)
      ensures activeTab == old(activeTab)
    {
      sent := None;
      if session.Some? && session.value != "" {
        sessionId := session;
        if hasSocket && connected {
          sent := Some(JoinSession(session.value));
        }
      }
    }

    /** `sessionJoined`: code, language and collaborators are replaced wholesale. When this
     *  changes the language, the effect keyed on the language runs afterwards, which is
     *  `ChangeLanguage` with the draft kept for the new language: a saved draft then replaces
     *  the session's code in this editor. */
    method OnSessionJoined(newCode: string, newLanguage: string, participants: seq<Roster.Member>)
      modifies this
      ensures code == newCode && language == newLanguage && collaborators == participants
      ensures comments == old(comments) && review == old(review) && isReviewing == old(isReviewing)
      ensures activeTab == old(activeTab) && sessionId == old(sessionId)
    {
      code := newCode;
      language := newLanguage;
      collaborators := participants;
    }

    /** `codeChange` from another participant, and the editor's own change handler. */
    method OnCodeChange(newCode: string)
      modifies this
      ensures code == newCode
      ensures language == old(language) && collaborators == old(collaborators) && comments == old(comments)
      ensures review == old(review) && isReviewing == old(isReviewing) && activeTab == old(activeTab)
      ensures sessionId == old(sessionId)
    {
      code := newCode;
    }

    /** `userJoined`: appended, even when already listed. */
    method OnUserJoined(m: Roster.Member)
      modifies this
      ensures collaborators == old(collaborators) + [m]
      ensures code == old(code) && language == old(language) && comments == old(comments)
      ensures review == old(review) && isReviewing == old(isReviewing) && activeTab == old(activeTab)
      ensures sessionId == old(sessionId)
    {
      collaborators := collaborators + [m];
    }

    /** `userLeft`: every entry with that id goes, the others stay in order. */
    method OnUserLeft(id: string)
      modifies this
      ensures collaborators == Roster.WithoutId(old(collaborators), id)
      ensures forall m :: m in collaborators ==> m.id != id
      ensures code == old(code) && language == old(language) && comments == old(comments)
      ensures review == old(review) && isReviewing == old(isReviewing) && activeTab == old(activeTab)
      ensures sessionId == old(sessionId)
    {
      collaborators := Roster.WithoutId(collaborators, id);
    }

    /** `commentAdded`: appended. */
    method OnCommentAdded(c: CommentPanel.Comment)
      modifies this
      ensures comments == old(comments) + [c]
      ensures code == old(code) && language == old(language) && collaborators == old(collaborators)
      ensures review == old(review) && isReviewing == old(isReviewing) && activeTab == old(activeTab)
      ensures sessionId == old(sessionId)
    {
      comments := comments + [c];
    }

    /** `reviewStarted`. */
    method OnReviewStarted()
      modifies this
      ensures isReviewing
      ensures code == old(code) && language == old(language) && collaborators == old(collaborators)
      ensures comments == old(comments) && review == old(review) && activeTab == old(activeTab)
      ensures sessionId == old(sessionId)
    {
      isReviewing := true;
    }

    /** `reviewCompleted`: the result is shown on the review tab. */
    method OnReviewCompleted(result: Option<Json.Json>)
      modifies this
      ensures !isReviewing && review == result && activeTab == ReviewTab
      ensures code == old(code) && language == old(language) && collaborators == old(collaborators)
      ensures comments == old(comments) && sessionId == old(sessionId)
    {
      isReviewing := false;
      review := result;
      activeTab := ReviewTab;
    }

    /** A language switch loads the code last kept for that language, when there is one. */
    method ChangeLanguage(newLanguage: string, saved: Option<string>)
      modifies this
      ensures language == newLanguage && code == saved.GetOr(old(code))
      ensures collaborators == old(collaborators) && comments == old(comments) && review == old(review)
      ensures isReviewing == old(isReviewing) && activeTab == old(activeTab) && sessionId == old(sessionId)
    {
      language := newLanguage;
      if saved.Some? {
        code := saved.value;
      }
    }

    /** `handleRunReview`: blank code is refused; in a live session the request goes over the
     *  socket, otherwise the review service's answer (`None` when it throws) is shown. Either
     *  way the button is enabled again at the end. */
    method RunReview(hasSocket: bool, local: Option<Json.Json>) returns (sent: Option<Emit>)
      modifies this
      ensures Text.AllSpace(old(code)) ==>
                sent.None? && isReviewing == old(isReviewing) && review == old(review) && activeTab == old(activeTab)
      ensures !Text.AllSpace(old(code)) ==> !isReviewing
      ensures !Text.AllSpace(old(code)) && old(Live(hasSocket)) ==>
                sent == Some(RequestAIReview(old(sessionId).value, old(code), old(language)))
                && review == old(review) && activeTab == old(activeTab)
      ensures !Text.AllSpace(old(code)) && !old(Live(hasSocket)) ==>
                sent.None? && review == (if local.Some? then local else old(review))
                && activeTab == (if local.Some? then ReviewTab else old(activeTab))
      ensures code == old(code) && language == old(language) && collaborators == old(collaborators)
      ensures comments == old(comments) && sessionId == old(sessionId)
    {
      // `!code.trim()`: by Text.TrimEmptyIffAllSpace, the trimmed code is empty exactly when
      // every character is white space.
      if Text.AllSpace(code) {
        return None;
      }
      isReviewing := true;
      sent := None;
      if Live(hasSocket) {
        sent := Some(RequestAIReview(sessionId.value, code, language));
      } else if local.Some? {
        review := local;
        activeTab := ReviewTab;
      }
      isReviewing := false;
    }

    /** `addComment`: in a live session the comment goes over the socket; otherwise it is
     *  kept on the page. */
    method AddComment(line: int, text: string, hasSocket: bool, now: nat) returns (sent: Option<Emit>)
      modifies this
      ensures old(Live(hasSocket)) ==>
                sent == Some(PostComment(old(sessionId).value, line, text)) && comments == old(comments)
      ensures !old(Live(hasSocket)) ==> sent.None? && comments == old(comments) + [LocalComment(line, text, user, now)]
      ensures code == old(code) && language == old(language) && collaborators == old(collaborators)
      ensures review == old(review) && isReviewing == old(isReviewing) && activeTab == old(activeTab)
      ensures sessionId == old(sessionId)
    {
      if Live(hasSocket) {
        sent := Some(PostComment(sessionId.value, line, text));
      } else {
        sent := None;
        comments := comments + [LocalComment(line, text, user, now)];
      }
    }
  }
}
