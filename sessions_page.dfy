/**
 * The sessions page: the search over the listed sessions, joining a session by its id, and
 * the create form.
 */
module SessionsPage {
  import opened Wrappers
  import Text

  /** A listed session, as far as the page reads it. */
  datatype Summary = Summary(id: string, name: string, description: string)

  /** The search test: the lower-cased name or description contains the lower-cased term. */
  predicate Matches(s: Summary, term: string) {
    Text.Contains(Text.Lower(s.name), Text.Lower(term)) || Text.Contains(Text.Lower(s.description), Text.Lower(term))
  }

  /** `sessions.filter(...)`. */
  function Keep(xs: seq<Summary>, term: string): (r: seq<Summary>)
    ensures |r| <= |xs|
    ensures forall s :: s in r <==> s in xs && Matches(s, term)
  {
    if |xs| == 0 then []
    else
      assert xs == [xs[0]] + xs[1..];
      (if Matches(xs[0], term) then [xs[0]] else []) + Keep(xs[1..], term)
  }

  /** `filteredSessions`: missing data gives the empty list. */
  function Filtered(sessions: Option<seq<Summary>>, term: string): (r: seq<Summary>)
    ensures sessions.None? ==> r == []
    ensures sessions.Some? ==> r == Keep(sessions.value, term)
  {
    if sessions.None? then [] else Keep(sessions.value, term)
  }

  /** `r` lists some of the entries of `xs`, in their order in `xs`. */
  predicate Subsequence(r: seq<Summary>, xs: seq<Summary>)
    decreases |xs|
  {
    if |r| == 0 then true
    else if |xs| == 0 then false
    else if r[0] == xs[0] then Subsequence(r[1..], xs[1..])
    else Subsequence(r, xs[1..])
  }

  /** The search keeps the sessions' order. */
  lemma {:induction false} KeepIsSubsequence(xs: seq<Summary>, term: string)
    ensures Subsequence(Keep(xs, term), xs)
  {
    if |xs| > 0 {
      KeepIsSubsequence(xs[1..], term);
      var r := Keep(xs, term);
      if Matches(xs[0], term) {
        assert r[0] == xs[0] && r[1..] == Keep(xs[1..], term);
      } else {
        assert r == Keep(xs[1..], term);
        SkipHead(r, xs);
      }
    }
  }

  /** An entry in front does not spoil a subsequence. */
  lemma SkipHead(r: seq<Summary>, xs: seq<Summary>)
    requires |xs| > 0 && Subsequence(r, xs[1..])
    ensures Subsequence(r, xs)
    decreases |xs|, 0
  {
    if |r| > 0 && r[0] == xs[0] {
      SubsequenceTail(r, xs[1..]);
    }
  }

  /** Dropping the first entry of a subsequence leaves a subsequence. */
  lemma SubsequenceTail(r: seq<Summary>, ys: seq<Summary>)
    requires |r| > 0 && Subsequence(r, ys)
    ensures Subsequence(r[1..], ys)
    decreases |ys|, 1
  {
    if r[0] != ys[0] {
      SubsequenceTail(r, ys[1..]);
    }
    SkipHead(r[1..], ys);
  }

  /** An empty search term keeps every session. */
  lemma {:induction false} EmptyTermKeepsAll(xs: seq<Summary>)
    ensures Keep(xs, "") == xs
  {
    if |xs| > 0 {
      EmptyTermKeepsAll(xs[1..]);
      assert Text.Lower("") == "";
      assert Text.OccursAt(Text.Lower(xs[0].name), "", 0);
      assert xs == [xs[0]] + xs[1..];
    }
  }

  // ---------------------------------------------------------------- the page

  /** The create form's fields. */
  datatype CreateForm = CreateForm(name: string, description: string, language: string, isPublic: bool)

  const BlankForm := CreateForm("", "", "javascript", false)

  /** The page's own state: which dialog is open, the typed session id, the create form, and
   *  where the page last navigated. */
  class Page {
    var showCreateModal: bool
    var showJoinModal: bool
    var sessionId: string
    var form: CreateForm
    var location: Option<string>

    constructor ()
      ensures !showCreateModal && !showJoinModal && sessionId == "" && form == BlankForm && location.None?
    {
      showCreateModal := false;
      showJoinModal := false;
      sessionId := "";
      form := BlankForm;
      location := None;
    }

    /** `handleJoinById`: a blank id sends nothing; otherwise the trimmed id is sent, and a
     *  join that `succeeded` closes the dialog, clears the field and opens the editor. */
    method JoinById(succeeded: bool) returns (request: Option<string>)
      modifies this
      ensures Text.Trim(old(sessionId)) == "" ==> request.None?
      ensures Text.Trim(old(sessionId)) != "" ==> request == Some(Text.Trim(old(sessionId)))
      ensures request.Some? && succeeded ==>
                !showJoinModal && sessionId == "" && location == Some("/editor?session=" + request.value)
      ensures request.None? || !succeeded ==>
                showJoinModal == old(showJoinModal) && sessionId == old(sessionId) && location == old(location)
      ensures showCreateModal == old(showCreateModal) && form == old(form)
    {
      var trimmed := Text.Trim(sessionId);
      if trimmed == "" {
        return None;
      }
      request := Some(trimmed);
      if succeeded {
        showJoinModal := false;
        sessionId := "";
        location := Some("/editor?session=" + trimmed);
      }
    }

    /** `handleJoinSession` from a session card: the id is used as listed. */
    method JoinListed(id: string, succeeded: bool)
      modifies this
      ensures location == if succeeded then Some("/editor?session=" + id) else old(location)
      ensures showCreateModal == old(showCreateModal) && showJoinModal == old(showJoinModal)
      ensures sessionId == old(sessionId) && form == old(form)
    {
      if succeeded {
        location := Some("/editor?session=" + id);
      }
    }

    /** The create mutation's success: the dialog closes, the form is blank again and the
     *  editor opens on the new session. */
    method CreateSucceeded(newId: string)
      modifies this
      ensures !showCreateModal && form == BlankForm && location == Some("/editor?session=" + newId)
      ensures showJoinModal == old(showJoinModal) && sessionId == old(sessionId)
    {
      showCreateModal := false;
      form := BlankForm;
      location := Some("/editor?session=" + newId);
    }
  }
}
