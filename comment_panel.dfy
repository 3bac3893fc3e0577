/**
 * The comment panel beside the editor: the comments newest first, each with its author's
 * avatar and an excerpt of the line it refers to, and the form that posts a new comment.
 */
module CommentPanel {
  import opened Wrappers
  import Text
  import Avatar

  datatype Author = Author(id: string, name: Option<string>)

  /** A comment as the panel receives it; `timestamp` is the time it denotes, in milliseconds. */
  datatype Comment = Comment(id: string, line: Option<int>, text: string, author: Author, timestamp: nat)

  // ---------------------------------------------------------------- newest first

  predicate NewestFirst(cs: seq<Comment>) {
    forall i, j :: 0 <= i < j < |cs| ==> cs[i].timestamp >= cs[j].timestamp
  }

  /** Places `c` ahead of every comment that is not newer, behind the newer ones. */
  function Insert(c: Comment, cs: seq<Comment>): (r: seq<Comment>)
    ensures multiset(r) == multiset(cs) + multiset{c}
  {
    if |cs| == 0 || c.timestamp >= cs[0].timestamp then [c] + cs
    else
      assert cs == [cs[0]] + cs[1..];
      [cs[0]] + Insert(c, cs[1..])
  }

  lemma {:induction false} InsertSorted(c: Comment, cs: seq<Comment>)
    requires NewestFirst(cs)
    ensures NewestFirst(Insert(c, cs))
  {
    if |cs| > 0 && c.timestamp < cs[0].timestamp {
      var rest := Insert(c, cs[1..]);
      InsertSorted(c, cs[1..]);
      // The head of `rest` is `c` or `cs[1]`, both no newer than `cs[0]`.
      assert rest[0].timestamp <= cs[0].timestamp by {
        if |cs| > 1 && c.timestamp < cs[1].timestamp {
          assert rest[0] == cs[1];
        } else {
          assert rest[0] == c;
        }
      }
      var r := [cs[0]] + rest;
      forall i, j | 0 <= i < j < |r|
        ensures r[i].timestamp >= r[j].timestamp
      {
        if i == 0 {
          assert r[j] == rest[j - 1];
          if j > 1 {
            assert rest[0].timestamp >= rest[j - 1].timestamp;
          }
        } else {
          assert r[i] == rest[i - 1] && r[j] == rest[j - 1];
        }
      }
    }
  }

  /** `[...comments].sort((a, b) => b.timestamp - a.timestamp)` on a copy: the stable sort
   *  that puts newer comments first. */
  function SortNewestFirst(cs: seq<Comment>): (r: seq<Comment>)
    ensures NewestFirst(r)
    ensures multiset(r) == multiset(cs)
  {
    if |cs| == 0 then []
    else
      assert cs == [cs[0]] + cs[1..];
      InsertSorted(cs[0], SortNewestFirst(cs[1..]));
      Insert(cs[0], SortNewestFirst(cs[1..]))
  }

  /** The comments posted at time `t`, in their order. */
  function At(cs: seq<Comment>, t: nat): seq<Comment> {
    if |cs| == 0 then [] else (if cs[0].timestamp == t then [cs[0]] else []) + At(cs[1..], t)
  }

  lemma {:induction false} InsertAt(c: Comment, cs: seq<Comment>, t: nat)
    ensures At(Insert(c, cs), t) == (if c.timestamp == t then [c] else []) + At(cs, t)
  {
    if |cs| == 0 || c.timestamp >= cs[0].timestamp {
      assert ([c] + cs)[1..] == cs;
    } else {
      var r := [cs[0]] + Insert(c, cs[1..]);
      assert r[1..] == Insert(c, cs[1..]);
      InsertAt(c, cs[1..], t);
    }
  }

  /** The sort is stable: comments with the same timestamp keep their relative order. */
  lemma {:induction false} SortKeepsTies(cs: seq<Comment>, t: nat)
    ensures At(SortNewestFirst(cs), t) == At(cs, t)
  {
    if |cs| > 0 {
      SortKeepsTies(cs[1..], t);
      InsertAt(cs[0], SortNewestFirst(cs[1..]), t);
    }
  }

  // ---------------------------------------------------------------- one comment

  /** What `{comment.line && ...}` renders: nothing for a missing line, the number 0 itself
   *  for line 0, otherwise the line number with up to 50 characters of that line and '...'
   *  when the line is longer. A line outside the code shows no excerpt. */
  datatype LineRef = Hidden | Zero | Excerpt(line: int, text: string, ellipsis: bool)

  function LineReference(line: Option<int>, codeLines: seq<string>): (r: LineRef)
    ensures r.Hidden? <==> line.None?
    ensures r.Zero? <==> line == Some(0)
    ensures r.Excerpt? ==> r.line == line.value
    ensures r.Excerpt? && 1 <= r.line <= |codeLines| ==>
              var full := codeLines[r.line - 1];
              && Text.StartsWith(full, r.text)
              && |r.text| == (if |full| < 50 then |full| else 50)
              && (r.ellipsis <==> |r.text| < |full|)
    ensures r.Excerpt? && !(1 <= r.line <= |codeLines|) ==> r.text == "" && !r.ellipsis
  {
    match line
    case None => Hidden
    case Some(n) =>
      if n == 0 then Zero
      else if 1 <= n <= |codeLines| then
        var full := codeLines[n - 1];
        Excerpt(n, Text.Take(full, 50), |full| > 50)
      else Excerpt(n, "", false)
  }

  /** One comment as drawn. */
  datatype Row = Row(color: string, initial: string, authorName: Option<string>, lineRef: LineRef,
                     text: string, ownActions: bool)

  function RowOf(c: Comment, codeLines: seq<string>, current: Option<string>): (r: Row)
    ensures r.color == Avatar.UserColor(c.author.id) && r.initial == Avatar.Initial(c.author.name)
    ensures r.ownActions <==> current == Some(c.author.id)
    ensures r.lineRef == LineReference(c.line, codeLines) && r.text == c.text
  {
    Row(Avatar.UserColor(c.author.id), Avatar.Initial(c.author.name), c.author.name,
        LineReference(c.line, codeLines), c.text, current == Some(c.author.id))
  }

  /** The panel: the count badge and the rows newest first. */
  datatype View = View(count: nat, rows: seq<Row>)

  function Render(comments: seq<Comment>, code: string, current: Option<string>): (v: View)
    ensures v.count == |comments| && |v.rows| == |comments|
    ensures forall i :: 0 <= i < |v.rows| ==>
              v.rows[i] == RowOf(SortNewestFirst(comments)[i], Text.Lines(code), current)
  {
    var sorted := SortNewestFirst(comments);
    assert |sorted| == |multiset(sorted)| == |comments|;
    View(|comments|, seq(|sorted|, i requires 0 <= i < |sorted| => RowOf(sorted[i], Text.Lines(code), current)))
  }

  /** The line selector: one option per '\n'-separated line, numbered from 1. */
  function LineOptions(code: string): (r: seq<int>)
    ensures |r| == Text.Occurrences(code, '\n') + 1
    ensures forall v :: v in r <==> 1 <= v <= |Text.Lines(code)|
    ensures forall i :: 0 <= i < |r| ==> r[i] == i + 1
  {
    Text.SplitCount(code, '\n');
    var n := |Text.Lines(code)|;
    var r := seq(n, i requires 0 <= i < n => i + 1);
    forall v | 1 <= v <= n
      ensures v in r
    {
      assert r[v - 1] == v;
    }
    r
  }

  // ---------------------------------------------------------------- the form

  /** The new-comment form: its text, the chosen line and the posting flag. */
  class CommentForm {
    var text: string
    var selectedLine: int
    var submitting: bool

    constructor ()
      ensures text == "" && selectedLine == 1 && !submitting
    {
      text := "";
      selectedLine := 1;
      submitting := false;
    }

    method Edit(t: string)
      modifies this
      ensures text == t && selectedLine == old(selectedLine) && submitting == old(submitting)
    {
      text := t;
    }

    method SelectLine(v: int)
      modifies this
      ensures selectedLine == v && text == old(text) && submitting == old(submitting)
    {
      selectedLine := v;
    }

    /** `handleSubmit`: blank text sends nothing; otherwise the chosen line and the trimmed
     *  text go out, and a post that `succeeded` clears the form back to line 1. */
    method Submit(succeeded: bool) returns (sent: Option<(int, string)>)
      modifies this
      ensures Text.Trim(old(text)) == "" ==>
                sent.None? && text == old(text) && selectedLine == old(selectedLine) && submitting == old(submitting)
      ensures Text.Trim(old(text)) != "" ==> sent == Some((old(selectedLine), Text.Trim(old(text)))) && !submitting
      ensures Text.Trim(old(text)) != "" && succeeded ==> text == "" && selectedLine == 1
      ensures Text.Trim(old(text)) != "" && !succeeded ==> text == old(text) && selectedLine == old(selectedLine)
    {
      var trimmed := Text.Trim(text);
      if trimmed == "" {
        return None;
      }
      submitting := true;
      sent := Some((selectedLine, trimmed));
      if succeeded {
        text := "";
        selectedLine := 1;
      }
      submitting := false;
    }

    /** The Cancel button. */
    method Cancel()
      modifies this
      ensures text == "" && selectedLine == 1 && submitting == old(submitting)
    {
      text := "";
      selectedLine := 1;
    }
  }
}
