/**
 * The list of people present in a live session as the front end keeps it: the editor's
 * collaborators and the socket context's online users are both updated by appending on
 * `userJoined` and by removing every entry with the departing id on `userLeft`.
 */
module Roster {
  import opened Wrappers

  /** A participant as the collaboration service announces it. `None` is a field the payload
   *  leaves out; `lastActivity` is the time it denotes, in milliseconds. */
  datatype Member = Member(id: string, name: Option<string>, role: Option<string>, isTyping: bool,
                           isReviewing: bool, lastActivity: Option<int>, isOnline: Option<bool>)

  /** `xs.filter(u => u.id !== id)`. */
  function WithoutId(xs: seq<Member>, id: string): (r: seq<Member>)
    ensures |r| <= |xs|
    ensures forall m :: m in r <==> m in xs && m.id != id
  {
    if |xs| == 0 then []
    else
      assert xs == [xs[0]] + xs[1..];
      if xs[0].id == id then WithoutId(xs[1..], id) else [xs[0]] + WithoutId(xs[1..], id)
  }

  /** Removal keeps the survivors in their order: it works piece by piece. */
  lemma {:induction false} WithoutIdAppend(a: seq<Member>, b: seq<Member>, id: string)
    ensures WithoutId(a + b, id) == WithoutId(a, id) + WithoutId(b, id)
  {
    if |a| == 0 {
      assert a + b == b;
    } else {
      assert (a + b)[0] == a[0];
      assert (a + b)[1..] == a[1..] + b;
      WithoutIdAppend(a[1..], b, id);
    }
  }

  /** Removal drops every copy carrying the id and keeps every other entry as often as it
   *  occurred. */
  lemma {:induction false} WithoutIdCounts(xs: seq<Member>, id: string, m: Member)
    ensures multiset(WithoutId(xs, id))[m] == if m.id == id then 0 else multiset(xs)[m]
  {
    if |xs| > 0 {
      assert xs == [xs[0]] + xs[1..];
      WithoutIdCounts(xs[1..], id, m);
    }
  }

  /** A join followed by the same user's leave leaves no trace of that user, however many
   *  times they had joined before. */
  lemma JoinThenLeave(xs: seq<Member>, m: Member)
    ensures WithoutId(xs + [m], m.id) == WithoutId(xs, m.id)
    ensures forall x :: x in WithoutId(xs + [m], m.id) ==> x.id != m.id
  {
    WithoutIdAppend(xs, [m], m.id);
    assert WithoutId([m], m.id) == [];
  }
}
