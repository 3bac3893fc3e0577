/**
 * A JavaScript `Map` with string keys as an association list: keys are unique, iteration follows first
 * insertion, and `set` on a present key replaces its value in place.
 */
module OrderedMap {

  function Keys<V>(m: seq<(string, V)>): (r: seq<string>)
    ensures |r| == |m|
    ensures forall i :: 0 <= i < |m| ==> r[i] == m[i].0
  {
    if |m| == 0 then [] else [m[0].0] + Keys(m[1..])
  }

  /** `Array.from(m.values())`. */
  function Values<V>(m: seq<(string, V)>): (r: seq<V>)
    ensures |r| == |m|
    ensures forall i :: 0 <= i < |m| ==> r[i] == m[i].1
  {
    if |m| == 0 then [] else [m[0].1] + Values(m[1..])
  }

  predicate DistinctKeys<V>(m: seq<(string, V)>) {
    forall i, j :: 0 <= i < j < |m| ==> m[i].0 != m[j].0
  }

  /** `m.set(k, v)`: replaces the value of a present key where it stands, appends a new key. */
  function Put<V>(m: seq<(string, V)>, k: string, v: V): (r: seq<(string, V)>)
    ensures Keys(r) == if k in Keys(m) then Keys(m) else Keys(m) + [k]
    ensures forall i :: 0 <= i < |m| && m[i].0 != k ==> r[i] == m[i]
    ensures (k, v) in r
  {
    if |m| == 0 then [(k, v)]
    else if m[0].0 == k then
      KeysCons((k, v), m[1..]);
      KeysCons(m[0], m[1..]);
      assert m == [m[0]] + m[1..];
      [(k, v)] + m[1..]
    else
      var rest := Put(m[1..], k, v);
      PutBehind(m[0], m[1..], k, v, rest);
      assert m == [m[0]] + m[1..];
      [m[0]] + rest
  }

  /** The keys of an entry followed by a map. */
  lemma KeysCons<V>(e: (string, V), m: seq<(string, V)>)
    ensures Keys([e] + m) == [e.0] + Keys(m)
  {
  }

  /** `set` behind a first entry under another key keeps that entry in front. */
  lemma PutBehind<V>(e: (string, V), m: seq<(string, V)>, k: string, v: V, rest: seq<(string, V)>)
    requires e.0 != k
    requires Keys(rest) == if k in Keys(m) then Keys(m) else Keys(m) + [k]
    requires forall i :: 0 <= i < |m| && m[i].0 != k ==> rest[i] == m[i]
    requires (k, v) in rest
    ensures Keys([e] + rest) == if k in Keys([e] + m) then Keys([e] + m) else Keys([e] + m) + [k]
    ensures forall i :: 0 <= i < |[e] + m| && ([e] + m)[i].0 != k ==> ([e] + rest)[i] == ([e] + m)[i]
    ensures (k, v) in [e] + rest
  {
    PutBehindKeys(e, m, k, Keys(rest));
    KeysCons(e, rest);
    assert ([e] + rest)[1..] == rest;
  }

  lemma PutBehindKeys<V>(e: (string, V), m: seq<(string, V)>, k: string, rest: seq<string>)
    requires e.0 != k
    requires rest == if k in Keys(m) then Keys(m) else Keys(m) + [k]
    ensures [e.0] + rest == if k in Keys([e] + m) then Keys([e] + m) else Keys([e] + m) + [k]
  {
    KeysCons(e, m);
    assert k in Keys([e] + m) <==> k in Keys(m);
  }

  /** After `set`, the key is present, the size grew by one exactly when it was new, and with
   *  unique keys before there are unique keys after. */
  lemma PutFacts<V>(m: seq<(string, V)>, k: string, v: V)
    ensures k in Keys(Put(m, k, v))
    ensures |Put(m, k, v)| == if k in Keys(m) then |m| else |m| + 1
    ensures DistinctKeys(m) ==> DistinctKeys(Put(m, k, v))
  {
    var r := Put(m, k, v);
    assert |Keys(r)| == |r|;
    if k !in Keys(m) {
      assert Keys(r)[|m|] == k;
    }
  }

  /** `m.delete(k)`: drops the entry of `k` and keeps every other entry, in order. */
  function Remove<V(==,!new)>(m: seq<(string, V)>, k: string): (r: seq<(string, V)>)
    ensures |r| <= |m|
    ensures forall e :: e in r <==> e in m && e.0 != k
  {
    if |m| == 0 then []
    else
      var rest := Remove(m[1..], k);
      assert forall i :: 0 < i < |m| ==> m[i] == m[1..][i - 1];
      if m[0].0 == k then rest
      else
        var r := [m[0]] + rest;
        assert forall i :: 0 < i < |r| ==> r[i] == rest[i - 1];
        r
  }

  /** With unique keys before `delete` there are unique keys after it. */
  lemma {:induction false} RemoveDistinct<V(!new)>(m: seq<(string, V)>, k: string)
    requires DistinctKeys(m)
    ensures DistinctKeys(Remove(m, k))
  {
    if |m| > 0 {
      var rest := Remove(m[1..], k);
      RemoveDistinct(m[1..], k);
      if m[0].0 != k {
        var r := [m[0]] + rest;
        forall i, j | 0 <= i < j < |r| ensures r[i].0 != r[j].0 {
          if i == 0 {
            assert r[j] == rest[j - 1] && rest[j - 1] in m[1..];
          }
        }
      }
    }
  }

  /** After `delete`, the key is gone and every other key is still present. */
  lemma RemoveKeys<V(!new)>(m: seq<(string, V)>, k: string)
    ensures forall x :: x in Keys(Remove(m, k)) <==> x != k && x in Keys(m)
  {
    var r := Remove(m, k);
    forall x ensures x in Keys(r) <==> x != k && x in Keys(m) {
      if x in Keys(r) {
        var i :| 0 <= i < |r| && Keys(r)[i] == x;
        assert r[i] in r;
        var j :| 0 <= j < |m| && m[j] == r[i];
        assert Keys(m)[j] == x;
      }
      if x != k && x in Keys(m) {
        var j :| 0 <= j < |m| && Keys(m)[j] == x;
        assert m[j] in m;
        var i :| 0 <= i < |r| && r[i] == m[j];
        assert Keys(r)[i] == x;
      }
    }
  }

  /** With unique keys, `delete` shrinks the map by one exactly when the key was present. */
  lemma {:induction false} RemoveSize<V(!new)>(m: seq<(string, V)>, k: string)
    requires DistinctKeys(m)
    ensures |Remove(m, k)| == if k in Keys(m) then |m| - 1 else |m|
  {
    if |m| > 0 {
      RemoveSize(m[1..], k);
      assert Keys(m) == [m[0].0] + Keys(m[1..]);
      if m[0].0 == k {
        assert k !in Keys(m[1..]);
      }
    }
  }

  /** `delete` on a map that starts with entry `e`. */
  lemma RemoveCons<V(!new)>(e: (string, V), m: seq<(string, V)>, k: string)
    ensures Remove([e] + m, k) == if e.0 == k then Remove(m, k) else [e] + Remove(m, k)
  {
    assert ([e] + m)[0] == e && ([e] + m)[1..] == m;
  }

  /** `delete` works entry by entry: on a concatenation it deletes from each part and keeps
   *  the parts in their order. */
  lemma {:induction false} RemoveAppend<V(!new)>(a: seq<(string, V)>, b: seq<(string, V)>, k: string)
    ensures Remove(a + b, k) == Remove(a, k) + Remove(b, k)
  {
    if |a| > 0 {
      var e, t := a[0], a[1..];
      assert a == [e] + t;
      assert a + b == [e] + (t + b);
      RemoveCons(e, t + b, k);
      RemoveCons(e, t, k);
      RemoveAppend(t, b, k);
      if e.0 != k {
        assert [e] + (Remove(t, k) + Remove(b, k)) == ([e] + Remove(t, k)) + Remove(b, k);
      }
    } else {
      assert a + b == b;
    }
  }

  /** Deleting a key that is absent changes nothing. */
  lemma {:induction false} RemoveAbsent<V(!new)>(m: seq<(string, V)>, k: string)
    requires forall i :: 0 <= i < |m| ==> m[i].0 != k
    ensures Remove(m, k) == m
  {
    if |m| > 0 {
      RemoveAbsent(m[1..], k);
      calc {
        Remove(m, k);
        [m[0]] + Remove(m[1..], k);
        [m[0]] + m[1..];
        m;
      }
    }
  }

  /** Deleting a key that appears once leaves the entries before it followed by the entries
   *  after it, each in its insertion order. */
  lemma {:induction false} RemoveKeepsOrder<V(!new)>(before: seq<(string, V)>, v: V, after: seq<(string, V)>, k: string)
    requires forall i :: 0 <= i < |before| ==> before[i].0 != k
    requires forall i :: 0 <= i < |after| ==> after[i].0 != k
    ensures Remove(before + [(k, v)] + after, k) == before + after
  {
    var m := before + [(k, v)] + after;
    if |before| == 0 {
      assert m[0] == (k, v) && m[1..] == after;
      calc {
        Remove(m, k);
        Remove(after, k);
        { RemoveAbsent(after, k); }
        after;
        before + after;
      }
    } else {
      assert m[0] == before[0] && m[1..] == before[1..] + [(k, v)] + after;
      calc {
        Remove(m, k);
        [before[0]] + Remove(before[1..] + [(k, v)] + after, k);
        { RemoveKeepsOrder(before[1..], v, after, k); }
        [before[0]] + (before[1..] + after);
        before + after;
      }
    }
  }

  /** Putting the same key twice in a row is the same as putting it once. */
  lemma {:induction false} PutTwice<V>(m: seq<(string, V)>, k: string, v: V)
    ensures Put(Put(m, k, v), k, v) == Put(m, k, v)
  {
    if |m| > 0 && m[0].0 != k {
      PutTwice(m[1..], k, v);
    }
  }
}
