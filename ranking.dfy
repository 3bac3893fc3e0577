/**
 * The order a `find(...).sort({ field: -1 })` query hands documents back in, and the
 * `skip(...).limit(...)` window taken from it. Documents are named by their ids; `key` reads
 * the sort field of the document under an id. Documents with equal keys may come back in any
 * order, so an order is specified by what it must satisfy rather than computed.
 */
module Ranking {

  /** `r` lists every id of `ids` exactly once, the largest key first. */
  ghost predicate RankedBy<K(!new)>(r: seq<K>, ids: set<K>, key: K -> int) {
    && (forall i, j :: 0 <= i < j < |r| ==> r[i] != r[j])
    && (forall k :: k in r <==> k in ids)
    && (forall i, j :: 0 <= i < j < |r| ==> key(r[i]) >= key(r[j]))
  }

  /** A non-empty finite set has an element whose key no other element exceeds. */
  lemma {:induction false} HasTop<K(!new)>(ids: set<K>, key: K -> int) returns (top: K)
    requires ids != {}
    ensures top in ids && forall k :: k in ids ==> key(k) <= key(top)
    decreases |ids|
  {
    var x :| x in ids;
    if ids == {x} {
      top := x;
    } else {
      var t := HasTop(ids - {x}, key);
      top := if key(x) >= key(t) then x else t;
    }
  }

  /** Putting an element with the largest key in front of an order of the others ranks them all. */
  lemma PrependTop<K(!new)>(top: K, rest: seq<K>, ids: set<K>, key: K -> int)
    requires top in ids && forall k :: k in ids ==> key(k) <= key(top)
    requires RankedBy(rest, ids - {top}, key)
    ensures RankedBy([top] + rest, ids, key)
  {
    var r := [top] + rest;
    assert forall i :: 1 <= i < |r| ==> r[i] == rest[i - 1];
    assert forall i :: 1 <= i < |r| ==> r[i] in ids - {top};
    assert forall k :: k in r <==> k == top || k in rest;
  }

  /** One order the query may return: repeatedly the element with the largest key. */
  ghost function Rank<K(!new)>(ids: set<K>, key: K -> int): (r: seq<K>)
    ensures RankedBy(r, ids, key)
    ensures |r| == |ids|
    decreases |ids|
  {
    if ids == {} then []
    else
      assert exists t :: t in ids && forall k :: k in ids ==> key(k) <= key(t) by {
        var t := HasTop(ids, key);
      }
      var top :| top in ids && forall k :: k in ids ==> key(k) <= key(top);
      var rest := Rank(ids - {top}, key);
      PrependTop(top, rest, ids, key);
      [top] + rest
  }

  /** How many documents `limit(n)` lets through: the driver reads a negative limit as its
   *  absolute value. */
  function Count(limit: int): nat {
    if limit < 0 then -limit else limit
  }

  /** `skip(skip).limit(count)` applied to the order `r`. */
  function Window<K(!new)>(r: seq<K>, skip: nat, count: nat): (w: seq<K>)
    ensures |w| == if skip >= |r| then 0 else if skip + count <= |r| then count else |r| - skip
    ensures forall i :: 0 <= i < |w| ==> w[i] == r[skip + i]
  {
    if skip >= |r| then [] else r[skip..if skip + count <= |r| then skip + count else |r|]
  }

  /** With a positive limit, the element at position `i` lies on page `i / count + 1`, whose
   *  window starts at `(i / count) * count`; the pages never overlap, since the order has no
   *  repeats. */
  lemma PageHolds<K(!new)>(r: seq<K>, count: nat, i: nat)
    requires count > 0 && i < |r|
    ensures var skip := (i / count) * count;
            var w := Window(r, skip, count);
            skip <= i < skip + count && r[i] in w && w[i - skip] == r[i]
  {
    var skip := (i / count) * count;
    assert skip <= i < skip + count by {
      assert i == (i / count) * count + i % count;
    }
    assert Window(r, skip, count)[i - skip] == r[i];
  }

  /** A window of a ranked order keeps the order: every element comes from `ids`, there are
   *  no repeats, and the keys never increase. */
  lemma WindowRanked<K(!new)>(r: seq<K>, ids: set<K>, key: K -> int, skip: nat, count: nat)
    requires RankedBy(r, ids, key)
    ensures var w := Window(r, skip, count);
            && |w| <= count
            && (forall i :: 0 <= i < |w| ==> w[i] in ids)
            && (forall i, j :: 0 <= i < j < |w| ==> w[i] != w[j] && key(w[i]) >= key(w[j]))
  {
    var w := Window(r, skip, count);
    forall i | 0 <= i < |w|
      ensures w[i] in ids
    {
      assert w[i] == r[skip + i];
    }
    forall i, j | 0 <= i < j < |w|
      ensures w[i] != w[j] && key(w[i]) >= key(w[j])
    {
      assert w[i] == r[skip + i] && w[j] == r[skip + j];
    }
  }

  // ---------------------------------------------------------------- pages of documents

  /** The documents stored under the ids of a page. */
  function Docs<D>(docs: map<string, D>, ids: seq<string>): (ds: seq<D>)
    requires forall i :: 0 <= i < |ids| ==> ids[i] in docs
    ensures |ds| == |ids| && forall i :: 0 <= i < |ids| ==> ds[i] == docs[ids[i]]
  {
    seq(|ids|, i requires 0 <= i < |ids| => docs[ids[i]])
  }

  /** `listed` is the `skip`/`limit` window of `order`, a ranking by `key` of the matching
   *  ids of the collection `docs`. */
  ghost predicate ListedPage<D>(docs: map<string, D>, ids: set<string>, key: string -> int, order: seq<string>,
                                skip: nat, count: nat, listed: seq<D>) {
    && RankedBy(order, ids, key)
    && (forall i :: 0 <= i < |order| ==> order[i] in docs)
    && listed == Docs(docs, Window(order, skip, count))
  }

  /** One page the query may return. */
  ghost function Page<D>(docs: map<string, D>, ids: set<string>, key: string -> int, skip: nat, count: nat)
    : (listed: seq<D>)
    requires ids <= docs.Keys
    ensures exists order :: ListedPage(docs, ids, key, order, skip, count, listed)
  {
    var order := Rank(ids, key);
    assert forall i :: 0 <= i < |order| ==> order[i] in ids;
    var listed := Docs(docs, Window(order, skip, count));
    assert ListedPage(docs, ids, key, order, skip, count, listed);
    listed
  }

  /** The ids behind a listed page: at most `count` of them, all matching, no repeats, and
   *  their keys never increase. */
  lemma PageFacts<D>(docs: map<string, D>, ids: set<string>, key: string -> int, order: seq<string>,
                     skip: nat, count: nat, listed: seq<D>) returns (shown: seq<string>)
    requires ListedPage(docs, ids, key, order, skip, count, listed)
    ensures |shown| == |listed| <= count
    ensures forall i :: 0 <= i < |shown| ==> shown[i] in ids && shown[i] in docs && listed[i] == docs[shown[i]]
    ensures forall i, j :: 0 <= i < j < |shown| ==> shown[i] != shown[j] && key(shown[i]) >= key(shown[j])
  {
    shown := Window(order, skip, count);
    WindowRanked(order, ids, key, skip, count);
  }
}
