/** A search hit as the retrieval layers pass it around: a dict with an
    `id`, a `score`, an optional `keyframe_path` and whatever else the
    producing backend put in it (`payload`, `content`, `method`, `text`). */
module Hits {
  import opened Wrappers
  import opened Text
  import opened Json

  /** Qdrant point ids are integers; Elasticsearch and caption ids are strings.
      As Python dict keys, `5` and `"5"` are different keys. */
  datatype Id = IntId(n: int) | StrId(s: string)

  datatype Hit = Hit(id: Id, score: real, keyframePath: Option<string>, rest: map<string, Json>)

  /** `str(result_id)`. */
  function IdStr(id: Id): (r: string)
    ensures id.StrId? ==> r == id.s
    ensures id.IntId? ==> PyInt(r) == Some(id.n)
  {
    match id
    case IntId(n) => PyIntOfIntToStr(n); IntToStr(n)
    case StrId(s) => s
  }

  /** `bool(result_id)`: the integer 0 and the empty string are falsy. */
  predicate IdTruthy(id: Id) {
    match id
    case IntId(n) => n != 0
    case StrId(s) => s != []
  }

  function Scores(hits: seq<Hit>): (r: seq<real>)
    ensures |r| == |hits| && forall i | 0 <= i < |hits| :: r[i] == hits[i].score
  {
    seq(|hits|, i requires 0 <= i < |hits| => hits[i].score)
  }

  function Ids(hits: seq<Hit>): (r: seq<Id>)
    ensures |r| == |hits| && forall i | 0 <= i < |hits| :: r[i] == hits[i].id
  {
    seq(|hits|, i requires 0 <= i < |hits| => hits[i].id)
  }

  /** `[str(r["id"]) for r in hits]`. */
  function IdStrs(hits: seq<Hit>): (r: seq<string>)
    ensures |r| == |hits| && forall i | 0 <= i < |hits| :: r[i] == IdStr(hits[i].id)
  {
    seq(|hits|, i requires 0 <= i < |hits| => IdStr(hits[i].id))
  }

  /** The hits whose `str(id)` is in `keep`, in their original order. */
  function KeepIds(hits: seq<Hit>, keep: seq<string>): (r: seq<Hit>)
    ensures |r| <= |hits|
  {
    if hits == [] then []
    else (if IdStr(hits[0].id) in keep then [hits[0]] else []) + KeepIds(hits[1..], keep)
  }

  /** The position of the first hit carrying `id`, if any. */
  function FirstIndexOf(hits: seq<Hit>, id: Id): (r: Option<nat>)
    ensures r.None? <==> forall i | 0 <= i < |hits| :: hits[i].id != id
    ensures r.Some? ==>
      r.value < |hits| && hits[r.value].id == id && forall k | 0 <= k < r.value :: hits[k].id != id
  {
    if hits == [] then None
    else if hits[0].id == id then Some(0)
    else match FirstIndexOf(hits[1..], id)
      case None => None
      case Some(j) => Some(j + 1)
  }

  /** Replaces every score by the one at the same position in `scores`. */
  function WithScores(hits: seq<Hit>, scores: seq<real>): (r: seq<Hit>)
    requires |scores| == |hits|
    ensures |r| == |hits|
    ensures forall i | 0 <= i < |hits| :: r[i] == hits[i].(score := scores[i])
  {
    seq(|hits|, i requires 0 <= i < |hits| => hits[i].(score := scores[i]))
  }

  /** Replacing the scores keeps the ids and yields exactly the new scores. */
  lemma WithScoresKeeps(hits: seq<Hit>, scores: seq<real>)
    requires |scores| == |hits|
    ensures Scores(WithScores(hits, scores)) == scores
    ensures Ids(WithScores(hits, scores)) == Ids(hits)
  {
  }
}
