/** The fusion pattern every ensemble in the core repeats: weighted scores
    are summed into an insertion-ordered `id -> score` dict, the first hit
    seen for an id supplies its metadata, the dict items are stable-sorted
    by score in descending order and cut with `[:top_k]`; some callers then
    min-max rescale the survivors.

    The callers' nested loops over method lists visit their hits in one
    order; a `Contribution` sequence lists those visits in that order. */
module Fusion {
  import opened Wrappers
  import opened Lists
  import opened Hits
  import opened Scale

  /** One `ensemble[rid] += amount` step, made while visiting `hit`. */
  datatype Contribution = Contribution(hit: Hit, amount: real)

  /** One item of `ensemble.items()`. */
  datatype Scored = Scored(id: Id, score: real)

  function ScoreOf(e: Scored): real {
    e.score
  }

  /** `[(r, scores[i] * w) for i, r in enumerate(hits)]`. */
  function Weighted(hits: seq<Hit>, scores: seq<real>, w: real): (r: seq<Contribution>)
    requires |scores| == |hits|
    ensures |r| == |hits|
    ensures forall i | 0 <= i < |hits| :: r[i] == Contribution(hits[i], scores[i] * w)
  {
    seq(|hits|, i requires 0 <= i < |hits| => Contribution(hits[i], scores[i] * w))
  }

  /** The sum of `scores[i]` over the positions `i` where `hits[i]` has `id`. */
  function ScoreSum(hits: seq<Hit>, scores: seq<real>, id: Id): real
    requires |scores| == |hits|
  {
    if hits == [] then 0.0
    else
      var n := |hits| - 1;
      ScoreSum(hits[..n], scores[..n], id) + (if hits[n].id == id then scores[n] else 0.0)
  }

  /** A weighted list adds `w` times the id's scores in that list. */
  lemma WeightedInit(hits: seq<Hit>, scores: seq<real>, w: real)
    requires |scores| == |hits| && hits != []
    ensures Weighted(hits, scores, w)[..|hits| - 1] == Weighted(hits[..|hits| - 1], scores[..|hits| - 1], w)
  {
    var n := |hits| - 1;
    var a, b := Weighted(hits, scores, w)[..n], Weighted(hits[..n], scores[..n], w);
    forall k | 0 <= k < n ensures a[k] == b[k] {
      assert hits[..n][k] == hits[k] && scores[..n][k] == scores[k];
    }
  }

  /** A weighted list adds, for the id, `w` times the sum of its scores. */
  lemma TotalWeighted(hits: seq<Hit>, scores: seq<real>, w: real, id: Id)
    requires |scores| == |hits|
    ensures Total(Weighted(hits, scores, w), id) == w * ScoreSum(hits, scores, id)
  {
    TotalWeightedSum(hits, scores, w, id);
    ScoreSumTimes(hits, scores, w, id);
  }

  lemma {:induction false} TotalWeightedSum(hits: seq<Hit>, scores: seq<real>, w: real, id: Id)
    requires |scores| == |hits|
    ensures Total(Weighted(hits, scores, w), id) == ScoreSum(hits, Times(scores, w), id)
  {
    if hits == [] {
      assert Weighted(hits, scores, w) == [];
    } else {
      var n := |hits| - 1;
      var cs := Weighted(hits, scores, w);
      WeightedInit(hits, scores, w);
      TotalWeightedSum(hits[..n], scores[..n], w, id);
      TimesPrefix(scores, w, n);
      assert cs[n] == Contribution(hits[n], Times(scores, w)[n]);
    }
  }

  /** The scores at the id's positions, 0.0 elsewhere. */
  function Picked(hits: seq<Hit>, scores: seq<real>, id: Id): (r: seq<real>)
    requires |scores| == |hits|
    ensures |r| == |hits|
    ensures forall i | 0 <= i < |hits| :: r[i] == if hits[i].id == id then scores[i] else 0.0
  {
    seq(|hits|, i requires 0 <= i < |hits| => if hits[i].id == id then scores[i] else 0.0)
  }

  lemma {:induction false} ScoreSumPicked(hits: seq<Hit>, scores: seq<real>, id: Id)
    requires |scores| == |hits|
    ensures ScoreSum(hits, scores, id) == Sum(Picked(hits, scores, id))
  {
    if hits != [] {
      var n := |hits| - 1;
      var p := Picked(hits, scores, id);
      assert p[..n] == Picked(hits[..n], scores[..n], id);
      ScoreSumPicked(hits[..n], scores[..n], id);
    }
  }

  lemma ScoreSumTimes(hits: seq<Hit>, scores: seq<real>, w: real, id: Id)
    requires |scores| == |hits|
    ensures ScoreSum(hits, Times(scores, w), id) == w * ScoreSum(hits, scores, id)
  {
    var p := Picked(hits, scores, id);
    ScoreSumPicked(hits, scores, id);
    ScoreSumPicked(hits, Times(scores, w), id);
    PickedTimes(hits, scores, w, id);
    SumTimes(p, w);
  }

  lemma PickedTimes(hits: seq<Hit>, scores: seq<real>, w: real, id: Id)
    requires |scores| == |hits|
    ensures Picked(hits, Times(scores, w), id) == Times(Picked(hits, scores, id), w)
  {
    var a, b := Picked(hits, Times(scores, w), id), Times(Picked(hits, scores, id), w);
    forall k | 0 <= k < |hits| ensures a[k] == b[k] {
      if hits[k].id == id {
        assert a[k] == scores[k] * w;
      } else {
        assert b[k] == 0.0 * w;
      }
    }
  }

  /** A list without the id contributes nothing to its sum. */
  lemma {:induction false} ScoreSumAbsent(hits: seq<Hit>, scores: seq<real>, id: Id)
    requires |scores| == |hits|
    requires forall i | 0 <= i < |hits| :: hits[i].id != id
    ensures ScoreSum(hits, scores, id) == 0.0
  {
    if hits != [] {
      ScoreSumAbsent(hits[..|hits| - 1], scores[..|hits| - 1], id);
    }
  }

  lemma MentionsAppendLists(a: seq<Contribution>, b: seq<Contribution>, id: Id)
    ensures Mentions(a + b, id) <==> Mentions(a, id) || Mentions(b, id)
  {
    if Mentions(a + b, id) {
      var i :| 0 <= i < |a + b| && (a + b)[i].hit.id == id;
      if i >= |a| {
        assert b[i - |a|] == (a + b)[i];
      }
    }
    if Mentions(b, id) {
      var i :| 0 <= i < |b| && b[i].hit.id == id;
      assert (a + b)[i + |a|] == b[i];
    }
    if Mentions(a, id) {
      var i :| 0 <= i < |a| && a[i].hit.id == id;
      assert (a + b)[i] == a[i];
    }
  }

  /** Metadata comes from the first list that holds the id. */
  lemma FirstHitAppend(a: seq<Contribution>, b: seq<Contribution>, id: Id)
    requires Mentions(a, id) || Mentions(b, id)
    ensures Mentions(a + b, id)
    ensures FirstHit(a + b, id) == if Mentions(a, id) then FirstHit(a, id) else FirstHit(b, id)
  {
    MentionsAppendLists(a, b, id);
    assert (a + b)[..|a|] == a;
    if Mentions(a, id) {
      FirstIndexPrefix(a + b, |a|, id);
    } else {
      var j := FirstIndex(b, id);
      assert (a + b)[|a| + j] == b[j];
      assert forall k | 0 <= k < |a| :: (a + b)[k] == a[k];
      assert forall k | |a| <= k < |a| + j :: (a + b)[k] == b[k - |a|];
      FirstIndexUnique(a + b, id, |a| + j);
    }
  }

  /** A weighted list mentions exactly the ids of its hits, and the first
      hit it keeps for an id is the first hit with that id. */
  lemma FirstHitWeighted(hits: seq<Hit>, scores: seq<real>, w: real, id: Id)
    requires |scores| == |hits|
    ensures Mentions(Weighted(hits, scores, w), id) <==> FirstIndexOf(hits, id).Some?
    ensures FirstIndexOf(hits, id).Some? ==>
      FirstHit(Weighted(hits, scores, w), id) == hits[FirstIndexOf(hits, id).value]
  {
    var cs := Weighted(hits, scores, w);
    if FirstIndexOf(hits, id).Some? {
      var f := FirstIndexOf(hits, id).value;
      assert cs[f].hit.id == id;
      var j := FirstIndex(cs, id);
      assert cs[j].hit == hits[j];
      assert !(f < j) && !(j < f);
    }
  }

  predicate Mentions(cs: seq<Contribution>, id: Id) {
    exists i | 0 <= i < |cs| :: cs[i].hit.id == id
  }

  lemma MentionsSnoc(cs: seq<Contribution>, id: Id)
    requires cs != []
    ensures Mentions(cs, id) <==> Mentions(cs[..|cs| - 1], id) || cs[|cs| - 1].hit.id == id
  {
    var init := cs[..|cs| - 1];
    if Mentions(cs, id) && cs[|cs| - 1].hit.id != id {
      var i :| 0 <= i < |cs| && cs[i].hit.id == id;
      assert init[i] == cs[i];
    }
    if Mentions(init, id) {
      var i :| 0 <= i < |init| && init[i].hit.id == id;
      assert cs[i] == init[i];
    }
  }

  /** The dict's keys in insertion order: each id once, where it first occurs. */
  function KeysOf(cs: seq<Contribution>): seq<Id> {
    if cs == [] then []
    else
      var keys := KeysOf(cs[..|cs| - 1]);
      var id := cs[|cs| - 1].hit.id;
      if id in keys then keys else keys + [id]
  }

  /** The summed score of `id`: `defaultdict(float)` starts every id at 0.0. */
  function Total(cs: seq<Contribution>, id: Id): real {
    if cs == [] then 0.0
    else
      Total(cs[..|cs| - 1], id) + (if cs[|cs| - 1].hit.id == id then cs[|cs| - 1].amount else 0.0)
  }

  /** The position of the first contribution for `id`. */
  function FirstIndex(cs: seq<Contribution>, id: Id): (r: nat)
    requires Mentions(cs, id)
    ensures r < |cs| && cs[r].hit.id == id
    ensures forall k | 0 <= k < r :: cs[k].hit.id != id
  {
    MentionsSnoc(cs, id);
    var init := cs[..|cs| - 1];
    if Mentions(init, id) then
      var r := FirstIndex(init, id);
      assert cs[r] == init[r];
      assert forall k | 0 <= k < r :: cs[k] == init[k];
      r
    else
      assert forall k | 0 <= k < |init| :: cs[k] == init[k];
      |cs| - 1
  }

  /** `meta[rid]`: the hit of the first contribution for `id` (`if rid not in meta`). */
  function FirstHit(cs: seq<Contribution>, id: Id): (h: Hit)
    requires Mentions(cs, id)
    ensures h.id == id
  {
    cs[FirstIndex(cs, id)].hit
  }

  lemma FirstIndexUnique(cs: seq<Contribution>, id: Id, j: nat)
    requires j < |cs| && cs[j].hit.id == id
    requires forall k | 0 <= k < j :: cs[k].hit.id != id
    ensures Mentions(cs, id) && FirstIndex(cs, id) == j
  {
  }

  /** Extending the contributions does not change an id's first occurrence. */
  lemma FirstIndexPrefix(cs: seq<Contribution>, n: nat, id: Id)
    requires n <= |cs| && Mentions(cs[..n], id)
    ensures Mentions(cs, id) && FirstIndex(cs, id) == FirstIndex(cs[..n], id)
  {
    var j := FirstIndex(cs[..n], id);
    assert cs[j] == cs[..n][j];
    assert forall k | 0 <= k < j :: cs[k] == cs[..n][k];
    FirstIndexUnique(cs, id, j);
  }

  lemma {:induction false} KeysOfFacts(cs: seq<Contribution>)
    ensures Distinct(KeysOf(cs))
    ensures forall id :: id in KeysOf(cs) <==> Mentions(cs, id)
  {
    if cs != [] {
      KeysOfFacts(cs[..|cs| - 1]);
      forall id ensures Mentions(cs, id) <==> Mentions(cs[..|cs| - 1], id) || cs[|cs| - 1].hit.id == id {
        MentionsSnoc(cs, id);
      }
    }
  }

  /** The keys are in first-occurrence order, as a Python dict inserts them. */
  lemma {:induction false} KeysOfOrder(cs: seq<Contribution>)
    ensures forall id | id in KeysOf(cs) :: Mentions(cs, id)
    ensures forall i, j | 0 <= i < j < |KeysOf(cs)| ::
      FirstIndex(cs, KeysOf(cs)[i]) < FirstIndex(cs, KeysOf(cs)[j])
  {
    KeysOfFacts(cs);
    if cs != [] {
      var n := |cs| - 1;
      var init := cs[..n];
      var keys := KeysOf(init);
      KeysOfOrder(init);
      forall id | id in keys ensures FirstIndex(cs, id) == FirstIndex(init, id) {
        FirstIndexPrefix(cs, n, id);
      }
      var id := cs[n].hit.id;
      if id !in keys {
        KeysOfFacts(init);
        assert forall k | 0 <= k < n :: cs[k] == init[k];
        FirstIndexUnique(cs, id, n);
      }
    }
  }

  lemma {:induction false} TotalAppend(a: seq<Contribution>, b: seq<Contribution>, id: Id)
    decreases |b|
    ensures Total(a + b, id) == Total(a, id) + Total(b, id)
  {
    if b == [] {
      assert a + b == a;
    } else {
      var b' := b[..|b| - 1];
      assert (a + b)[..|a + b| - 1] == a + b';
      TotalAppend(a, b', id);
    }
  }

  /** An id that no contribution mentions has total 0.0. */
  lemma {:induction false} TotalAbsent(cs: seq<Contribution>, id: Id)
    requires !Mentions(cs, id)
    ensures Total(cs, id) == 0.0
  {
    if cs != [] {
      MentionsSnoc(cs, id);
      TotalAbsent(cs[..|cs| - 1], id);
    }
  }

  /** `ensemble.items()` in insertion order. */
  function Entries(cs: seq<Contribution>): (r: seq<Scored>)
    ensures |r| == |KeysOf(cs)|
    ensures forall i | 0 <= i < |r| :: r[i] == Scored(KeysOf(cs)[i], Total(cs, KeysOf(cs)[i]))
  {
    var keys := KeysOf(cs);
    seq(|keys|, i requires 0 <= i < |keys| => Scored(keys[i], Total(cs, keys[i])))
  }

  function EntryIds(es: seq<Scored>): (r: seq<Id>)
    ensures |r| == |es| && forall i | 0 <= i < |es| :: r[i] == es[i].id
  {
    seq(|es|, i requires 0 <= i < |es| => es[i].id)
  }

  function EntryScores(es: seq<Scored>): (r: seq<real>)
    ensures |r| == |es| && forall i | 0 <= i < |es| :: r[i] == es[i].score
  {
    seq(|es|, i requires 0 <= i < |es| => es[i].score)
  }

  /** `sorted(ensemble.items(), key=lambda x: x[1], reverse=True)`. */
  function Sorted(cs: seq<Contribution>): seq<Scored> {
    SortDesc(Entries(cs), ScoreOf)
  }

  /** `sorted(...)[:top_k]`. */
  function Ranked(cs: seq<Contribution>, topK: int): seq<Scored> {
    PyPrefix(Sorted(cs), topK)
  }

  /** Every sorted item is an item of the dict. */
  lemma SortedMembers(cs: seq<Contribution>, j: nat)
    requires j < |Sorted(cs)|
    ensures Sorted(cs)[j] in Entries(cs)
    ensures Mentions(cs, Sorted(cs)[j].id)
    ensures Sorted(cs)[j].score == Total(cs, Sorted(cs)[j].id)
  {
    var s := Sorted(cs);
    assert s[j] in multiset(s);
    assert s[j] in multiset(Entries(cs));
    KeysOfFacts(cs);
  }

  lemma EntriesDistinctIds(cs: seq<Contribution>)
    ensures Distinct(EntryIds(Entries(cs)))
    ensures Distinct(Entries(cs))
  {
    KeysOfFacts(cs);
  }

  /** Each ranked item is an id's summed score; the ids do not repeat, the
      scores do not increase, and `top_k >= 0` keeps `min(top_k, #ids)` items. */
  lemma RankedFacts(cs: seq<Contribution>, topK: int)
    ensures forall i | 0 <= i < |Ranked(cs, topK)| ::
      Mentions(cs, Ranked(cs, topK)[i].id) && Ranked(cs, topK)[i].score == Total(cs, Ranked(cs, topK)[i].id)
    ensures Distinct(EntryIds(Ranked(cs, topK)))
    ensures SortedDesc(Ranked(cs, topK), ScoreOf)
    ensures |Ranked(cs, topK)| <= |KeysOf(cs)|
    ensures topK >= 0 ==> |Ranked(cs, topK)| == if topK <= |KeysOf(cs)| then topK else |KeysOf(cs)|
  {
    var s := Sorted(cs);
    var r := Ranked(cs, topK);
    PyPrefixFacts(s, topK);
    forall i | 0 <= i < |r|
      ensures Mentions(cs, r[i].id) && r[i].score == Total(cs, r[i].id)
    {
      SortedMembers(cs, i);
    }
    EntriesDistinctIds(cs);
    forall i, j | 0 <= i < j < |r| ensures r[i].id != r[j].id {
      SortedMembers(cs, i);
      SortedMembers(cs, j);
      if r[i].id == r[j].id {
        assert r[i] == r[j];
        PermutationDistinct(Entries(cs), s);
      }
    }
  }

  /** Whatever `[:top_k]` drops scored no higher than anything it keeps. */
  lemma RankedOutranks(cs: seq<Contribution>, topK: int, id: Id, i: nat)
    requires Mentions(cs, id) && id !in EntryIds(Ranked(cs, topK))
    requires i < |Ranked(cs, topK)|
    ensures Total(cs, id) <= Ranked(cs, topK)[i].score
  {
    var s := Sorted(cs);
    var r := Ranked(cs, topK);
    KeysOfFacts(cs);
    var k :| 0 <= k < |KeysOf(cs)| && KeysOf(cs)[k] == id;
    var e := Entries(cs)[k];
    assert e in multiset(s);
    var j :| 0 <= j < |s| && s[j] == e;
    PyPrefixFacts(s, topK);
    PrefixOutranks(s, ScoreOf, topK, i, j);
  }

  /** A `top_k` at least the number of ids keeps every id. */
  lemma RankedComplete(cs: seq<Contribution>, topK: int, id: Id)
    requires topK >= |KeysOf(cs)| && Mentions(cs, id)
    ensures id in EntryIds(Ranked(cs, topK))
  {
    var s := Sorted(cs);
    KeysOfFacts(cs);
    var k :| 0 <= k < |KeysOf(cs)| && KeysOf(cs)[k] == id;
    assert Entries(cs)[k] in multiset(s);
    var j :| 0 <= j < |s| && s[j] == Entries(cs)[k];
    PyPrefixFacts(s, topK);
    assert EntryIds(Ranked(cs, topK))[j] == id;
  }

  /** The index of `id` in `keys`, or -1. */
  function Position(keys: seq<Id>, id: Id): (r: int)
    ensures r < |keys|
    ensures r >= 0 ==> keys[r] == id
    ensures id in keys ==> r >= 0
  {
    if keys == [] then -1
    else if keys[|keys| - 1] == id && id !in keys[..|keys| - 1] then |keys| - 1
    else Position(keys[..|keys| - 1], id)
  }

  /** Equal sums keep the order in which their ids were first seen. */
  lemma RankedTies(cs: seq<Contribution>, topK: int, i: nat, j: nat)
    requires i < j < |Ranked(cs, topK)|
    requires Ranked(cs, topK)[i].score == Ranked(cs, topK)[j].score
    ensures Mentions(cs, Ranked(cs, topK)[i].id) && Mentions(cs, Ranked(cs, topK)[j].id)
    ensures FirstIndex(cs, Ranked(cs, topK)[i].id) < FirstIndex(cs, Ranked(cs, topK)[j].id)
  {
    var keys := KeysOf(cs);
    var es := Entries(cs);
    var rank := (e: Scored) => Position(keys, e.id);
    KeysOfFacts(cs);
    forall a | 0 <= a < |es| ensures rank(es[a]) == a {
      var p := Position(keys, keys[a]);
      assert keys[p] == keys[a];
    }
    SortDescTies(es, ScoreOf, rank);
    var s := Sorted(cs);
    PyPrefixFacts(s, topK);
    assert s[i] == Ranked(cs, topK)[i] && s[j] == Ranked(cs, topK)[j];
    assert rank(s[i]) < rank(s[j]);
    SortedMembers(cs, i);
    SortedMembers(cs, j);
    var pi, pj := Position(keys, s[i].id), Position(keys, s[j].id);
    KeysOfOrder(cs);
    assert keys[pi] == s[i].id && keys[pj] == s[j].id;
  }

  /** The result dicts: `meta[rid].copy()` with `score` set from `scores`. */
  function Attach(cs: seq<Contribution>, ranked: seq<Scored>, scores: seq<real>): (r: seq<Hit>)
    requires |scores| == |ranked|
    requires forall i | 0 <= i < |ranked| :: Mentions(cs, ranked[i].id)
    ensures |r| == |ranked|
    ensures forall i | 0 <= i < |ranked| :: r[i] == FirstHit(cs, ranked[i].id).(score := scores[i])
  {
    seq(|ranked|, i requires 0 <= i < |ranked| => FirstHit(cs, ranked[i].id).(score := scores[i]))
  }

  /** The fused list without rescaling: each survivor carries its sum. */
  function Fused(cs: seq<Contribution>, topK: int): seq<Hit> {
    RankedFacts(cs, topK);
    var r := Ranked(cs, topK);
    Attach(cs, r, EntryScores(r))
  }

  /** The fused list with the survivors' sums min-max rescaled. */
  function FusedRescaled(cs: seq<Contribution>, topK: int): seq<Hit> {
    RankedFacts(cs, topK);
    var r := Ranked(cs, topK);
    Attach(cs, r, MinMax(EntryScores(r)))
  }

  /** What a fused list holds: the ranked ids, in ranked order, each with
      its first hit's metadata and its summed score. */
  lemma FusedFacts(cs: seq<Contribution>, topK: int)
    ensures |Fused(cs, topK)| == |Ranked(cs, topK)|
    ensures Hits.Ids(Fused(cs, topK)) == EntryIds(Ranked(cs, topK))
    ensures forall i | 0 <= i < |Fused(cs, topK)| ::
      Mentions(cs, Fused(cs, topK)[i].id)
      && Fused(cs, topK)[i] == FirstHit(cs, Fused(cs, topK)[i].id).(score := Total(cs, Fused(cs, topK)[i].id))
    ensures forall i, j | 0 <= i < j < |Fused(cs, topK)| ::
      Fused(cs, topK)[i].id != Fused(cs, topK)[j].id && Fused(cs, topK)[i].score >= Fused(cs, topK)[j].score
  {
    RankedFacts(cs, topK);
    var r := Ranked(cs, topK);
    var f := Fused(cs, topK);
    assert forall i | 0 <= i < |r| :: f[i].id == r[i].id && f[i].score == r[i].score;
    assert forall i, j | 0 <= i < j < |r| :: r[i].id != r[j].id && ScoreOf(r[i]) >= ScoreOf(r[j]);
  }

  /** Rescaling keeps the fused ids, their order and their metadata, and puts
      every score in [0, 1]. */
  lemma FusedRescaledFacts(cs: seq<Contribution>, topK: int)
    ensures |FusedRescaled(cs, topK)| == |Fused(cs, topK)|
    ensures forall i | 0 <= i < |Fused(cs, topK)| ::
      FusedRescaled(cs, topK)[i] == Fused(cs, topK)[i].(score := FusedRescaled(cs, topK)[i].score)
      && 0.0 <= FusedRescaled(cs, topK)[i].score <= 1.0
    ensures forall i, j | 0 <= i < j < |Fused(cs, topK)| ::
      FusedRescaled(cs, topK)[i].score >= FusedRescaled(cs, topK)[j].score
  {
    RankedFacts(cs, topK);
    var r := Ranked(cs, topK);
    var scores := EntryScores(r);
    var f, g := Fused(cs, topK), FusedRescaled(cs, topK);
    forall i | 0 <= i < |r| ensures 0.0 <= g[i].score <= 1.0 {
      MinMaxInUnit(scores, i);
    }
    forall i, j | 0 <= i < j < |r| ensures g[i].score >= g[j].score {
      assert ScoreOf(r[i]) >= ScoreOf(r[j]);
      MinMaxMonotone(scores, j, i);
    }
  }

  /** The state of the accumulation loop after the contributions `done`. */
  ghost predicate Accumulated(done: seq<Contribution>, keys: seq<Id>, scores: map<Id, real>, meta: map<Id, Hit>) {
    && keys == KeysOf(done)
    && (forall id :: id in scores <==> Mentions(done, id))
    && (forall id :: id in meta <==> Mentions(done, id))
    && (forall id | id in scores :: scores[id] == Total(done, id))
    && (forall id | id in meta :: Mentions(done, id) && meta[id] == FirstHit(done, id))
  }

  lemma KeysOfSnoc(done: seq<Contribution>, c: Contribution)
    ensures KeysOf(done + [c]) == if c.hit.id in KeysOf(done) then KeysOf(done) else KeysOf(done) + [c.hit.id]
  {
    assert (done + [c])[..|done|] == done;
  }

  lemma TotalSnoc(done: seq<Contribution>, c: Contribution, id: Id)
    ensures Total(done + [c], id) == Total(done, id) + if c.hit.id == id then c.amount else 0.0
  {
    assert (done + [c])[..|done|] == done;
  }

  lemma MentionsAppend(done: seq<Contribution>, c: Contribution)
    ensures forall id :: Mentions(done + [c], id) <==> Mentions(done, id) || c.hit.id == id
  {
    var next := done + [c];
    assert next[..|done|] == done;
    forall id ensures Mentions(next, id) <==> Mentions(done, id) || c.hit.id == id {
      MentionsSnoc(next, id);
    }
  }

  lemma FirstHitSnoc(done: seq<Contribution>, c: Contribution, id: Id)
    requires Mentions(done, id) || c.hit.id == id
    ensures Mentions(done + [c], id)
    ensures FirstHit(done + [c], id) == if Mentions(done, id) then FirstHit(done, id) else c.hit
  {
    var next := done + [c];
    assert next[..|done|] == done;
    if Mentions(done, id) {
      FirstIndexPrefix(next, |done|, id);
    } else {
      assert forall k | 0 <= k < |done| :: next[k] == done[k];
      FirstIndexUnique(next, id, |done|);
    }
  }

  lemma ScoresStep(done: seq<Contribution>, c: Contribution, scores: map<Id, real>)
    requires forall id :: id in scores <==> Mentions(done, id)
    requires forall id | id in scores :: scores[id] == Total(done, id)
    ensures var scores' := scores[c.hit.id := (if c.hit.id in scores then scores[c.hit.id] else 0.0) + c.amount];
      && (forall id :: id in scores' <==> Mentions(done + [c], id))
      && (forall id | id in scores' :: scores'[id] == Total(done + [c], id))
  {
    var rid := c.hit.id;
    var scores' := scores[rid := (if rid in scores then scores[rid] else 0.0) + c.amount];
    MentionsAppend(done, c);
    forall id | id in scores' ensures scores'[id] == Total(done + [c], id) {
      TotalSnoc(done, c, id);
      if id == rid && rid !in scores {
        TotalAbsent(done, rid);
      }
    }
  }

  lemma MetaStep(done: seq<Contribution>, c: Contribution, meta: map<Id, Hit>)
    requires forall id :: id in meta <==> Mentions(done, id)
    requires forall id | id in meta :: Mentions(done, id) && meta[id] == FirstHit(done, id)
    ensures var meta' := if c.hit.id in meta then meta else meta[c.hit.id := c.hit];
      && (forall id :: id in meta' <==> Mentions(done + [c], id))
      && (forall id | id in meta' :: Mentions(done + [c], id) && meta'[id] == FirstHit(done + [c], id))
  {
    var meta' := if c.hit.id in meta then meta else meta[c.hit.id := c.hit];
    MentionsAppend(done, c);
    forall id | id in meta' ensures Mentions(done + [c], id) && meta'[id] == FirstHit(done + [c], id) {
      FirstHitSnoc(done, c, id);
    }
  }

  /** One pass of the loop body keeps `Accumulated`. */
  lemma AccumulateStep(done: seq<Contribution>, c: Contribution, keys: seq<Id>, scores: map<Id, real>, meta: map<Id, Hit>,
                       keys': seq<Id>, scores': map<Id, real>, meta': map<Id, Hit>)
    requires Accumulated(done, keys, scores, meta)
    requires keys' == if c.hit.id in scores then keys else keys + [c.hit.id]
    requires scores' == scores[c.hit.id := (if c.hit.id in scores then scores[c.hit.id] else 0.0) + c.amount]
    requires meta' == if c.hit.id in meta then meta else meta[c.hit.id := c.hit]
    ensures Accumulated(done + [c], keys', scores', meta')
  {
    KeysOfFacts(done);
    KeysOfSnoc(done, c);
    ScoresStep(done, c, scores);
    MetaStep(done, c, meta);
  }

  lemma AccumulatedAll(cs: seq<Contribution>, done: seq<Contribution>, keys: seq<Id>, scores: map<Id, real>, meta: map<Id, Hit>)
    requires done == cs[..|cs|] && Accumulated(done, keys, scores, meta)
    ensures Accumulated(cs, keys, scores, meta)
  {
    assert done == cs;
  }

  /** The accumulation loop shared by every ensemble: `ensemble[rid] += amount`
      on a `defaultdict(float)`, `if rid not in meta: meta[rid] = r`. */
  method Accumulate(cs: seq<Contribution>) returns (keys: seq<Id>, scores: map<Id, real>, meta: map<Id, Hit>)
    ensures keys == KeysOf(cs)
    ensures forall id :: id in scores <==> Mentions(cs, id)
    ensures forall id :: id in meta <==> Mentions(cs, id)
    ensures forall id | id in scores :: scores[id] == Total(cs, id)
    ensures forall id | id in meta :: meta[id] == FirstHit(cs, id)
  {
    keys, scores, meta := [], map[], map[];
    ghost var done: seq<Contribution> := [];
    var i := 0;
    while i < |cs|
      invariant 0 <= i <= |cs| && done == cs[..i]
      invariant Accumulated(done, keys, scores, meta)
    {
      var c := cs[i];
      var rid := c.hit.id;
      var keys' := if rid in scores then keys else keys + [rid];
      var scores' := scores[rid := (if rid in scores then scores[rid] else 0.0) + c.amount];
      var meta' := if rid in meta then meta else meta[rid := c.hit];
      AccumulateStep(done, c, keys, scores, meta, keys', scores', meta');
      keys, scores, meta := keys', scores', meta';
      TakeSnoc(cs, i);
      done := done + [c];
      i := i + 1;
    }
    AccumulatedAll(cs, done, keys, scores, meta);
  }

  /** The loop that builds the result list: `item = meta[rid].copy()`,
      `item["score"] = s`, `item["id"] = rid`. */
  method CopyOut(cs: seq<Contribution>, meta: map<Id, Hit>, ranked: seq<Scored>, scores: seq<real>) returns (r: seq<Hit>)
    requires |scores| == |ranked|
    requires forall i | 0 <= i < |ranked| :: Mentions(cs, ranked[i].id)
    requires forall id :: id in meta <==> Mentions(cs, id)
    requires forall id | id in meta :: meta[id] == FirstHit(cs, id)
    ensures r == Attach(cs, ranked, scores)
  {
    r := [];
    var i := 0;
    while i < |ranked|
      invariant 0 <= i <= |ranked|
      invariant |r| == i
      invariant forall k | 0 <= k < i :: r[k] == FirstHit(cs, ranked[k].id).(score := scores[k])
    {
      var rid := ranked[i].id;
      r := r + [meta[rid].(score := scores[i], id := rid)];
      i := i + 1;
    }
  }

  /** `sorted(ensemble.items(), ...)[:top_k]` and the copy loop. */
  method Fuse(cs: seq<Contribution>, topK: int) returns (r: seq<Hit>)
    ensures r == Fused(cs, topK)
  {
    var keys, scores, meta := Accumulate(cs);
    KeysOfFacts(cs);
    var items := seq(|keys|, i requires 0 <= i < |keys| => Scored(keys[i], scores[keys[i]]));
    assert items == Entries(cs);
    var ranked := PyPrefix(SortDesc(items, ScoreOf), topK);
    RankedFacts(cs, topK);
    r := CopyOut(cs, meta, ranked, EntryScores(ranked));
  }

  /** As `Fuse`, with `min_max_scale` applied to the kept scores before the copy loop. */
  method FuseRescaled(cs: seq<Contribution>, topK: int) returns (r: seq<Hit>)
    ensures r == FusedRescaled(cs, topK)
  {
    var keys, scores, meta := Accumulate(cs);
    KeysOfFacts(cs);
    var items := seq(|keys|, i requires 0 <= i < |keys| => Scored(keys[i], scores[keys[i]]));
    assert items == Entries(cs);
    var ranked := PyPrefix(SortDesc(items, ScoreOf), topK);
    RankedFacts(cs, topK);
    var finalScores := MinMax(EntryScores(ranked));
    r := CopyOut(cs, meta, ranked, finalScores);
  }
}
