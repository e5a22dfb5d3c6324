/** The fusions the two search routers share: the three-model z-score
    ensemble, the equal-weight ensemble of method lists and the ensemble of
    the three query variants, together with the order-preserving id filter
    both apply to fused lists. */
module Ensembles {
  import opened Wrappers
  import opened Lists
  import opened Hits
  import opened Scale
  import opened Fusion
  import opened MethodMultiModel

  /** A `{method name: hits}` dict, its items in insertion order. */
  type MethodResults = seq<(string, seq<Hit>)>

  /** `list(method_results.values())`. */
  function Values(ms: MethodResults): (r: seq<seq<Hit>>)
    ensures |r| == |ms| && forall i | 0 <= i < |ms| :: r[i] == ms[i].1
  {
    seq(|ms|, i requires 0 <= i < |ms| => ms[i].1)
  }

  /** `list(method_results.keys())`. */
  function Names(ms: MethodResults): (r: seq<string>)
    ensures |r| == |ms| && forall i | 0 <= i < |ms| :: r[i] == ms[i].0
  {
    seq(|ms|, i requires 0 <= i < |ms| => ms[i].0)
  }

  // ------------------------------------------------------------ list fusion

  /** The visits of `for results in lists: for r in results:
      ensemble[r["id"]] += r["score"] * w`. */
  function ListContributions(ls: seq<seq<Hit>>, w: real): seq<Contribution> {
    if ls == [] then []
    else
      var n := |ls| - 1;
      ListContributions(ls[..n], w) + Weighted(ls[n], Scores(ls[n]), w)
  }

  /** The sum of an id's scores over all lists. */
  function ListScore(ls: seq<seq<Hit>>, id: Id): real {
    if ls == [] then 0.0
    else
      var n := |ls| - 1;
      ListScore(ls[..n], id) + ScoreSum(ls[n], Scores(ls[n]), id)
  }

  /** The first hit carrying `id` in the first list that holds it. */
  function ListFirst(ls: seq<seq<Hit>>, id: Id): Option<Hit> {
    if ls == [] then None
    else
      var n := |ls| - 1;
      match ListFirst(ls[..n], id)
      case Some(h) => Some(h)
      case None =>
        match FirstIndexOf(ls[n], id)
        case Some(i) => Some(ls[n][i])
        case None => None
  }

  /** `w * x`: the weighted sums below are stated through it, so that their
      proofs compare products by their factors. */
  function Product(w: real, x: real): real {
    w * x
  }

  /** An id's sum is `w` times its scores summed over every list. */
  lemma {:induction false} ListTotal(ls: seq<seq<Hit>>, w: real, id: Id)
    ensures Total(ListContributions(ls, w), id) == Product(w, ListScore(ls, id))
  {
    if ls == [] {
      assert ListContributions(ls, w) == [] && ListScore(ls, id) == 0.0;
      assert Total([], id) == 0.0;
    } else {
      var n := |ls| - 1;
      var a := ListContributions(ls[..n], w);
      ListTotal(ls[..n], w, id);
      TotalSnoc(a, ls[n], w, id);
      assert ListContributions(ls, w) == a + Weighted(ls[n], Scores(ls[n]), w);
      ProductStep(w, ListScore(ls[..n], id), ScoreSum(ls[n], Scores(ls[n]), id), Total(a, id),
        Total(ListContributions(ls, w), id), ListScore(ls, id));
    }
  }

  /** The arithmetic of one step of `ListTotal`. */
  lemma ProductStep(w: real, x: real, y: real, tA: real, total: real, sum: real)
    requires tA == Product(w, x) && total == tA + Product(w, y) && sum == x + y
    ensures total == Product(w, sum)
  {
  }

  /** One more weighted list adds `w` times its own sum for the id. */
  lemma TotalSnoc(a: seq<Contribution>, hits: seq<Hit>, w: real, id: Id)
    ensures Total(a + Weighted(hits, Scores(hits), w), id) == Total(a, id) + Product(w, ScoreSum(hits, Scores(hits), id))
  {
    TotalAppend(a, Weighted(hits, Scores(hits), w), id);
    AddWeighted(Total(a + Weighted(hits, Scores(hits), w), id), Total(a, id), hits, w, id);
  }

  /** `TotalWeighted` with the rest of the sum kept abstract. */
  lemma AddWeighted(x: real, t: real, hits: seq<Hit>, w: real, id: Id)
    requires x == t + Total(Weighted(hits, Scores(hits), w), id)
    ensures x == t + Product(w, ScoreSum(hits, Scores(hits), id))
  {
    TotalWeighted(hits, Scores(hits), w, id);
  }

  /** An id is fused exactly when some list holds it, and it keeps the
      metadata of its first occurrence there. */
  lemma {:induction false} ListMentions(ls: seq<seq<Hit>>, w: real, id: Id)
    ensures Mentions(ListContributions(ls, w), id) <==> ListFirst(ls, id).Some?
    ensures ListFirst(ls, id).Some? ==> FirstHit(ListContributions(ls, w), id) == ListFirst(ls, id).value
  {
    if ls != [] {
      var n := |ls| - 1;
      var a, b := ListContributions(ls[..n], w), Weighted(ls[n], Scores(ls[n]), w);
      ListMentions(ls[..n], w, id);
      FirstHitWeighted(ls[n], Scores(ls[n]), w, id);
      MentionsAppendLists(a, b, id);
      if Mentions(a, id) || Mentions(b, id) {
        FirstHitAppend(a, b, id);
      }
    }
  }

  /** What an equal-weight fusion without rescaling returns: at most `top_k`
      distinct ids, each with the metadata of its first occurrence and `w`
      times its summed scores, in non-increasing order of those sums. */
  lemma ListFusedFacts(ls: seq<seq<Hit>>, w: real, topK: int)
    ensures var r := Fused(ListContributions(ls, w), topK);
      && (topK >= 0 ==> |r| <= topK)
      && Distinct(Ids(r))
      && (forall i | 0 <= i < |r| ::
        ListFirst(ls, r[i].id).Some? && r[i] == ListFirst(ls, r[i].id).value.(score := Product(w, ListScore(ls, r[i].id))))
      && (forall i, j | 0 <= i < j < |r| :: r[i].score >= r[j].score)
  {
    var cs := ListContributions(ls, w);
    var r := Fused(cs, topK);
    FusedFacts(cs, topK);
    RankedFacts(cs, topK);
    forall i | 0 <= i < |r|
      ensures ListFirst(ls, r[i].id).Some? && r[i] == ListFirst(ls, r[i].id).value.(score := Product(w, ListScore(ls, r[i].id)))
    {
      ListFusedItem(ls, w, topK, i);
    }
    assert forall i, j | 0 <= i < j < |r| :: Ids(r)[i] != Ids(r)[j];
  }

  /** One entry of such a fusion. */
  lemma ListFusedItem(ls: seq<seq<Hit>>, w: real, topK: int, i: nat)
    requires i < |Fused(ListContributions(ls, w), topK)|
    ensures var r := Fused(ListContributions(ls, w), topK);
      ListFirst(ls, r[i].id).Some? && r[i] == ListFirst(ls, r[i].id).value.(score := Product(w, ListScore(ls, r[i].id)))
  {
    var cs := ListContributions(ls, w);
    var r := Fused(cs, topK);
    FusedFacts(cs, topK);
    ListMentions(ls, w, r[i].id);
    ListTotal(ls, w, r[i].id);
  }

  /** `[:top_k]` drops only ids whose sums are no higher than any kept one,
      and drops none when `top_k` reaches the number of ids. */
  lemma ListFusedDrops(ls: seq<seq<Hit>>, w: real, topK: int, id: Id)
    requires ListFirst(ls, id).Some?
    ensures var r := Fused(ListContributions(ls, w), topK);
      id !in Ids(r) ==> forall i | 0 <= i < |r| :: Product(w, ListScore(ls, id)) <= r[i].score
    ensures topK >= |KeysOf(ListContributions(ls, w))| ==> id in Ids(Fused(ListContributions(ls, w), topK))
  {
    var cs := ListContributions(ls, w);
    var r := Fused(cs, topK);
    ListMentions(ls, w, id);
    ListTotal(ls, w, id);
    FusedFacts(cs, topK);
    RankedFacts(cs, topK);
    if id !in Ids(r) {
      assert id !in EntryIds(Ranked(cs, topK));
      forall i | 0 <= i < |r| ensures Product(w, ListScore(ls, id)) <= r[i].score {
        RankedOutranks(cs, topK, id, i);
      }
    }
    if topK >= |KeysOf(cs)| {
      RankedComplete(cs, topK, id);
    }
  }

  /** The loop over the lists: `if not results: continue`, then one visit
      per hit. */
  method VisitLists(ls: seq<seq<Hit>>, w: real) returns (cs: seq<Contribution>)
    ensures cs == ListContributions(ls, w)
  {
    cs := [];
    var i := 0;
    while i < |ls|
      invariant 0 <= i <= |ls|
      invariant cs == ListContributions(ls[..i], w)
    {
      var results := ls[i];
      assert ls[..i + 1][..i] == ls[..i];
      if results == [] {
        i := i + 1;
        continue;
      }
      cs := cs + Weighted(results, Scores(results), w);
      i := i + 1;
    }
    assert ls[..i] == ls;
  }

  // ------------------------------------------------------- method ensemble

  /** `_ensemble_all_methods` / `_ensemble_methods`: every method of the dict,
      an empty one included, weighs `1 / len(method_results)`. */
  function EnsembleMethods(ms: MethodResults, topK: int): seq<Hit> {
    if |ms| == 0 then []
    else Fused(ListContributions(Values(ms), 1.0 / (|ms| as real)), topK)
  }

  method EnsembleAllMethods(ms: MethodResults, topK: int) returns (r: seq<Hit>)
    ensures r == EnsembleMethods(ms, topK)
  {
    if |ms| == 0 {
      return [];
    }
    var w := 1.0 / (|ms| as real);
    var cs := VisitLists(Values(ms), w);
    r := Fuse(cs, topK);
  }

  /** An empty dict gives []; otherwise each fused id scores the mean of its
      scores over the dict's methods, a method that lacks it counting as 0. */
  lemma EnsembleMethodsFacts(ms: MethodResults, topK: int)
    ensures |ms| == 0 ==> EnsembleMethods(ms, topK) == []
    ensures var r := EnsembleMethods(ms, topK);
      && (topK >= 0 ==> |r| <= topK)
      && Distinct(Ids(r))
      && (forall i | 0 <= i < |r| ::
        ListFirst(Values(ms), r[i].id).Some?
        && r[i] == ListFirst(Values(ms), r[i].id).value.(score := ListScore(Values(ms), r[i].id) / (|ms| as real)))
      && (forall i, j | 0 <= i < j < |r| :: r[i].score >= r[j].score)
  {
    if |ms| > 0 {
      var w := 1.0 / (|ms| as real);
      var r := EnsembleMethods(ms, topK);
      ListFusedFacts(Values(ms), w, topK);
      forall i | 0 <= i < |r| ensures Product(w, ListScore(Values(ms), r[i].id)) == ListScore(Values(ms), r[i].id) / (|ms| as real) {
        DivAsTimes(ListScore(Values(ms), r[i].id), |ms| as real);
      }
    }
  }

  lemma DivAsTimes(x: real, d: real)
    requires d != 0.0
    ensures Product(1.0 / d, x) == x / d
  {
  }

  /** A method that found nothing still counts: it leaves every id's sum
      alone but lowers its weight from `1/n` to `1/(n+1)`. */
  lemma EmptyMethodDilutes(ms: MethodResults, name: string, id: Id)
    ensures ListScore(Values(ms + [(name, [])]), id) == ListScore(Values(ms), id)
    ensures var n := |ms| as real;
      Total(ListContributions(Values(ms + [(name, [])]), 1.0 / (n + 1.0)), id) == ListScore(Values(ms), id) / (n + 1.0)
  {
    var vs := Values(ms + [(name, [])]);
    assert vs[..|ms|] == Values(ms);
    assert ScoreSum(vs[|ms|], Scores(vs[|ms|]), id) == 0.0;
    ListTotal(vs, 1.0 / (|ms| as real + 1.0), id);
    DivAsTimes(ListScore(vs, id), |ms| as real + 1.0);
  }

  // ------------------------------------------------------ query ensemble

  /** The fusion of the Q0, Q1 and Q2 lists, weighing every score by 1/3
      (`r["score"] / 3.0`). */
  function CrossQueries(q0: seq<Hit>, q1: seq<Hit>, q2: seq<Hit>, topK: int): seq<Hit> {
    Fused(ListContributions([q0, q1, q2], 1.0 / 3.0), topK)
  }

  /** `_ensemble_cross_queries` and the variant loop of a multistage stage. */
  method EnsembleCrossQueries(q0: seq<Hit>, q1: seq<Hit>, q2: seq<Hit>, topK: int) returns (r: seq<Hit>)
    ensures r == CrossQueries(q0, q1, q2, topK)
  {
    var cs := VisitLists([q0, q1, q2], 1.0 / 3.0);
    r := Fuse(cs, topK);
  }

  /** An id's score in one variant list: the sum of its scores there, 0 when absent. */
  function VariantScore(q: seq<Hit>, id: Id): real {
    ScoreSum(q, Scores(q), id)
  }

  lemma CrossScore(q0: seq<Hit>, q1: seq<Hit>, q2: seq<Hit>, id: Id)
    ensures ListScore([q0, q1, q2], id) == VariantScore(q0, id) + VariantScore(q1, id) + VariantScore(q2, id)
  {
    assert [q0, q1, q2][..2] == [q0, q1];
    assert [q0, q1][..1] == [q0];
    assert [q0][..0] == [];
    assert ListScore([q0], id) == VariantScore(q0, id);
    assert ListScore([q0, q1], id) == ListScore([q0], id) + VariantScore(q1, id);
    assert ListScore([q0, q1, q2], id) == ListScore([q0, q1], id) + VariantScore(q2, id);
  }

  lemma CrossFirst(q0: seq<Hit>, q1: seq<Hit>, q2: seq<Hit>, id: Id)
    ensures ListFirst([q0, q1, q2], id) ==
      match FirstIndexOf(q0, id)
      case Some(i) => Some(q0[i])
      case None =>
        match FirstIndexOf(q1, id)
        case Some(i) => Some(q1[i])
        case None =>
          match FirstIndexOf(q2, id)
          case Some(i) => Some(q2[i])
          case None => None
  {
    assert [q0, q1, q2][..2] == [q0, q1];
    assert [q0, q1][..1] == [q0];
    assert [q0][..0] == [];
    assert ListFirst([q0], id) == match FirstIndexOf(q0, id) case Some(i) => Some(q0[i]) case None => None;
    assert ListFirst([q0, q1], id) == match ListFirst([q0], id)
      case Some(h) => Some(h)
      case None => match FirstIndexOf(q1, id) case Some(i) => Some(q1[i]) case None => None;
  }

  /** At most `top_k` distinct ids, each scored (s0 + s1 + s2) / 3 with an
      absent list counting 0, in non-increasing order, each with the metadata
      of the first variant list holding it. */
  lemma CrossQueriesFacts(q0: seq<Hit>, q1: seq<Hit>, q2: seq<Hit>, topK: int)
    ensures var r := CrossQueries(q0, q1, q2, topK);
      && (topK >= 0 ==> |r| <= topK)
      && Distinct(Ids(r))
      && (forall i | 0 <= i < |r| ::
        ListFirst([q0, q1, q2], r[i].id).Some?
        && r[i] == ListFirst([q0, q1, q2], r[i].id).value.(score :=
          (VariantScore(q0, r[i].id) + VariantScore(q1, r[i].id) + VariantScore(q2, r[i].id)) / 3.0))
      && (forall i, j | 0 <= i < j < |r| :: r[i].score >= r[j].score)
  {
    var r := CrossQueries(q0, q1, q2, topK);
    ListFusedFacts([q0, q1, q2], 1.0 / 3.0, topK);
    forall i | 0 <= i < |r|
      ensures Product(1.0 / 3.0, ListScore([q0, q1, q2], r[i].id)) ==
        (VariantScore(q0, r[i].id) + VariantScore(q1, r[i].id) + VariantScore(q2, r[i].id)) / 3.0
    {
      CrossScore(q0, q1, q2, r[i].id);
      DivAsTimes(ListScore([q0, q1, q2], r[i].id), 3.0);
    }
  }

  // ------------------------------------------------- multimodal ensemble

  /** `_ensemble_multimodal_results` / `_ensemble_multimodal`: the z-scores of
      the clip, beit3 and bigg lists weighed 0.25/0.50/0.25 and summed, the
      best `top_k` sums min-max rescaled. */
  function EnsembleMultimodal(m: ModelResults, num: Numerics, topK: int): seq<Hit> {
    FusedRescaled(Contributions(m, num), topK)
  }

  method EnsembleMultimodalResults(clip: seq<Hit>, beit3: seq<Hit>, bigg: seq<Hit>, topK: int, num: Numerics)
    returns (r: seq<Hit>)
    ensures r == EnsembleMultimodal(ModelResults(clip, beit3, bigg), num, topK)
  {
    var z := ModelContribution(clip, ClipWeight, num) + ModelContribution(beit3, Beit3Weight, num)
      + ModelContribution(bigg, BiggWeight, num);
    r := FuseRescaled(z, topK);
  }

  /** At most `top_k` entries, with distinct ids. */
  lemma MultimodalFacts(m: ModelResults, num: Numerics, topK: int)
    ensures var r := EnsembleMultimodal(m, num, topK);
      (topK >= 0 ==> |r| <= topK) && Distinct(Ids(r))
  {
    var cs := Contributions(m, num);
    var f := Fused(cs, topK);
    var r := EnsembleMultimodal(m, num, topK);
    FusedRescaledFacts(cs, topK);
    assert |r| == |f|;
    assert (topK >= 0 ==> |r| <= topK) by {
      FusedFacts(cs, topK);
      RankedFacts(cs, topK);
    }
    forall i, j | 0 <= i < j < |r| ensures Ids(r)[i] != Ids(r)[j] {
      assert r[i].id == f[i].id && r[j].id == f[j].id;
      FusedFacts(cs, topK);
    }
  }

  /** Each entry keeps the metadata of the id's first occurrence in clip,
      beit3, bigg order, with a rescaled score in [0, 1]. */
  lemma MultimodalItem(m: ModelResults, num: Numerics, topK: int, i: nat)
    requires i < |EnsembleMultimodal(m, num, topK)|
    ensures var r := EnsembleMultimodal(m, num, topK);
      && FirstModelHit(m, r[i].id).Some?
      && r[i] == FirstModelHit(m, r[i].id).value.(score := r[i].score)
      && 0.0 <= r[i].score <= 1.0
  {
    var cs := Contributions(m, num);
    var f := Fused(cs, topK);
    var r := EnsembleMultimodal(m, num, topK);
    FusedFacts(cs, topK);
    FusedRescaledFacts(cs, topK);
    assert r[i] == f[i].(score := r[i].score);
    ContributionsFirst(m, num, r[i].id);
  }

  /** The entries are ranked by their weighted z-score sums, and their
      rescaled scores follow that ranking. */
  lemma MultimodalOrder(m: ModelResults, num: Numerics, topK: int, i: nat, j: nat)
    requires i < j < |EnsembleMultimodal(m, num, topK)|
    ensures var r := EnsembleMultimodal(m, num, topK);
      FusedScore(m, num, r[i].id) >= FusedScore(m, num, r[j].id) && r[i].score >= r[j].score
  {
    var cs := Contributions(m, num);
    var f := Fused(cs, topK);
    var r := EnsembleMultimodal(m, num, topK);
    FusedFacts(cs, topK);
    FusedRescaledFacts(cs, topK);
    assert r[i].id == f[i].id && r[j].id == f[j].id;
    ContributionsTotal(m, num, r[i].id);
    ContributionsTotal(m, num, r[j].id);
  }

  /** When every kept id has the same fused sum, every score is 1.0. */
  lemma MultimodalEqualSums(m: ModelResults, num: Numerics, topK: int)
    requires var r := EnsembleMultimodal(m, num, topK);
      forall i | 0 <= i < |r| :: FusedScore(m, num, r[i].id) == FusedScore(m, num, r[0].id)
    ensures var r := EnsembleMultimodal(m, num, topK);
      forall i | 0 <= i < |r| :: r[i].score == 1.0
  {
    var cs := Contributions(m, num);
    var ranked := Ranked(cs, topK);
    var r := EnsembleMultimodal(m, num, topK);
    RankedFacts(cs, topK);
    FusedFacts(cs, topK);
    var scores := EntryScores(ranked);
    forall k | 0 <= k < |scores| ensures scores[k] == scores[0] {
      ContributionsTotal(m, num, ranked[k].id);
      ContributionsTotal(m, num, ranked[0].id);
      assert r[k].id == ranked[k].id && r[0].id == ranked[0].id;
    }
    forall i | 0 <= i < |r| ensures r[i].score == 1.0 {
      MinMaxConstant(scores, i);
    }
  }

  // ------------------------------------------------------------ filtering

  /** Keeping only some ids keeps the order of a fused list... */
  lemma {:induction false} KeepIdsOrdered(hits: seq<Hit>, keep: seq<string>)
    requires forall i, j | 0 <= i < j < |hits| :: hits[i].score >= hits[j].score
    ensures forall i, j | 0 <= i < j < |KeepIds(hits, keep)| :: KeepIds(hits, keep)[i].score >= KeepIds(hits, keep)[j].score
  {
    if hits != [] {
      var tail := KeepIds(hits[1..], keep);
      forall i, j | 0 <= i < j < |hits[1..]| ensures hits[1..][i].score >= hits[1..][j].score {
        assert hits[1..][i] == hits[i + 1] && hits[1..][j] == hits[j + 1];
      }
      KeepIdsOrdered(hits[1..], keep);
      forall i | 0 <= i < |hits[1..]| ensures hits[1..][i].score <= hits[0].score {
        assert hits[1..][i] == hits[i + 1];
      }
      KeepIdsBounded(hits[1..], keep, hits[0].score);
      var r := KeepIds(hits, keep);
      if IdStr(hits[0].id) in keep {
        assert r == [hits[0]] + tail;
        forall i, j | 0 <= i < j < |r| ensures r[i].score >= r[j].score {
          assert r[j] == tail[j - 1];
          if i > 0 {
            assert r[i] == tail[i - 1];
          }
        }
      } else {
        assert r == tail;
      }
    }
  }

  /** A bound on every score bounds every kept score. */
  lemma {:induction false} KeepIdsBounded(hits: seq<Hit>, keep: seq<string>, b: real)
    requires forall i | 0 <= i < |hits| :: hits[i].score <= b
    ensures forall i | 0 <= i < |KeepIds(hits, keep)| :: KeepIds(hits, keep)[i].score <= b
  {
    if hits != [] {
      var tail := KeepIds(hits[1..], keep);
      forall i | 0 <= i < |hits[1..]| ensures hits[1..][i].score <= b {
        assert hits[1..][i] == hits[i + 1];
      }
      KeepIdsBounded(hits[1..], keep, b);
      var r := KeepIds(hits, keep);
      if IdStr(hits[0].id) in keep {
        assert r == [hits[0]] + tail;
        forall i | 0 <= i < |r| ensures r[i].score <= b {
          if i > 0 {
            assert r[i] == tail[i - 1];
          }
        }
      } else {
        assert r == tail;
      }
    }
  }

  /** ...and its distinct ids. */
  lemma {:induction false} KeepIdsDistinct(hits: seq<Hit>, keep: seq<string>)
    requires Distinct(Ids(hits))
    ensures Distinct(Ids(KeepIds(hits, keep)))
  {
    if hits != [] {
      var tail := KeepIds(hits[1..], keep);
      assert Ids(hits[1..]) == Ids(hits)[1..];
      KeepIdsDistinct(hits[1..], keep);
      forall i | 0 <= i < |hits[1..]| ensures hits[1..][i].id != hits[0].id {
        assert Ids(hits)[0] != Ids(hits)[i + 1];
      }
      KeepIdsAvoid(hits[1..], keep, hits[0].id);
      var r := KeepIds(hits, keep);
      if IdStr(hits[0].id) in keep {
        assert r == [hits[0]] + tail;
        forall i, j | 0 <= i < j < |r| ensures Ids(r)[i] != Ids(r)[j] {
          assert r[j] == tail[j - 1];
          if i > 0 {
            assert r[i] == tail[i - 1];
            assert Ids(tail)[i - 1] != Ids(tail)[j - 1];
          }
        }
      } else {
        assert r == tail;
      }
    }
  }

  /** An id no hit carries is carried by no kept hit. */
  lemma {:induction false} KeepIdsAvoid(hits: seq<Hit>, keep: seq<string>, id: Id)
    requires forall i | 0 <= i < |hits| :: hits[i].id != id
    ensures forall i | 0 <= i < |KeepIds(hits, keep)| :: KeepIds(hits, keep)[i].id != id
  {
    if hits != [] {
      var tail := KeepIds(hits[1..], keep);
      forall i | 0 <= i < |hits[1..]| ensures hits[1..][i].id != id {
        assert hits[1..][i] == hits[i + 1];
      }
      KeepIdsAvoid(hits[1..], keep, id);
      var r := KeepIds(hits, keep);
      if IdStr(hits[0].id) in keep {
        assert r == [hits[0]] + tail;
        forall i | 0 <= i < |r| ensures r[i].id != id {
          if i > 0 {
            assert r[i] == tail[i - 1];
          }
        }
      } else {
        assert r == tail;
      }
    }
  }

  /** The kept hits are exactly the hits whose `str(id)` is kept. */
  lemma {:induction false} KeepIdsMembers(hits: seq<Hit>, keep: seq<string>)
    ensures forall h :: h in KeepIds(hits, keep) <==> h in hits && IdStr(h.id) in keep
  {
    if hits != [] {
      KeepIdsMembers(hits[1..], keep);
      assert hits == [hits[0]] + hits[1..];
    }
  }

  /** Ids that all pass keep the whole list. */
  lemma {:induction false} KeepIdsAll(hits: seq<Hit>, keep: seq<string>)
    requires forall i | 0 <= i < |hits| :: IdStr(hits[i].id) in keep
    ensures KeepIds(hits, keep) == hits
  {
    if hits != [] {
      KeepIdsAll(hits[1..], keep);
    }
  }
}
