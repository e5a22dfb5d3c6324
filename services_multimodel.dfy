/** The service-layer ensemble search: the query is embedded by CLIP, BEiT-3
    and BLIP-2, each embedding is searched in its own vector collection, each
    list is scaled by the configured method, and the scaled scores are summed
    per id with weights normalised to sum to one. */
module ServicesMultiModel {
  import opened Wrappers
  import opened Text
  import opened Json
  import opened Lists
  import opened Hits
  import opened Scale
  import opened Fusion
  import opened Mapping
  import Config
  import MM = MethodMultiModel

  /** The optional filter dict handed through to the vector store. */
  type Filters = Option<map<string, Json>>

  /** The embedding clients and the vector store, as functions of their inputs. */
  datatype Clients = Clients(
    clip: string -> MM.Embedding,
    beit3: string -> MM.Embedding,
    blip2: string -> MM.Embedding,
    qdrant: (string, MM.Vector, int, Filters) -> Result<seq<Hit>, Raised>)

  const ClipCollection: string := "clip"
  const Beit3Collection: string := "beit3"
  const Blip2Collection: string := "blip2"

  datatype Weights = Weights(clip: real, beit3: real, blip2: real)

  /** The weights the constructor keeps: proportional to the given ones and
      summing to one when their total is positive, a third each otherwise. */
  function Normalized(clip: real, beit3: real, blip2: real): (w: Weights)
    ensures var total := clip + beit3 + blip2;
      total > 0.0 ==>
        && w.clip + w.beit3 + w.blip2 == 1.0
        && w.clip * total == clip && w.beit3 * total == beit3 && w.blip2 * total == blip2
    ensures clip + beit3 + blip2 <= 0.0 ==> w == Weights(1.0 / 3.0, 1.0 / 3.0, 1.0 / 3.0)
  {
    var total := clip + beit3 + blip2;
    if total > 0.0 then
      DivAdd(clip, beit3, total);
      DivAdd(clip + beit3, blip2, total);
      Weights(clip / total, beit3 / total, blip2 / total)
    else Weights(1.0 / 3.0, 1.0 / 3.0, 1.0 / 3.0)
  }

  /** The settings' 1.0/2.0/1.0 normalise to 0.25/0.50/0.25. */
  lemma DefaultWeights()
    ensures Normalized(Config.ClipWeight, Config.Beit3Weight, Config.Blip2Weight) == Weights(0.25, 0.50, 0.25)
  {
    var w := Normalized(Config.ClipWeight, Config.Beit3Weight, Config.Blip2Weight);
    assert w.clip * 4.0 == 1.0 && w.beit3 * 4.0 == 2.0 && w.blip2 * 4.0 == 1.0;
  }

  /** `_search` closures: no embedding or a failing vector store gives []. */
  function SearchCollection(c: Clients, emb: Option<MM.Vector>, col: string, topK: int, filters: Filters)
    : (r: seq<Hit>)
    ensures emb.None? ==> r == []
    ensures emb.Some? && c.qdrant(col, emb.value, topK, filters).Failure? ==> r == []
    ensures emb.Some? && c.qdrant(col, emb.value, topK, filters).Success? ==>
      r == c.qdrant(col, emb.value, topK, filters).value
  {
    if emb.None? then []
    else match c.qdrant(col, emb.value, topK, filters)
      case Success(hits) => hits
      case Failure(_) => []
  }

  /** The three lists `search` fuses, in the order it accumulates them. */
  datatype ModelResults = ModelResults(clip: seq<Hit>, beit3: seq<Hit>, blip2: seq<Hit>)

  /** Every model is asked for twice the number of results returned. */
  function Retrieve(c: Clients, query: string, topK: int, filters: Filters): ModelResults {
    ModelResults(
      SearchCollection(c, MM.Wrap(c.clip(query)), ClipCollection, topK * 2, filters),
      SearchCollection(c, MM.Wrap(c.beit3(query)), Beit3Collection, topK * 2, filters),
      SearchCollection(c, MM.Wrap(c.blip2(query)), Blip2Collection, topK * 2, filters))
  }

  /** `scale_search_results(results, method)` as a value. */
  function ScaledHits(res: seq<Hit>, scaleMethod: string, num: Numerics): (r: seq<Hit>)
    ensures |r| == |res|
  {
    WithScores(res, ScaleScores(Scores(res), scaleMethod, num))
  }

  /** `scale_search_results` applied to each model's list. */
  function Scaled(m: ModelResults, scaleMethod: string, num: Numerics): (sc: ModelResults)
    ensures |sc.clip| == |m.clip| && |sc.beit3| == |m.beit3| && |sc.blip2| == |m.blip2|
  {
    ModelResults(ScaledHits(m.clip, scaleMethod, num), ScaledHits(m.beit3, scaleMethod, num),
      ScaledHits(m.blip2, scaleMethod, num))
  }

  /** One accumulation loop over a scaled list: each hit adds its score times the weight. */
  function ModelContribution(s: seq<Hit>, w: real): seq<Contribution> {
    Weighted(s, Scores(s), w)
  }

  /** The three loops in clip, beit3, blip2 order. */
  function Contributions(sc: ModelResults, w: Weights): seq<Contribution> {
    ModelContribution(sc.clip, w.clip) + ModelContribution(sc.beit3, w.beit3) + ModelContribution(sc.blip2, w.blip2)
  }

  /** The sum of an id's scores in one scaled list. */
  function ModelScore(s: seq<Hit>, id: Id): real {
    ScoreSum(s, Scores(s), id)
  }

  /** The sum of an id's scores in one scaled list, each times the weight. */
  function WeightedScore(s: seq<Hit>, w: real, id: Id): real {
    ScoreSum(s, Times(Scores(s), w), id)
  }

  /** The fused score of an id: its weighted scaled scores summed over the three lists. */
  function FusedScore(sc: ModelResults, w: Weights, id: Id): real {
    WeightedScore(sc.clip, w.clip, id) + WeightedScore(sc.beit3, w.beit3, id) + WeightedScore(sc.blip2, w.blip2, id)
  }

  /** The backend hit whose payload an id keeps: its first occurrence in clip, then beit3, then blip2. */
  function FirstModelHit(m: ModelResults, id: Id): Option<Hit> {
    match FirstIndexOf(m.clip, id)
    case Some(i) => Some(m.clip[i])
    case None =>
      match FirstIndexOf(m.beit3, id)
      case Some(i) => Some(m.beit3[i])
      case None =>
        match FirstIndexOf(m.blip2, id)
        case Some(i) => Some(m.blip2[i])
        case None => None
  }

  /** `search(query, top_k, filters)` with the given weights and scaling method. */
  function SearchResult(c: Clients, mapping: map<string, string>, num: Numerics, w: Weights, scaleMethod: string,
                        query: string, topK: Option<int>, filters: Filters): seq<Hit>
  {
    var k := topK.GetOr(Config.DefaultTopK);
    MM.PresentAll(Fused(Contributions(Scaled(Retrieve(c, query, k, filters), scaleMethod, num), w), k), mapping)
  }

  /** The names `search_single_model` accepts, with their embedding and collection. */
  function PickModel(c: Clients, query: string, name: string): (r: Option<(MM.Embedding, string)>)
    ensures r.None? <==> name != "clip" && name != "beit3" && name != "blip2"
  {
    if name == "clip" then Some((c.clip(query), ClipCollection))
    else if name == "beit3" then Some((c.beit3(query), Beit3Collection))
    else if name == "blip2" then Some((c.blip2(query), Blip2Collection))
    else None
  }

  /** The keyframe step of `search_single_model`: only a truthy id whose path
      resolves gets it; every other hit is left as it is. */
  function Annotated(h: Hit, mapping: map<string, string>): (r: Hit)
    ensures r.id == h.id && r.score == h.score && r.rest == h.rest
    ensures IdTruthy(h.id) && KeyframePath(mapping, h.id).Some? ==> r.keyframePath == KeyframePath(mapping, h.id)
    ensures !(IdTruthy(h.id) && KeyframePath(mapping, h.id).Some?) ==> r == h
  {
    if IdTruthy(h.id) && KeyframePath(mapping, h.id).Some? then h.(keyframePath := KeyframePath(mapping, h.id))
    else h
  }

  function AnnotatedAll(hs: seq<Hit>, mapping: map<string, string>): (r: seq<Hit>)
    ensures |r| == |hs| && forall i | 0 <= i < |hs| :: r[i] == Annotated(hs[i], mapping)
  {
    seq(|hs|, i requires 0 <= i < |hs| => Annotated(hs[i], mapping))
  }

  /** `search_single_model(query, model, top_k, filters)`: the embedding call
      is outside the `try`, so its exception (and the `.size` of a None reply)
      propagates; an empty embedding, an unknown name and a failing vector
      store give []. */
  function SingleModelResult(c: Clients, mapping: map<string, string>, num: Numerics, scaleMethod: string,
                             query: string, model: string, topK: Option<int>, filters: Filters)
    : Result<seq<Hit>, Raised>
  {
    var k := topK.GetOr(Config.DefaultTopK);
    match PickModel(c, query, Lower(model))
    case None => Success([])
    case Some(picked) =>
      match picked.0
      case EmbedRaised => Failure(Raised)
      case EmbedNone => Failure(Raised)
      case EmbedArray(rows) =>
        if MM.SizeZero(rows) then Success([])
        else match c.qdrant(picked.1, rows[0], k, filters)
          case Failure(_) => Success([])
          case Success(res) => Success(AnnotatedAll(ScaledHits(res, scaleMethod, num), mapping))
  }

  /** The ensemble search object: normalised weights and a scaling method. */
  class MultiModelSearch {
    var clipWeight: real
    var beit3Weight: real
    var blip2Weight: real
    var scaleMethod: string

    function CurrentWeights(): Weights
      reads this
    {
      Weights(clipWeight, beit3Weight, blip2Weight)
    }

    /** Omitted weights and method come from the settings. */
    constructor(clipWeight: Option<real>, beit3Weight: Option<real>, blip2Weight: Option<real>,
                scaleMethod: Option<string>)
      ensures CurrentWeights() == Normalized(clipWeight.GetOr(Config.ClipWeight),
        beit3Weight.GetOr(Config.Beit3Weight), blip2Weight.GetOr(Config.Blip2Weight))
      ensures this.scaleMethod == scaleMethod.GetOr(Config.ScoreScaleMethod)
    {
      var c := if clipWeight.Some? then clipWeight.value else Config.ClipWeight;
      var b := if beit3Weight.Some? then beit3Weight.value else Config.Beit3Weight;
      var l := if blip2Weight.Some? then blip2Weight.value else Config.Blip2Weight;
      var total := c + b + l;
      if total > 0.0 {
        this.clipWeight := c / total;
        this.beit3Weight := b / total;
        this.blip2Weight := l / total;
      } else {
        this.clipWeight := 1.0 / 3.0;
        this.beit3Weight := 1.0 / 3.0;
        this.blip2Weight := 1.0 / 3.0;
      }
      this.scaleMethod := if scaleMethod.Some? then scaleMethod.value else Config.ScoreScaleMethod;
    }

    method Search(c: Clients, mapping: map<string, string>, num: Numerics, query: string, topK: Option<int>,
                  filters: Filters)
      returns (r: seq<Hit>)
      ensures r == SearchResult(c, mapping, num, CurrentWeights(), scaleMethod, query, topK, filters)
    {
      var k := if topK.None? then Config.DefaultTopK else topK.value;
      var clipEmb, beit3Emb, blip2Emb := MM.Wrap(c.clip(query)), MM.Wrap(c.beit3(query)), MM.Wrap(c.blip2(query));
      var m := ModelResults(
        SearchCollection(c, clipEmb, ClipCollection, k * 2, filters),
        SearchCollection(c, beit3Emb, Beit3Collection, k * 2, filters),
        SearchCollection(c, blip2Emb, Blip2Collection, k * 2, filters));
      var clipScaled := ScaleSearchResults(m.clip, scaleMethod, num);
      var beit3Scaled := ScaleSearchResults(m.beit3, scaleMethod, num);
      var blip2Scaled := ScaleSearchResults(m.blip2, scaleMethod, num);
      assert clipScaled == ScaledHits(m.clip, scaleMethod, num);
      assert beit3Scaled == ScaledHits(m.beit3, scaleMethod, num);
      assert blip2Scaled == ScaledHits(m.blip2, scaleMethod, num);
      var cs := Weighted(clipScaled, Scores(clipScaled), clipWeight)
        + Weighted(beit3Scaled, Scores(beit3Scaled), beit3Weight)
        + Weighted(blip2Scaled, Scores(blip2Scaled), blip2Weight);
      var fused := Fuse(cs, k);
      r := MM.PresentLoop(fused, mapping);
    }

    method SearchSingleModel(c: Clients, mapping: map<string, string>, num: Numerics, query: string,
                             model: string, topK: Option<int>, filters: Filters)
      returns (r: Result<seq<Hit>, Raised>)
      ensures r == SingleModelResult(c, mapping, num, scaleMethod, query, model, topK, filters)
    {
      var k := if topK.None? then Config.DefaultTopK else topK.value;
      var picked := PickModel(c, query, Lower(model));
      if picked.None? {
        return Success([]);
      }
      var embedding := picked.value.0;
      if !embedding.EmbedArray? {
        return Failure(Raised);
      }
      if MM.SizeZero(embedding.rows) {
        return Success([]);
      }
      var found := c.qdrant(picked.value.1, embedding.rows[0], k, filters);
      if found.Failure? {
        return Success([]);
      }
      var scaled := ScaleSearchResults(found.value, scaleMethod, num);
      assert scaled == ScaledHits(found.value, scaleMethod, num);
      var annotated := AnnotateLoop(scaled, mapping);
      r := Success(annotated);
    }
  }

  /** The loop that sets `keyframe_path` on the scaled hits in place. */
  method AnnotateLoop(hits: seq<Hit>, mapping: map<string, string>) returns (r: seq<Hit>)
    ensures r == AnnotatedAll(hits, mapping)
  {
    var scaled := hits;
    var i := 0;
    while i < |scaled|
      invariant 0 <= i <= |scaled| == |hits|
      invariant forall j | 0 <= j < |scaled| :: scaled[j] == if j < i then Annotated(hits[j], mapping) else hits[j]
    {
      if IdTruthy(scaled[i].id) {
        var path := GetKeyframePath(mapping, scaled[i].id);
        if path.Some? {
          scaled := scaled[i := scaled[i].(keyframePath := path)];
        }
      }
      i := i + 1;
    }
    assert scaled == AnnotatedAll(hits, mapping);
    return scaled;
  }

  /** A list's weighted scores for an id sum to the weight times their plain sum. */
  lemma WeightedScoreFactor(s: seq<Hit>, w: real, id: Id)
    ensures WeightedScore(s, w, id) == w * ModelScore(s, id)
  {
    ScoreSumTimes(s, Scores(s), w, id);
  }

  /** The fused score of an id is the sum of what the three loops added for it. */
  lemma ContributionsTotal(sc: ModelResults, w: Weights, id: Id)
    ensures Total(Contributions(sc, w), id) == FusedScore(sc, w, id)
  {
    MM.TotalThree(ModelContribution(sc.clip, w.clip), ModelContribution(sc.beit3, w.beit3),
      ModelContribution(sc.blip2, w.blip2), id);
    TotalWeightedSum(sc.clip, Scores(sc.clip), w.clip, id);
    TotalWeightedSum(sc.beit3, Scores(sc.beit3), w.beit3, id);
    TotalWeightedSum(sc.blip2, Scores(sc.blip2), w.blip2, id);
  }

  /** A model without the id adds nothing to its fused score. */
  lemma AbsentModelAddsNothing(s: seq<Hit>, id: Id)
    requires FirstIndexOf(s, id).None?
    ensures ModelScore(s, id) == 0.0
  {
    ScoreSumAbsent(s, Scores(s), id);
  }

  /** Rescoring keeps the first position of every id and its payload. */
  lemma ScaledFirst(res: seq<Hit>, xs: seq<real>, w: real, id: Id)
    requires |xs| == |res|
    ensures var s := WithScores(res, xs);
      && (Mentions(ModelContribution(s, w), id) <==> FirstIndexOf(res, id).Some?)
      && (FirstIndexOf(res, id).Some? ==>
        FirstHit(ModelContribution(s, w), id) == s[FirstIndexOf(res, id).value]
        && s[FirstIndexOf(res, id).value].rest == res[FirstIndexOf(res, id).value].rest)
  {
    var s := WithScores(res, xs);
    FirstHitWeighted(s, Scores(s), w, id);
    var a, b := FirstIndexOf(s, id), FirstIndexOf(res, id);
    if a.Some? {
      assert res[a.value].id == id;
    }
    if b.Some? {
      assert s[b.value].id == id;
      assert a.Some? && !(a.value < b.value) && !(b.value < a.value) by {
        assert forall k | 0 <= k < |s| :: s[k].id == res[k].id;
      }
    }
  }

  /** The metadata of an id is the payload of its first occurrence in clip, beit3, blip2 order. */
  lemma ContributionsFirst(m: ModelResults, w: Weights, scaleMethod: string, num: Numerics, id: Id)
    ensures var cs := Contributions(Scaled(m, scaleMethod, num), w);
      && (Mentions(cs, id) <==> FirstModelHit(m, id).Some?)
      && (Mentions(cs, id) ==> FirstHit(cs, id).rest == FirstModelHit(m, id).value.rest)
  {
    var sc := Scaled(m, scaleMethod, num);
    var a := ModelContribution(sc.clip, w.clip);
    var c := ModelContribution(sc.beit3, w.beit3);
    var d := ModelContribution(sc.blip2, w.blip2);
    ScaledFirst(m.clip, ScaleScores(Scores(m.clip), scaleMethod, num), w.clip, id);
    ScaledFirst(m.beit3, ScaleScores(Scores(m.beit3), scaleMethod, num), w.beit3, id);
    ScaledFirst(m.blip2, ScaleScores(Scores(m.blip2), scaleMethod, num), w.blip2, id);
    MentionsAppendLists(a, c, id);
    MentionsAppendLists(a + c, d, id);
    if Mentions(a + c + d, id) {
      FirstHitAppend(a + c, d, id);
      if Mentions(a + c, id) {
        FirstHitAppend(a, c, id);
      }
    }
  }

  /** The presented list of an unrescaled fusion: at most `top_k` distinct
      ids, each with its summed score, its first hit's payload and its
      keyframe path, in non-increasing order of score. */
  lemma PresentedFused(cs: seq<Contribution>, k: int, mapping: map<string, string>)
    ensures var r := MM.PresentAll(Fused(cs, k), mapping);
      && (k >= 0 ==> |r| <= k)
      && Distinct(Ids(r))
      && (forall i | 0 <= i < |r| ::
        && Mentions(cs, r[i].id)
        && r[i].score == Total(cs, r[i].id)
        && r[i].keyframePath == KeyframePath(mapping, r[i].id)
        && r[i].rest == map["payload" := MM.PayloadOf(FirstHit(cs, r[i].id))])
      && (forall i, j | 0 <= i < j < |r| :: r[i].score >= r[j].score)
  {
    var f := Fused(cs, k);
    var r := MM.PresentAll(f, mapping);
    RankedFacts(cs, k);
    FusedFacts(cs, k);
    forall i | 0 <= i < |r|
      ensures r[i].id == f[i].id && r[i].score == f[i].score
      ensures r[i].rest == map["payload" := MM.PayloadOf(FirstHit(cs, r[i].id))]
    {
      assert r[i] == MM.Present(f[i], mapping);
    }
    assert Ids(r) == Ids(f);
  }

  /** What `search` returns: at most `top_k` distinct ids in non-increasing
      order of score, each scored by the weighted sum of its scaled scores and
      carrying the payload of its first occurrence and its keyframe path. */
  lemma SearchFacts(c: Clients, mapping: map<string, string>, num: Numerics, w: Weights, scaleMethod: string,
                    query: string, topK: Option<int>, filters: Filters)
    ensures var k := topK.GetOr(Config.DefaultTopK);
      var m := Retrieve(c, query, k, filters);
      var r := SearchResult(c, mapping, num, w, scaleMethod, query, topK, filters);
      && (k >= 0 ==> |r| <= k)
      && Distinct(Ids(r))
      && (forall i | 0 <= i < |r| ::
        && FirstModelHit(m, r[i].id).Some?
        && r[i].score == FusedScore(Scaled(m, scaleMethod, num), w, r[i].id)
        && r[i].keyframePath == KeyframePath(mapping, r[i].id)
        && r[i].rest == map["payload" := MM.PayloadOf(FirstModelHit(m, r[i].id).value)])
      && (forall i, j | 0 <= i < j < |r| :: r[i].score >= r[j].score)
  {
    var k := topK.GetOr(Config.DefaultTopK);
    var m := Retrieve(c, query, k, filters);
    var cs := Contributions(Scaled(m, scaleMethod, num), w);
    var r := SearchResult(c, mapping, num, w, scaleMethod, query, topK, filters);
    PresentedFused(cs, k, mapping);
    forall i | 0 <= i < |r|
      ensures FirstModelHit(m, r[i].id).Some?
      ensures r[i].score == FusedScore(Scaled(m, scaleMethod, num), w, r[i].id)
      ensures r[i].rest == map["payload" := MM.PayloadOf(FirstModelHit(m, r[i].id).value)]
    {
      ContributionsFirst(m, w, scaleMethod, num, r[i].id);
      ContributionsTotal(Scaled(m, scaleMethod, num), w, r[i].id);
    }
  }

  /** A model name other than clip, beit3 or blip2, in any case, gives []. */
  lemma SingleModelUnknown(c: Clients, mapping: map<string, string>, num: Numerics, scaleMethod: string,
                           query: string, model: string, topK: Option<int>, filters: Filters)
    requires Lower(model) != "clip" && Lower(model) != "beit3" && Lower(model) != "blip2"
    ensures SingleModelResult(c, mapping, num, scaleMethod, query, model, topK, filters) == Success([])
  {
  }

  /** The search router's request for "bigg" is an unknown name here. */
  lemma SingleModelBigg(c: Clients, mapping: map<string, string>, num: Numerics, scaleMethod: string,
                        query: string, model: string, topK: Option<int>, filters: Filters)
    requires model == "bigg"
    ensures SingleModelResult(c, mapping, num, scaleMethod, query, model, topK, filters) == Success([])
  {
    assert Lower(model)[0] == LowerChar(model[0]) == 'b';
    assert |Lower(model)| == 4;
    SingleModelUnknown(c, mapping, num, scaleMethod, query, model, topK, filters);
  }

  /** A failing vector store gives [], while a failing embedding client
      propagates. */
  lemma SingleModelErrors(c: Clients, mapping: map<string, string>, num: Numerics, scaleMethod: string,
                          query: string, model: string, topK: Option<int>, filters: Filters)
    requires PickModel(c, query, Lower(model)).Some?
    ensures var p := PickModel(c, query, Lower(model)).value;
      var r := SingleModelResult(c, mapping, num, scaleMethod, query, model, topK, filters);
      && (r.Failure? <==> p.0.EmbedRaised? || p.0.EmbedNone?)
      && (p.0.EmbedArray? && MM.SizeZero(p.0.rows) ==> r == Success([]))
      && ((p.0.EmbedArray? && !MM.SizeZero(p.0.rows)
          && c.qdrant(p.1, p.0.rows[0], topK.GetOr(Config.DefaultTopK), filters).Failure?) ==> r == Success([]))
  {
  }

  /** A successful single-model search keeps the backend's hits, order and
      length, replaces every score by its scaled value and sets the keyframe
      path of exactly the truthy ids the mapping resolves. */
  lemma SingleModelFacts(c: Clients, mapping: map<string, string>, num: Numerics, scaleMethod: string,
                         query: string, model: string, topK: Option<int>, filters: Filters)
    requires PickModel(c, query, Lower(model)).Some?
    requires var p := PickModel(c, query, Lower(model)).value;
      p.0.EmbedArray? && !MM.SizeZero(p.0.rows)
      && c.qdrant(p.1, p.0.rows[0], topK.GetOr(Config.DefaultTopK), filters).Success?
    ensures var p := PickModel(c, query, Lower(model)).value;
      var res := c.qdrant(p.1, p.0.rows[0], topK.GetOr(Config.DefaultTopK), filters).value;
      var r := SingleModelResult(c, mapping, num, scaleMethod, query, model, topK, filters);
      var s := ScaleScores(Scores(res), scaleMethod, num);
      && r.Success?
      && |r.value| == |res|
      && forall i | 0 <= i < |res| ::
        && r.value[i].id == res[i].id
        && r.value[i].rest == res[i].rest
        && r.value[i].score == s[i]
        && r.value[i].keyframePath == (if IdTruthy(res[i].id) && KeyframePath(mapping, res[i].id).Some?
          then KeyframePath(mapping, res[i].id) else res[i].keyframePath)
  {
  }
}
