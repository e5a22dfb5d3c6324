/** The three-model text search used by the multistage router: the query is
    embedded by CLIP, BEiT-3 and BigG, each embedding is searched in its own
    vector collection, each list is z-scored, the z-scores are summed per id
    with weights 0.25/0.50/0.25, and the best `top_k` sums are min-max
    rescaled. */
module MethodMultiModel {
  import opened Wrappers
  import opened Text
  import opened Json
  import opened Lists
  import opened Hits
  import opened Scale
  import opened Fusion
  import opened Mapping
  import Config

  type Vector = seq<real>

  /** What an embedding client's `extract_text_embedding` gives back: it
      raises, returns None, or returns an array of equal-length rows. */
  datatype Embedding = EmbedRaised | EmbedNone | EmbedArray(rows: seq<Vector>)

  /** `emb.size == 0` for an array of equal-length rows. */
  predicate SizeZero(rows: seq<Vector>) {
    rows == [] || rows[0] == []
  }

  /** The embedding servers and the vector store, as functions of their inputs. */
  datatype Backends = Backends(
    clip: string -> Embedding,
    beit3: string -> Embedding,
    bigg: string -> Embedding,
    qdrant: (string, Vector, int) -> Result<seq<Hit>, Raised>)

  const ClipWeight: real := 0.25
  const Beit3Weight: real := 0.50
  const BiggWeight: real := 0.25
  const ClipCollection: string := "clip"
  const Beit3Collection: string := "beit3"
  const BiggCollection: string := "bigg_clip"

  /** `_extract_embeddings.wrap`: the first row, or None when the client
      raised, returned None or returned an empty array. */
  function Wrap(e: Embedding): (r: Option<Vector>)
    ensures r.None? <==> e.EmbedRaised? || e.EmbedNone? || (e.EmbedArray? && SizeZero(e.rows))
    ensures r.Some? ==> e.EmbedArray? && e.rows != [] && r.value == e.rows[0]
  {
    match e
    case EmbedArray(rows) => if SizeZero(rows) then None else Some(rows[0])
    case _ => None
  }

  /** `_search`: no embedding or a failing vector store gives []. */
  function SearchCollection(b: Backends, emb: Option<Vector>, col: string, topK: int): (r: seq<Hit>)
    ensures emb.None? ==> r == []
    ensures emb.Some? ==> r == match b.qdrant(col, emb.value, topK)
      case Success(hits) => hits
      case Failure(_) => []
  {
    if emb.None? then []
    else match b.qdrant(col, emb.value, topK)
      case Success(hits) => hits
      case Failure(_) => []
  }

  /** The three lists `search` fuses, in the order it accumulates them. */
  datatype ModelResults = ModelResults(clip: seq<Hit>, beit3: seq<Hit>, bigg: seq<Hit>)

  /** Every model is asked for twice the number of results returned. */
  function Retrieve(b: Backends, query: string, topK: int): ModelResults {
    ModelResults(
      SearchCollection(b, Wrap(b.clip(query)), ClipCollection, topK * 2),
      SearchCollection(b, Wrap(b.beit3(query)), Beit3Collection, topK * 2),
      SearchCollection(b, Wrap(b.bigg(query)), BiggCollection, topK * 2))
  }

  /** `accumulate(res, z_score_normalize(scores), w)`. */
  function ModelContribution(res: seq<Hit>, w: real, num: Numerics): seq<Contribution> {
    Weighted(res, ZScores(Scores(res), num), w)
  }

  /** The three `accumulate` calls in clip, beit3, bigg order. */
  function Contributions(m: ModelResults, num: Numerics): seq<Contribution> {
    ModelContribution(m.clip, ClipWeight, num)
      + ModelContribution(m.beit3, Beit3Weight, num)
      + ModelContribution(m.bigg, BiggWeight, num)
  }

  /** An id's z-score under one model: the sum of its z-scores in that list. */
  function ModelZ(res: seq<Hit>, num: Numerics, id: Id): real {
    ScoreSum(res, ZScores(Scores(res), num), id)
  }

  /** The fused score of an id as the design states it. */
  function FusedScore(m: ModelResults, num: Numerics, id: Id): real {
    0.25 * ModelZ(m.clip, num, id) + 0.50 * ModelZ(m.beit3, num, id) + 0.25 * ModelZ(m.bigg, num, id)
  }

  /** The hit whose payload an id keeps: its first occurrence in clip, then beit3, then bigg. */
  function FirstModelHit(m: ModelResults, id: Id): Option<Hit> {
    match FirstIndexOf(m.clip, id)
    case Some(i) => Some(m.clip[i])
    case None =>
      match FirstIndexOf(m.beit3, id)
      case Some(i) => Some(m.beit3[i])
      case None =>
        match FirstIndexOf(m.bigg, id)
        case Some(i) => Some(m.bigg[i])
        case None => None
  }

  /** `r.get("payload", {})`. */
  function PayloadOf(h: Hit): Json {
    if "payload" in h.rest then h.rest["payload"] else JObj([])
  }

  /** The dict `search` emits for one ranked id. */
  function Present(h: Hit, mapping: map<string, string>): Hit {
    Hit(h.id, h.score, KeyframePath(mapping, h.id), map["payload" := PayloadOf(h)])
  }

  function PresentAll(hs: seq<Hit>, mapping: map<string, string>): (r: seq<Hit>)
    ensures |r| == |hs| && forall i | 0 <= i < |hs| :: r[i] == Present(hs[i], mapping)
  {
    seq(|hs|, i requires 0 <= i < |hs| => Present(hs[i], mapping))
  }

  /** `search(query, top_k)`. */
  function SearchResult(b: Backends, mapping: map<string, string>, num: Numerics, query: string, topK: Option<int>): seq<Hit> {
    var k := topK.GetOr(Config.DefaultTopK);
    PresentAll(FusedRescaled(Contributions(Retrieve(b, query, k), num), k), mapping)
  }

  /** The loop that builds the result dicts. */
  method PresentLoop(fused: seq<Hit>, mapping: map<string, string>) returns (r: seq<Hit>)
    ensures r == PresentAll(fused, mapping)
  {
    r := [];
    var i := 0;
    while i < |fused|
      invariant 0 <= i <= |fused|
      invariant r == PresentAll(fused[..i], mapping)
    {
      var path := GetKeyframePath(mapping, fused[i].id);
      r := r + [Hit(fused[i].id, fused[i].score, path, map["payload" := PayloadOf(fused[i])])];
      assert fused[..i + 1] == fused[..i] + [fused[i]];
      i := i + 1;
    }
    assert fused[..i] == fused;
  }

  method Search(b: Backends, mapping: map<string, string>, num: Numerics, query: string, topK: Option<int>)
    returns (r: seq<Hit>)
    ensures r == SearchResult(b, mapping, num, query, topK)
  {
    var k := if topK.None? then Config.DefaultTopK else topK.value;
    var clipEmb, beit3Emb, biggEmb := Wrap(b.clip(query)), Wrap(b.beit3(query)), Wrap(b.bigg(query));
    var clipRes := SearchCollection(b, clipEmb, ClipCollection, k * 2);
    var beit3Res := SearchCollection(b, beit3Emb, Beit3Collection, k * 2);
    var biggRes := SearchCollection(b, biggEmb, BiggCollection, k * 2);
    var cs := Contributions(ModelResults(clipRes, beit3Res, biggRes), num);
    var fused := FuseRescaled(cs, k);
    r := PresentLoop(fused, mapping);
  }

  lemma ModelTotal(res: seq<Hit>, w: real, num: Numerics, id: Id)
    ensures Total(ModelContribution(res, w, num), id) == w * ModelZ(res, num, id)
  {
    TotalWeighted(res, ZScores(Scores(res), num), w, id);
  }

  lemma TotalThree(a: seq<Contribution>, c: seq<Contribution>, d: seq<Contribution>, id: Id)
    ensures Total(a + c + d, id) == Total(a, id) + Total(c, id) + Total(d, id)
  {
    TotalAppend(a + c, d, id);
    TotalAppend(a, c, id);
  }

  /** A model's contribution to an id is its weight times its z-score sum. */
  lemma ContributionsTotal(m: ModelResults, num: Numerics, id: Id)
    ensures Total(Contributions(m, num), id) == FusedScore(m, num, id)
  {
    TotalThree(ModelContribution(m.clip, ClipWeight, num), ModelContribution(m.beit3, Beit3Weight, num),
      ModelContribution(m.bigg, BiggWeight, num), id);
    ModelTotal(m.clip, ClipWeight, num, id);
    ModelTotal(m.beit3, Beit3Weight, num, id);
    ModelTotal(m.bigg, BiggWeight, num, id);
  }

  /** A model that does not list the id adds nothing to its fused score. */
  lemma AbsentModelAddsNothing(res: seq<Hit>, num: Numerics, id: Id)
    requires FirstIndexOf(res, id).None?
    ensures ModelZ(res, num, id) == 0.0
  {
    ScoreSumAbsent(res, ZScores(Scores(res), num), id);
  }

  /** The metadata of an id is its first occurrence in clip, beit3, bigg order. */
  lemma ContributionsFirst(m: ModelResults, num: Numerics, id: Id)
    ensures Mentions(Contributions(m, num), id) <==> FirstModelHit(m, id).Some?
    ensures Mentions(Contributions(m, num), id) ==> FirstHit(Contributions(m, num), id) == FirstModelHit(m, id).value
  {
    var a := ModelContribution(m.clip, ClipWeight, num);
    var c := ModelContribution(m.beit3, Beit3Weight, num);
    var d := ModelContribution(m.bigg, BiggWeight, num);
    FirstHitWeighted(m.clip, ZScores(Scores(m.clip), num), ClipWeight, id);
    FirstHitWeighted(m.beit3, ZScores(Scores(m.beit3), num), Beit3Weight, id);
    FirstHitWeighted(m.bigg, ZScores(Scores(m.bigg), num), BiggWeight, id);
    MentionsAppendLists(a, c, id);
    MentionsAppendLists(a + c, d, id);
    if Mentions(a + c + d, id) {
      FirstHitAppend(a + c, d, id);
      if Mentions(a + c, id) {
        FirstHitAppend(a, c, id);
      }
    }
  }

  /** The presented list of any fusion: at most `top_k` distinct ids, each
      with its summed score rescaled into [0, 1], its first hit's payload and
      its keyframe path, in non-increasing order of the sums. */
  lemma PresentedFacts(cs: seq<Contribution>, k: int, mapping: map<string, string>)
    ensures var r := PresentAll(FusedRescaled(cs, k), mapping);
      && (k >= 0 ==> |r| <= k)
      && Distinct(Ids(r))
      && (forall i | 0 <= i < |r| ::
        && Mentions(cs, r[i].id)
        && 0.0 <= r[i].score <= 1.0
        && r[i].keyframePath == KeyframePath(mapping, r[i].id)
        && r[i].rest == map["payload" := PayloadOf(FirstHit(cs, r[i].id))])
      && (forall i, j | 0 <= i < j < |r| :: Total(cs, r[i].id) >= Total(cs, r[j].id))
  {
    RankedFacts(cs, k);
    FusedRescaledFacts(cs, k);
    FusedFacts(cs, k);
    PresentedItems(cs, k, mapping);
    PresentedOrder(cs, k, mapping);
  }

  /** Each presented item carries the ranked id, its first hit's payload and
      its keyframe path, with a score in [0, 1]. */
  lemma PresentedItems(cs: seq<Contribution>, k: int, mapping: map<string, string>)
    ensures var f, r := Fused(cs, k), PresentAll(FusedRescaled(cs, k), mapping);
      && |r| == |f|
      && forall i | 0 <= i < |r| ::
        && r[i].id == f[i].id
        && Mentions(cs, r[i].id)
        && 0.0 <= r[i].score <= 1.0
        && r[i].keyframePath == KeyframePath(mapping, r[i].id)
        && r[i].rest == map["payload" := PayloadOf(FirstHit(cs, r[i].id))]
  {
    var f := Fused(cs, k);
    var g := FusedRescaled(cs, k);
    var r := PresentAll(g, mapping);
    FusedFacts(cs, k);
    FusedRescaledFacts(cs, k);
    forall i | 0 <= i < |r|
      ensures r[i].id == f[i].id && Mentions(cs, r[i].id) && 0.0 <= r[i].score <= 1.0
      ensures r[i].keyframePath == KeyframePath(mapping, r[i].id)
      ensures r[i].rest == map["payload" := PayloadOf(FirstHit(cs, r[i].id))]
    {
      assert r[i] == Present(g[i], mapping);
      assert g[i] == f[i].(score := g[i].score);
      assert f[i] == FirstHit(cs, f[i].id).(score := Total(cs, f[i].id));
    }
  }

  /** The presented ids are distinct and come in non-increasing order of their sums. */
  lemma PresentedOrder(cs: seq<Contribution>, k: int, mapping: map<string, string>)
    ensures var r := PresentAll(FusedRescaled(cs, k), mapping);
      && Distinct(Ids(r))
      && forall i, j | 0 <= i < j < |r| :: Total(cs, r[i].id) >= Total(cs, r[j].id)
  {
    var f := Fused(cs, k);
    var r := PresentAll(FusedRescaled(cs, k), mapping);
    PresentedItems(cs, k, mapping);
    FusedFacts(cs, k);
    assert Ids(r) == Ids(f);
    forall i, j | 0 <= i < j < |r| ensures Total(cs, r[i].id) >= Total(cs, r[j].id) {
      assert f[i].score == Total(cs, f[i].id) && f[j].score == Total(cs, f[j].id);
    }
  }

  /** What `search` returns: at most `top_k` distinct ids, ranked by the
      weighted z-score sum, their sums min-max rescaled into [0, 1], each
      with its first-seen payload and its keyframe path. */
  lemma SearchFacts(b: Backends, mapping: map<string, string>, num: Numerics, query: string, topK: Option<int>)
    ensures var k := topK.GetOr(Config.DefaultTopK);
      var m := Retrieve(b, query, k);
      var r := SearchResult(b, mapping, num, query, topK);
      && (k >= 0 ==> |r| <= k)
      && Distinct(Ids(r))
      && (forall i | 0 <= i < |r| ::
        && FirstModelHit(m, r[i].id).Some?
        && 0.0 <= r[i].score <= 1.0
        && r[i].keyframePath == KeyframePath(mapping, r[i].id)
        && r[i].rest == map["payload" := PayloadOf(FirstModelHit(m, r[i].id).value)])
      && (forall i, j | 0 <= i < j < |r| :: FusedScore(m, num, r[i].id) >= FusedScore(m, num, r[j].id))
  {
    var k := topK.GetOr(Config.DefaultTopK);
    var m := Retrieve(b, query, k);
    var cs := Contributions(m, num);
    var r := SearchResult(b, mapping, num, query, topK);
    PresentedFacts(cs, k, mapping);
    forall i | 0 <= i < |r|
      ensures FirstModelHit(m, r[i].id).Some?
      ensures r[i].rest == map["payload" := PayloadOf(FirstModelHit(m, r[i].id).value)]
    {
      ContributionsFirst(m, num, r[i].id);
    }
    forall i, j | 0 <= i < j < |r| ensures FusedScore(m, num, r[i].id) >= FusedScore(m, num, r[j].id) {
      ContributionsTotal(m, num, r[i].id);
      ContributionsTotal(m, num, r[j].id);
    }
  }

  /** The embedding and collection `search_single_model` picks for a
      lower-cased model name; any other name picks nothing. */
  function PickModel(b: Backends, query: string, name: string): (r: Option<(Embedding, string)>)
    ensures r.None? <==> name != "clip" && name != "beit3" && name != "bigg"
  {
    if name == "clip" then Some((b.clip(query), ClipCollection))
    else if name == "beit3" then Some((b.beit3(query), Beit3Collection))
    else if name == "bigg" then Some((b.bigg(query), BiggCollection))
    else None
  }

  /** `res` with every score replaced by its min-max value and the keyframe path set. */
  function Rescored(res: seq<Hit>, mapping: map<string, string>): (r: seq<Hit>)
    ensures |r| == |res|
  {
    var s := MinMax(Scores(res));
    seq(|res|, i requires 0 <= i < |res| => res[i].(score := s[i], keyframePath := KeyframePath(mapping, res[i].id)))
  }

  /** `search_single_model(query, model, top_k)`: the embedding step's
      failures give [], the vector store's failure propagates. */
  function SingleModelResult(b: Backends, mapping: map<string, string>, query: string, model: string, topK: Option<int>)
    : Result<seq<Hit>, Raised>
  {
    var k := topK.GetOr(Config.DefaultTopK);
    match PickModel(b, query, Lower(model))
    case None => Success([])
    case Some(picked) =>
      match Wrap(picked.0)
      case None => Success([])
      case Some(emb) =>
        match b.qdrant(picked.1, emb, k)
        case Failure(e) => Failure(e)
        case Success(res) => Success(Rescored(res, mapping))
  }

  method SearchSingleModel(b: Backends, mapping: map<string, string>, query: string, model: string, topK: Option<int>)
    returns (r: Result<seq<Hit>, Raised>)
    ensures r == SingleModelResult(b, mapping, query, model, topK)
  {
    var k := if topK.None? then Config.DefaultTopK else topK.value;
    var picked := PickModel(b, query, Lower(model));
    if picked.None? {
      return Success([]);
    }
    var emb := Wrap(picked.value.0);
    if emb.None? {
      return Success([]);
    }
    var found := b.qdrant(picked.value.1, emb.value, k);
    if found.Failure? {
      return Failure(found.error);
    }
    var res := found.value;
    var scaled := MinMax(Scores(res));
    var out: seq<Hit> := [];
    var i := 0;
    while i < |res|
      invariant 0 <= i <= |res|
      invariant |out| == i
      invariant forall j | 0 <= j < i :: out[j] == Rescored(res, mapping)[j]
    {
      var path := GetKeyframePath(mapping, res[i].id);
      out := out + [res[i].(score := scaled[i], keyframePath := path)];
      i := i + 1;
    }
    assert out == Rescored(res, mapping);
    return Success(out);
  }

  /** A model name other than clip, beit3 or bigg, in any case, gives []. */
  lemma SingleModelUnknown(b: Backends, mapping: map<string, string>, query: string, model: string, topK: Option<int>)
    requires Lower(model) != "clip" && Lower(model) != "beit3" && Lower(model) != "bigg"
    ensures SingleModelResult(b, mapping, query, model, topK) == Success([])
  {
  }

  /** A failed or empty embedding gives [] without asking the vector store. */
  lemma SingleModelNoEmbedding(b: Backends, mapping: map<string, string>, query: string, model: string, topK: Option<int>)
    requires PickModel(b, query, Lower(model)).Some?
    requires var e := PickModel(b, query, Lower(model)).value.0;
      e.EmbedRaised? || e.EmbedNone? || (e.EmbedArray? && SizeZero(e.rows))
    ensures SingleModelResult(b, mapping, query, model, topK) == Success([])
  {
  }

  /** The rescored list keeps the backend's hits, order and length, changes
      only score and keyframe path, puts every score in [0, 1] and keeps the
      score order. */
  lemma RescoredFacts(res: seq<Hit>, mapping: map<string, string>)
    ensures Ids(Rescored(res, mapping)) == Ids(res)
    ensures forall i | 0 <= i < |res| ::
      && Rescored(res, mapping)[i].rest == res[i].rest
      && Rescored(res, mapping)[i].keyframePath == KeyframePath(mapping, res[i].id)
      && 0.0 <= Rescored(res, mapping)[i].score <= 1.0
    ensures forall i, j | 0 <= i < |res| && 0 <= j < |res| && res[i].score <= res[j].score ::
      Rescored(res, mapping)[i].score <= Rescored(res, mapping)[j].score
  {
    var r := Rescored(res, mapping);
    var s := Scores(res);
    forall i | 0 <= i < |res| ensures 0.0 <= r[i].score <= 1.0 {
      MinMaxInUnit(s, i);
    }
    forall i, j | 0 <= i < |res| && 0 <= j < |res| && res[i].score <= res[j].score
      ensures r[i].score <= r[j].score
    {
      MinMaxMonotone(s, i, j);
    }
  }
}
