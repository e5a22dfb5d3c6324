/** The multi-stage search endpoint: every stage of a request has its own
    query, toggles and object filter; its query is translated, reworded
    twice, searched three times with the enabled methods, and the three
    result lists are fused. The stage results may then be aligned in time.
    The search services are parameters; the three variant searches and the
    stages, which the endpoint runs concurrently, are run here one after the
    other in argument order. */
module Multistage {
  import opened Wrappers
  import opened Text
  import opened Json
  import opened Lists
  import opened Hits
  import opened Scale
  import opened MethodMultiModel
  import opened Ensembles
  import opened Translator
  import opened QueryAugmentation
  import opened ObjectFilter
  import opened Temporal
  import opened TemporalTuples
  import Config

  // ------------------------------------------------------------- records

  /** One stage of a request (`StageQuerySection`); `stage_name` and
      `ocr_text` may be None or empty. */
  datatype Stage = Stage(stageId: int, stageName: Option<string>, query: string, ocrText: Option<string>,
                         toggles: map<string, bool>, selectedObjects: Option<seq<string>>)

  /** `MultiStageSearchRequest`. */
  datatype Request = Request(stages: seq<Stage>, topK: Option<int>, mode: Option<string>, temporalMode: Option<string>)

  /** `StageSearchResult`; `enabled_methods` is `list(set)`, whose order
      Python leaves open, so it is kept as the set. */
  datatype StageResult = StageResult(
    stageId: int, stageName: string, queryOriginal: string,
    query0: string, query1: string, query2: string,
    results: seq<Hit>, total: int, enabledMethods: set<Method>,
    perMethod: Option<MethodResults>,
    q0Results: Option<seq<Hit>>, q1Results: Option<seq<Hit>>, q2Results: Option<seq<Hit>>)

  /** The `temporal_aggregation` entry of the response. */
  datatype TemporalResult =
    | ById(entries: seq<Aggregated>, total: int)
    | ByTuple(tuples: seq<TemporalTuples.Tuple>, total: int)

  /** `MultiStageSearchResponse`. */
  datatype Response = Response(stages: seq<StageResult>, totalStages: int, temporal: Option<TemporalResult>)

  datatype HttpError = HttpError(status: int, detail: string)

  const NoStagesDetail: string := "At least one stage is required"
  const ServerErrorDetail: string := "Multi-stage search error: "

  /** The instance `get_asr_ocr_search()` returns: its ASR and OCR searches
      catch every error and return [] instead. */
  datatype TranscriptSearch = TranscriptSearch(asr: (string, int) -> seq<Hit>, ocr: (string, int) -> seq<Hit>)

  /** The services a stage searches with. The image-caption search may
      raise (its vector store does). `asrOcr` is `get_asr_ocr_search()`:
      the instance, or the error its constructor re-raises when
      Elasticsearch cannot be reached. `bm25` is `ScoreScaler.bm25_scale`.
      `objectFilter` is the `ObjectFilterSearch()` constructor, which raises
      when the index cannot be reached. */
  datatype Services = Services(
    backends: Backends, mapping: map<string, string>, num: Numerics,
    ic: (string, int) -> Result<seq<Hit>, Raised>,
    asrOcr: Result<TranscriptSearch, Raised>,
    bm25: seq<real> -> seq<real>,
    google: string -> Result<string, Raised>,
    gemini: string -> Result<string, Raised>,
    loads: string -> Option<Json>,
    objectFilter: Result<IndexSearch, Raised>)

  // ------------------------------------------------------------ toggles

  /** `stage.toggles.get(k)` is truthy. */
  predicate On(toggles: map<string, bool>, k: string) {
    k in toggles && toggles[k]
  }

  /** The four search methods a stage can enable. */
  datatype Method = Multimodal | Caption | Asr | Ocr

  /** The name a method carries in `enabled_methods` and in the per-method dict. */
  function MethodName(m: Method): string {
    match m
    case Multimodal => "multimodal"
    case Caption => "ic"
    case Asr => "asr"
    case Ocr => "ocr"
  }

  /** The methods a stage's toggles enable. */
  function EnabledMethods(toggles: map<string, bool>): (r: set<Method>)
    ensures Multimodal in r <==> On(toggles, "multimodal") || On(toggles, "multiModal")
    ensures Caption in r <==> On(toggles, "ic") || On(toggles, "caption")
    ensures Asr in r <==> On(toggles, "asr")
    ensures Ocr in r <==> On(toggles, "ocr")
  {
    (if On(toggles, "multimodal") || On(toggles, "multiModal") then {Multimodal} else {})
    + (if On(toggles, "ic") || On(toggles, "caption") then {Caption} else {})
    + (if On(toggles, "asr") then {Asr} else {})
    + (if On(toggles, "ocr") then {Ocr} else {})
  }

  /** No method is enabled exactly when none of the six toggles is on. */
  lemma NothingEnabled(toggles: map<string, bool>)
    ensures EnabledMethods(toggles) == {} <==>
      !On(toggles, "multimodal") && !On(toggles, "multiModal") && !On(toggles, "ic")
      && !On(toggles, "caption") && !On(toggles, "asr") && !On(toggles, "ocr")
  {
    var r := EnabledMethods(toggles);
    if r != {} {
      var m :| m in r;
    }
  }

  /** The set built by `enabled_methods.add` under each toggle test. */
  method CollectEnabled(toggles: map<string, bool>) returns (enabled: set<Method>)
    ensures enabled == EnabledMethods(toggles)
  {
    enabled := {};
    if On(toggles, "multimodal") || On(toggles, "multiModal") {
      enabled := enabled + {Multimodal};
    }
    if On(toggles, "ic") || On(toggles, "caption") {
      enabled := enabled + {Caption};
    }
    if On(toggles, "asr") {
      enabled := enabled + {Asr};
    }
    if On(toggles, "ocr") {
      enabled := enabled + {Ocr};
    }
  }

  /** 1 when `m` is enabled, else 0. */
  function Flag(enabled: set<Method>, m: Method): nat {
    if m in enabled then 1 else 0
  }

  /** `len(enabled_methods)` counts the enabled methods one by one. */
  lemma EnabledCount(enabled: set<Method>)
    ensures |enabled| == Flag(enabled, Multimodal) + Flag(enabled, Caption) + Flag(enabled, Asr) + Flag(enabled, Ocr)
  {
    var e1 := enabled - {Multimodal};
    var e2 := e1 - {Caption};
    var e3 := e2 - {Asr};
    var e4 := e3 - {Ocr};
    RemoveOne(enabled, Multimodal);
    RemoveOne(e1, Caption);
    RemoveOne(e2, Asr);
    RemoveOne(e3, Ocr);
    forall m | m in enabled ensures m in {Multimodal, Caption, Asr, Ocr} {
      match m
      case Multimodal =>
      case Caption =>
      case Asr =>
      case Ocr =>
    }
    assert e4 == {};
  }

  lemma RemoveOne(s: set<Method>, m: Method)
    ensures |s - {m}| == |s| - Flag(s, m)
    ensures Flag(s - {m}, Multimodal) == (if m == Multimodal then 0 else Flag(s, Multimodal))
    ensures Flag(s - {m}, Caption) == (if m == Caption then 0 else Flag(s, Caption))
    ensures Flag(s - {m}, Asr) == (if m == Asr then 0 else Flag(s, Asr))
    ensures Flag(s - {m}, Ocr) == (if m == Ocr then 0 else Flag(s, Ocr))
  {
    if m in s {
      assert s == (s - {m}) + {m};
    }
  }

  // ---------------------------------------------------- score overwrites

  /** `for r, scaled in zip(results, scaled_scores): r["score"] = scaled`:
      the first `min(len(results), len(scaled))` scores are replaced, any
      further hit keeps its own. */
  function ScoresOverwritten(hits: seq<Hit>, scores: seq<real>): (r: seq<Hit>)
    ensures |r| == |hits| && Ids(r) == Ids(hits)
    ensures forall i | 0 <= i < |hits| ::
      (r[i].id == hits[i].id && r[i].keyframePath == hits[i].keyframePath && r[i].rest == hits[i].rest)
    ensures forall i | 0 <= i < |hits| && i < |scores| :: r[i].score == scores[i]
    ensures forall i | |scores| <= i < |hits| :: r[i] == hits[i]
  {
    seq(|hits|, i requires 0 <= i < |hits| => if i < |scores| then hits[i].(score := scores[i]) else hits[i])
  }

  /** With as many scores as hits, the overwrite is a plain score replacement. */
  lemma ScoresOverwrittenSameLength(hits: seq<Hit>, scores: seq<real>)
    requires |scores| == |hits|
    ensures ScoresOverwritten(hits, scores) == WithScores(hits, scores)
    ensures Scores(ScoresOverwritten(hits, scores)) == scores
  {
    WithScoresKeeps(hits, scores);
  }

  method OverwriteScores(hits: seq<Hit>, scores: seq<real>) returns (r: seq<Hit>)
    ensures r == ScoresOverwritten(hits, scores)
  {
    r := hits;
    var i := 0;
    while i < |hits| && i < |scores|
      invariant 0 <= i <= |hits| && i <= |scores|
      invariant |r| == |hits|
      invariant forall j | 0 <= j < |hits| :: r[j] == if j < i then hits[j].(score := scores[j]) else hits[j]
    {
      r := r[i := r[i].(score := scores[i])];
      i := i + 1;
    }
  }

  /** The image-caption scores, min-max rescaled when there are any. */
  function CaptionScaled(hits: seq<Hit>): seq<Hit> {
    if hits == [] then hits else ScoresOverwritten(hits, MinMax(Scores(hits)))
  }

  /** An ASR or OCR list with its scores passed through `bm25_scale`. */
  function Bm25Scaled(hits: seq<Hit>, bm25: seq<real> -> seq<real>): seq<Hit> {
    if hits == [] then hits else ScoresOverwritten(hits, bm25(Scores(hits)))
  }

  /** The caption list keeps its hits in order and gets scores in [0, 1]. */
  lemma CaptionScaledFacts(hits: seq<Hit>)
    ensures |CaptionScaled(hits)| == |hits| && Ids(CaptionScaled(hits)) == Ids(hits)
    ensures forall i | 0 <= i < |hits| :: 0.0 <= CaptionScaled(hits)[i].score <= 1.0
    ensures Scores(CaptionScaled(hits)) == MinMax(Scores(hits))
  {
    if hits != [] {
      ScoresOverwrittenSameLength(hits, MinMax(Scores(hits)));
      forall i | 0 <= i < |hits| ensures 0.0 <= CaptionScaled(hits)[i].score <= 1.0 {
        MinMaxInUnit(Scores(hits), i);
      }
    }
  }

  // --------------------------------------------------- one query variant

  /** The three per-model lists of a query, each fetched with `top_k * 2`. */
  function ModelLists(sv: Services, query: string, topK: int): Result<ModelResults, Raised> {
    match SingleModelResult(sv.backends, sv.mapping, query, "clip", Some(topK * 2))
    case Failure(e) => Failure(e)
    case Success(clip) =>
      match SingleModelResult(sv.backends, sv.mapping, query, "beit3", Some(topK * 2))
      case Failure(e) => Failure(e)
      case Success(beit3) =>
        match SingleModelResult(sv.backends, sv.mapping, query, "bigg", Some(topK * 2))
        case Failure(e) => Failure(e)
        case Success(bigg) => Success(ModelResults(clip, beit3, bigg))
  }

  /** The multimodal entries of `per_method_results`: the fused list, and in
      mode "A" also the first `top_k` of each model's own list. */
  function MultimodalEntries(m: ModelResults, num: Numerics, topK: int, mode: string): MethodResults {
    [("multimodal", EnsembleMultimodal(m, num, topK))]
    + (if mode == "A" then [("clip", PyPrefix(m.clip, topK)), ("beit3", PyPrefix(m.beit3, topK)),
                             ("bigg", PyPrefix(m.bigg, topK))]
       else [])
  }

  /** Step 1, the multimodal entries, when that search is enabled. */
  function ModelPart(sv: Services, query: string, enabled: set<Method>, topK: int, mode: string): Result<MethodResults, Raised> {
    if Multimodal !in enabled then Success([])
    else match ModelLists(sv, query, topK)
      case Failure(e) => Failure(e)
      case Success(m) => Success(MultimodalEntries(m, sv.num, topK, mode))
  }

  /** Step 2, the image-caption entry, when that search is enabled. */
  function CaptionPart(sv: Services, query: string, enabled: set<Method>, topK: int): Result<MethodResults, Raised> {
    if Caption !in enabled then Success([])
    else match sv.ic(query, topK)
      case Failure(e) => Failure(e)
      case Success(hits) => Success([("ic", CaptionScaled(hits))])
  }

  /** Steps 3 and 4, the ASR and OCR entries, the latter searched with the
      OCR text; either step needs the transcript search instance, and fails
      with its constructor's error. */
  function TranscriptPart(sv: Services, query: string, enabled: set<Method>, topK: int, ocrQuery: string)
    : Result<MethodResults, Raised>
  {
    if Asr !in enabled && Ocr !in enabled then Success([])
    else match sv.asrOcr
      case Failure(e) => Failure(e)
      case Success(t) => Success(TranscriptEntries(t, sv.bm25, query, enabled, topK, ocrQuery))
  }

  /** The ASR and OCR entries, given the transcript search instance. */
  function TranscriptEntries(t: TranscriptSearch, bm25: seq<real> -> seq<real>, query: string, enabled: set<Method>,
                             topK: int, ocrQuery: string): MethodResults
  {
    (if Asr in enabled then [("asr", Bm25Scaled(t.asr(query, topK), bm25))] else [])
    + (if Ocr in enabled then [("ocr", Bm25Scaled(t.ocr(ocrQuery, topK), bm25))] else [])
  }

  /** `per_method_results` of one query, or the error a search raised. */
  function PerMethod(sv: Services, query: string, enabled: set<Method>, topK: int, mode: string, ocrQuery: string)
    : Result<MethodResults, Raised>
  {
    match ModelPart(sv, query, enabled, topK, mode)
    case Failure(e) => Failure(e)
    case Success(a) =>
      match CaptionPart(sv, query, enabled, topK)
      case Failure(e) => Failure(e)
      case Success(b) =>
        match TranscriptPart(sv, query, enabled, topK, ocrQuery)
        case Failure(e) => Failure(e)
        case Success(c) => Success(a + b + c)
  }

  /** When Elasticsearch cannot be reached, a query with ASR or OCR enabled
      fails, whatever the other searches give. */
  lemma TranscriptsUnreachable(sv: Services, query: string, enabled: set<Method>, topK: int, mode: string,
                               ocrQuery: string)
    requires (Asr in enabled || Ocr in enabled) && sv.asrOcr.Failure?
    ensures TranscriptPart(sv, query, enabled, topK, ocrQuery) == Failure(sv.asrOcr.error)
    ensures PerMethod(sv, query, enabled, topK, mode, ocrQuery).Failure?
  {
  }

  /** `final_results`: several enabled methods are fused, a single one is
      returned as it is. */
  function FinalResults(per: MethodResults, enabled: set<Method>, topK: int): seq<Hit> {
    if |enabled| > 1 then EnsembleMethods(per, topK)
    else if per == [] then []
    else per[0].1
  }

  /** `_search_single_query_sync`: `(per_method_results, final_results)`. */
  function SingleQuery(sv: Services, query: string, enabled: set<Method>, topK: int, mode: string, ocrQuery: string)
    : Result<(MethodResults, seq<Hit>), Raised>
  {
    match PerMethod(sv, query, enabled, topK, mode, ocrQuery)
    case Failure(e) => Failure(e)
    case Success(per) => Success((per, FinalResults(per, enabled, topK)))
  }

  /** The names the per-method dict holds, in insertion order. */
  function EntryNames(enabled: set<Method>, mode: string): seq<string> {
    ModelNamesFor(Multimodal in enabled, mode) + TextNamesFor(Caption in enabled, Asr in enabled, Ocr in enabled)
  }

  function ModelNamesFor(on: bool, mode: string): seq<string> {
    if on then ["multimodal"] + (if mode == "A" then ["clip", "beit3", "bigg"] else []) else []
  }

  function TextNamesFor(ic: bool, asr: bool, ocr: bool): seq<string> {
    (if ic then ["ic"] else []) + (if asr then ["asr"] else []) + (if ocr then ["ocr"] else [])
  }

  /** The dict holds one entry per enabled method, in the order multimodal,
      ic, asr, ocr, plus the three model lists after multimodal in mode "A";
      so when several methods are enabled, each of its entries weighs
      1 / (n + 3) in mode "A" with multimodal on and 1 / n otherwise. */
  lemma PerMethodShape(sv: Services, query: string, enabled: set<Method>, topK: int, mode: string, ocrQuery: string)
    requires PerMethod(sv, query, enabled, topK, mode, ocrQuery).Success?
    ensures var per := PerMethod(sv, query, enabled, topK, mode, ocrQuery).value;
      && Names(per) == EntryNames(enabled, mode)
      && |per| == |enabled| + (if mode == "A" && Multimodal in enabled then 3 else 0)
  {
    PerMethodNames(sv, query, enabled, topK, mode, ocrQuery);
    EntryNamesCount(enabled, mode);
  }

  lemma PerMethodNames(sv: Services, query: string, enabled: set<Method>, topK: int, mode: string, ocrQuery: string)
    requires PerMethod(sv, query, enabled, topK, mode, ocrQuery).Success?
    ensures Names(PerMethod(sv, query, enabled, topK, mode, ocrQuery).value) == EntryNames(enabled, mode)
  {
    var a := ModelPart(sv, query, enabled, topK, mode).value;
    var b := CaptionPart(sv, query, enabled, topK).value;
    var c := TranscriptPart(sv, query, enabled, topK, ocrQuery).value;
    assert PerMethod(sv, query, enabled, topK, mode, ocrQuery).value == a + b + c;
    ModelNames(sv, query, enabled, topK, mode);
    TextNames(sv, query, enabled, topK, ocrQuery);
    NamesThree(a, b, c);
  }

  lemma NamesThree(a: MethodResults, b: MethodResults, c: MethodResults)
    ensures Names(a + b + c) == Names(a) + Names(b + c)
  {
    NamesAppend(a, b + c);
    assert a + b + c == a + (b + c);
  }

  lemma EntryNamesCount(enabled: set<Method>, mode: string)
    ensures |EntryNames(enabled, mode)| == |enabled| + (if mode == "A" && Multimodal in enabled then 3 else 0)
  {
    EnabledCount(enabled);
  }

  lemma ModelNames(sv: Services, query: string, enabled: set<Method>, topK: int, mode: string)
    requires ModelPart(sv, query, enabled, topK, mode).Success?
    ensures Names(ModelPart(sv, query, enabled, topK, mode).value) == ModelNamesFor(Multimodal in enabled, mode)
  {
    if Multimodal in enabled {
      MultimodalEntriesNames(ModelLists(sv, query, topK).value, sv.num, topK, mode);
    }
  }

  lemma MultimodalEntriesNames(m: ModelResults, num: Numerics, topK: int, mode: string)
    ensures Names(MultimodalEntries(m, num, topK, mode)) == ModelNamesFor(true, mode)
  {
    EntryListNames(EnsembleMultimodal(m, num, topK), PyPrefix(m.clip, topK), PyPrefix(m.beit3, topK),
                   PyPrefix(m.bigg, topK), mode);
  }

  lemma EntryListNames(fused: seq<Hit>, clip: seq<Hit>, beit3: seq<Hit>, bigg: seq<Hit>, mode: string)
    ensures Names([("multimodal", fused)] + (if mode == "A" then [("clip", clip), ("beit3", beit3), ("bigg", bigg)] else []))
      == ModelNamesFor(true, mode)
  {
  }

  lemma TextNames(sv: Services, query: string, enabled: set<Method>, topK: int, ocrQuery: string)
    requires CaptionPart(sv, query, enabled, topK).Success? && TranscriptPart(sv, query, enabled, topK, ocrQuery).Success?
    ensures Names(CaptionPart(sv, query, enabled, topK).value + TranscriptPart(sv, query, enabled, topK, ocrQuery).value) ==
      TextNamesFor(Caption in enabled, Asr in enabled, Ocr in enabled)
  {
    var x := CaptionPart(sv, query, enabled, topK).value;
    if Asr in enabled || Ocr in enabled {
      var t := sv.asrOcr.value;
      var y: MethodResults := if Asr in enabled then [("asr", Bm25Scaled(t.asr(query, topK), sv.bm25))] else [];
      var z: MethodResults := if Ocr in enabled then [("ocr", Bm25Scaled(t.ocr(ocrQuery, topK), sv.bm25))] else [];
      assert TranscriptPart(sv, query, enabled, topK, ocrQuery).value == y + z;
      NamesAppend(x, y);
      NamesAppend(x + y, z);
      assert x + (y + z) == x + y + z;
    } else {
      assert x + TranscriptPart(sv, query, enabled, topK, ocrQuery).value == x;
    }
  }

  lemma NamesAppend(a: MethodResults, b: MethodResults)
    ensures Names(a + b) == Names(a) + Names(b)
  {
  }

  // --------------------------------------------------------- one stage

  /** `stage.stage_name or f"Stage {stage.stage_id}"`. */
  function StageName(stage: Stage): string {
    if stage.stageName.Some? && stage.stageName.value != [] then stage.stageName.value
    else "Stage " + IntToStr(stage.stageId)
  }

  /** `mode in ["A", "M"]`: the modes that report the variant lists. */
  predicate KeepsVariants(mode: string) {
    mode == "A" || mode == "M"
  }

  /** The result of a stage that enables no method. */
  function EmptyStage(stage: Stage, mode: string): StageResult {
    StageResult(stage.stageId, StageName(stage), stage.query, stage.query, stage.query, stage.query, [], 0, {},
                if KeepsVariants(mode) then Some([]) else None, None, None, None)
  }

  /** `query_text`: the stage's query, translated when ASR is not enabled
      and the query reads as Vietnamese. */
  function QueryText(sv: Services, stage: Stage, enabled: set<Method>): string {
    if Asr !in enabled && IsVietnamese(Some(stage.query)) then Translate(stage.query, sv.google) else stage.query
  }

  /** `stage.ocr_text or query_text`. */
  function OcrQuery(stage: Stage, queryText: string): string {
    if stage.ocrText.Some? && stage.ocrText.value != [] then stage.ocrText.value else queryText
  }

  /** `stage.selected_objects and len(stage.selected_objects) > 0`. */
  predicate HasObjects(stage: Stage) {
    stage.selectedObjects.Some? && stage.selectedObjects.value != []
  }

  /** The searches of one query variant: `(per_method_results, final_results)`. */
  type Searched = (MethodResults, seq<Hit>)

  /** A stage result with the fields every searched stage shares. */
  function Outcome(stage: Stage, mode: string, enabled: set<Method>, q0: string, q1: string, q2: string,
                   results: seq<Hit>, per0: MethodResults, variants: Option<(seq<Hit>, seq<Hit>, seq<Hit>)>): StageResult
  {
    StageResult(stage.stageId, StageName(stage), stage.query, q0, q1, q2, results, |results|, enabled,
                if mode == "M" then Some(per0) else None,
                if variants.Some? then Some(variants.value.0) else None,
                if variants.Some? then Some(variants.value.1) else None,
                if variants.Some? then Some(variants.value.2) else None)
  }

  /** What a stage does once its three variants are searched: the variant
      fusion, then the object filter when objects are selected. */
  function StageFrom(sv: Services, stage: Stage, topK: int, mode: string, enabled: set<Method>,
                     q0: string, q1: string, q2: string, r0: Searched, r1: Searched, r2: Searched)
    : Result<StageResult, Raised>
  {
    var fused := CrossQueries(r0.1, r1.1, r2.1, topK);
    if HasObjects(stage) then
      match sv.objectFilter
      case Failure(e) => Failure(e)
      case Success(search) =>
        var keep := Filter(IdStrs(fused), stage.selectedObjects.value, search);
        Success(Outcome(stage, mode, enabled, q0, q1, q2, KeepIds(fused, keep), r0.0,
          if KeepsVariants(mode) then Some((KeepIds(r0.1, keep), KeepIds(r1.1, keep), KeepIds(r2.1, keep))) else None))
    else
      Success(Outcome(stage, mode, enabled, q0, q1, q2, fused, r0.0,
        if KeepsVariants(mode) then Some((PyPrefix(r0.1, topK), PyPrefix(r1.1, topK), PyPrefix(r2.1, topK))) else None))
  }

  /** The search of one variant `q` of a stage, with the stage's enabled
      methods and OCR text. */
  function VariantSearch(sv: Services, stage: Stage, topK: int, mode: string, q: string): Result<Searched, Raised> {
    var enabled := EnabledMethods(stage.toggles);
    SingleQuery(sv, q, enabled, topK, mode, OcrQuery(stage, QueryText(sv, stage, enabled)))
  }

  /** `_process_single_stage`. */
  function ProcessStage(sv: Services, stage: Stage, topK: int, mode: string): Result<StageResult, Raised> {
    var enabled := EnabledMethods(stage.toggles);
    if enabled == {} then Success(EmptyStage(stage, mode))
    else
      var q0 := QueryText(sv, stage, enabled);
      var qs := AugmentQuery(q0, sv.gemini, sv.loads);
      match VariantSearch(sv, stage, topK, mode, q0)
      case Failure(e) => Failure(e)
      case Success(r0) =>
        match VariantSearch(sv, stage, topK, mode, qs.0)
        case Failure(e) => Failure(e)
        case Success(r1) =>
          match VariantSearch(sv, stage, topK, mode, qs.1)
          case Failure(e) => Failure(e)
          case Success(r2) => StageFrom(sv, stage, topK, mode, enabled, q0, qs.0, qs.1, r0, r1, r2)
  }

  /** A stage whose toggles enable nothing returns no results, with its
      query as all three variants and no search made. */
  lemma NoMethodStage(sv: Services, stage: Stage, topK: int, mode: string)
    requires !On(stage.toggles, "multimodal") && !On(stage.toggles, "multiModal") && !On(stage.toggles, "ic")
      && !On(stage.toggles, "caption") && !On(stage.toggles, "asr") && !On(stage.toggles, "ocr")
    ensures ProcessStage(sv, stage, topK, mode) == Success(EmptyStage(stage, mode))
    ensures var r := EmptyStage(stage, mode);
      && r.results == [] && r.total == 0 && r.enabledMethods == {}
      && r.query0 == stage.query && r.query1 == stage.query && r.query2 == stage.query
      && (r.perMethod == if KeepsVariants(mode) then Some([]) else None)
  {
    NothingEnabled(stage.toggles);
  }

  /** A stage that enables some method searches its three variants: the
      translated query and its two rewordings, with the same OCR text; the
      first search that raises fails the stage. */
  lemma SearchedStage(sv: Services, stage: Stage, topK: int, mode: string)
    requires EnabledMethods(stage.toggles) != {}
    ensures var enabled := EnabledMethods(stage.toggles);
      var q0 := QueryText(sv, stage, enabled);
      var qs := AugmentQuery(q0, sv.gemini, sv.loads);
      var s0, s1, s2 := VariantSearch(sv, stage, topK, mode, q0), VariantSearch(sv, stage, topK, mode, qs.0),
                        VariantSearch(sv, stage, topK, mode, qs.1);
      && (s0.Success? && s1.Success? && s2.Success? ==>
           ProcessStage(sv, stage, topK, mode) ==
             StageFrom(sv, stage, topK, mode, enabled, q0, qs.0, qs.1, s0.value, s1.value, s2.value))
      && (s0.Failure? || s1.Failure? || s2.Failure? ==> ProcessStage(sv, stage, topK, mode).Failure?)
  {
  }

  /** With ASR enabled, or a query that does not read as Vietnamese, the
      first variant is the stage's query itself. */
  lemma QueryTextUntranslated(sv: Services, stage: Stage, enabled: set<Method>)
    requires Asr in enabled || !IsVietnamese(Some(stage.query))
    ensures QueryText(sv, stage, enabled) == stage.query
  {
  }

  /** Without selected objects, the stage results are the variant fusion:
      at most `top_k` distinct ids, each scored (s0 + s1 + s2) / 3 and
      carrying the metadata of the first variant list holding it, in
      non-increasing order. */
  lemma UnfilteredStage(sv: Services, stage: Stage, topK: int, mode: string, enabled: set<Method>,
                        q0: string, q1: string, q2: string, r0: Searched, r1: Searched, r2: Searched)
    requires !HasObjects(stage)
    ensures StageFrom(sv, stage, topK, mode, enabled, q0, q1, q2, r0, r1, r2).Success?
    ensures var r := StageFrom(sv, stage, topK, mode, enabled, q0, q1, q2, r0, r1, r2).value;
      && r.results == CrossQueries(r0.1, r1.1, r2.1, topK)
      && r.total == |r.results|
      && (topK >= 0 ==> |r.results| <= topK)
      && Distinct(Ids(r.results))
      && (forall i, j | 0 <= i < j < |r.results| :: r.results[i].score >= r.results[j].score)
      && (forall i | 0 <= i < |r.results| ::
            r.results[i].score == (VariantScore(r0.1, r.results[i].id) + VariantScore(r1.1, r.results[i].id)
                                   + VariantScore(r2.1, r.results[i].id)) / 3.0)
      && (r.q0Results == if KeepsVariants(mode) then Some(PyPrefix(r0.1, topK)) else None)
      && (r.perMethod == if mode == "M" then Some(r0.0) else None)
  {
    CrossQueriesFacts(r0.1, r1.1, r2.1, topK);
  }

  /** With selected objects, the stage keeps exactly the fused items whose
      `str(id)` the filter returns, in fused order, so still ranked and
      distinct; in mode "A" or "M" each variant list is filtered the same way. */
  lemma FilteredStage(sv: Services, stage: Stage, topK: int, mode: string, enabled: set<Method>,
                      q0: string, q1: string, q2: string, r0: Searched, r1: Searched, r2: Searched)
    requires HasObjects(stage) && sv.objectFilter.Success?
    ensures StageFrom(sv, stage, topK, mode, enabled, q0, q1, q2, r0, r1, r2).Success?
    ensures var fused := CrossQueries(r0.1, r1.1, r2.1, topK);
      var keep := Filter(IdStrs(fused), stage.selectedObjects.value, sv.objectFilter.value);
      var r := StageFrom(sv, stage, topK, mode, enabled, q0, q1, q2, r0, r1, r2).value;
      && r.results == KeepIds(fused, keep)
      && r.total == |r.results|
      && (forall h :: h in r.results <==> h in fused && IdStr(h.id) in keep)
      && (forall i, j | 0 <= i < j < |r.results| :: r.results[i].score >= r.results[j].score)
      && Distinct(Ids(r.results))
      && (r.q0Results == if KeepsVariants(mode) then Some(KeepIds(r0.1, keep)) else None)
  {
    var fused := CrossQueries(r0.1, r1.1, r2.1, topK);
    var keep := Filter(IdStrs(fused), stage.selectedObjects.value, sv.objectFilter.value);
    CrossQueriesFacts(r0.1, r1.1, r2.1, topK);
    KeepIdsMembers(fused, keep);
    KeepIdsOrdered(fused, keep);
    KeepIdsDistinct(fused, keep);
  }

  /** When the object index cannot be reached, a stage with selected
      objects fails. */
  lemma FilterUnavailable(sv: Services, stage: Stage, topK: int, mode: string, enabled: set<Method>,
                          q0: string, q1: string, q2: string, r0: Searched, r1: Searched, r2: Searched)
    requires HasObjects(stage) && sv.objectFilter.Failure?
    ensures StageFrom(sv, stage, topK, mode, enabled, q0, q1, q2, r0, r1, r2).Failure?
  {
  }

  /** When Elasticsearch cannot be reached, a stage with ASR or OCR enabled fails. */
  lemma StageTranscriptsUnreachable(sv: Services, stage: Stage, topK: int, mode: string)
    requires Asr in EnabledMethods(stage.toggles) || Ocr in EnabledMethods(stage.toggles)
    requires sv.asrOcr.Failure?
    ensures ProcessStage(sv, stage, topK, mode).Failure?
  {
    var enabled := EnabledMethods(stage.toggles);
    var q0 := QueryText(sv, stage, enabled);
    TranscriptsUnreachable(sv, q0, enabled, topK, mode, OcrQuery(stage, q0));
  }

  // ---------------------------------------------------------- endpoint

  /** `request.top_k or settings.DEFAULT_TOP_K`. */
  function TopKOf(topK: Option<int>): (k: int)
    ensures k != 0
    ensures topK.None? || topK == Some(0) ==> k == Config.DefaultTopK
    ensures topK.Some? && topK.value != 0 ==> k == topK.value
  {
    if topK.Some? && topK.value != 0 then topK.value else Config.DefaultTopK
  }

  /** `(request.mode or "E").upper()`. */
  function ModeOf(mode: Option<string>): string {
    Upper(if mode.Some? && mode.value != [] then mode.value else "E")
  }

  /** The stages of a request processed in order by `process`; the first
      that raises fails them all. */
  function RunStages(process: Stage -> Result<StageResult, Raised>, stages: seq<Stage>): Result<seq<StageResult>, Raised>
    decreases |stages|
  {
    if stages == [] then Success([])
    else match RunStages(process, stages[..|stages| - 1])
      case Failure(e) => Failure(e)
      case Success(rs) =>
        match process(stages[|stages| - 1])
        case Failure(e) => Failure(e)
        case Success(r) => Success(rs + [r])
  }

  /** The stages of a request, each processed with the request's `top_k` and mode. */
  function AllStages(sv: Services, stages: seq<Stage>, topK: int, mode: string): Result<seq<StageResult>, Raised> {
    RunStages(StageProcess(sv, topK, mode), stages)
  }

  /** Processing one stage with the request's `top_k` and mode. */
  function StageProcess(sv: Services, topK: int, mode: string): Stage -> Result<StageResult, Raised> {
    stage => ProcessStage(sv, stage, topK, mode)
  }

  /** `[stage.results for stage in stage_results]`. */
  function ResultLists(rs: seq<StageResult>): (r: seq<seq<Hit>>)
    ensures |r| == |rs| && forall i | 0 <= i < |rs| :: r[i] == rs[i].results
  {
    seq(|rs|, i requires 0 <= i < |rs| => rs[i].results)
  }

  /** The temporal aggregation `temporal_mode` asks for, if any. */
  function TemporalOf(temporalMode: Option<string>, lists: seq<seq<Hit>>, topK: int): Option<TemporalResult> {
    if temporalMode == Some("id") then
      var aggregated := Aggregation(lists);
      Some(ById(PyPrefix(aggregated, topK), |aggregated|))
    else if temporalMode == Some("tuple") then
      var tuples := TupleResult(lists, topK);
      Some(ByTuple(tuples, |tuples|))
    else None
  }

  /** `search_multistage`. `augmentor` is what `get_query_augmentor()`
      gives: the augmentor or the error its constructor raised. Every error
      other than the 400 becomes a 500; its message text is not modelled. */
  function SearchMultistage(sv: Services, request: Request, augmentor: Result<Augmentor, InitError>)
    : Result<Response, HttpError>
  {
    var topK := TopKOf(request.topK);
    var mode := ModeOf(request.mode);
    if request.stages == [] then Failure(HttpError(400, NoStagesDetail))
    else if augmentor.Failure? then Failure(HttpError(500, ServerErrorDetail))
    else match AllStages(sv, request.stages, topK, mode)
      case Failure(_) => Failure(HttpError(500, ServerErrorDetail))
      case Success(rs) => Success(Response(rs, |rs|, TemporalOf(request.temporalMode, ResultLists(rs), topK)))
  }

  /** Each stage's result is its own processing, in request order; the
      stages fail together exactly when one of them fails. */
  lemma {:induction false} RunStagesFacts(process: Stage -> Result<StageResult, Raised>, stages: seq<Stage>)
    ensures RunStages(process, stages).Success? <==> forall i | 0 <= i < |stages| :: process(stages[i]).Success?
    ensures RunStages(process, stages).Success? ==>
      |RunStages(process, stages).value| == |stages|
      && forall i | 0 <= i < |stages| :: process(stages[i]) == Success(RunStages(process, stages).value[i])
    decreases |stages|
  {
    if stages != [] {
      var init := stages[..|stages| - 1];
      RunStagesFacts(process, init);
      assert forall i | 0 <= i < |init| :: init[i] == stages[i];
    }
  }

  lemma AllStagesFacts(sv: Services, stages: seq<Stage>, topK: int, mode: string)
    ensures AllStages(sv, stages, topK, mode).Success? <==>
      forall i | 0 <= i < |stages| :: ProcessStage(sv, stages[i], topK, mode).Success?
    ensures AllStages(sv, stages, topK, mode).Success? ==>
      |AllStages(sv, stages, topK, mode).value| == |stages|
      && forall i | 0 <= i < |stages| :: ProcessStage(sv, stages[i], topK, mode) == Success(AllStages(sv, stages, topK, mode).value[i])
  {
    RunStagesFacts(StageProcess(sv, topK, mode), stages);
  }

  /** A request without stages is refused with 400, before anything else. */
  lemma NoStages(sv: Services, request: Request, augmentor: Result<Augmentor, InitError>)
    requires request.stages == []
    ensures SearchMultistage(sv, request, augmentor) == Failure(HttpError(400, NoStagesDetail))
  {
  }

  /** The endpoint answers a request with stages either with a 500, or with
      one result per stage in request order, each that stage's processing
      with the effective `top_k` and mode. */
  lemma StagesAnswered(sv: Services, request: Request, augmentor: Result<Augmentor, InitError>)
    requires request.stages != []
    ensures SearchMultistage(sv, request, augmentor).Failure? ==>
      SearchMultistage(sv, request, augmentor).error == HttpError(500, ServerErrorDetail)
    ensures SearchMultistage(sv, request, augmentor).Success? <==>
      augmentor.Success? &&
      forall i | 0 <= i < |request.stages| ::
        ProcessStage(sv, request.stages[i], TopKOf(request.topK), ModeOf(request.mode)).Success?
    ensures SearchMultistage(sv, request, augmentor).Success? ==>
      var r := SearchMultistage(sv, request, augmentor).value;
      && |r.stages| == |request.stages| && r.totalStages == |request.stages|
      && forall i | 0 <= i < |request.stages| ::
        ProcessStage(sv, request.stages[i], TopKOf(request.topK), ModeOf(request.mode)) == Success(r.stages[i])
  {
    AllStagesFacts(sv, request.stages, TopKOf(request.topK), ModeOf(request.mode));
  }

  /** When Elasticsearch cannot be reached, a request one of whose stages
      enables ASR or OCR gets a 500. */
  lemma TranscriptsUnreachableEndpoint(sv: Services, request: Request, augmentor: Result<Augmentor, InitError>, i: nat)
    requires i < |request.stages| && sv.asrOcr.Failure?
    requires Asr in EnabledMethods(request.stages[i].toggles) || Ocr in EnabledMethods(request.stages[i].toggles)
    ensures SearchMultistage(sv, request, augmentor) == Failure(HttpError(500, ServerErrorDetail))
  {
    StageTranscriptsUnreachable(sv, request.stages[i], TopKOf(request.topK), ModeOf(request.mode));
    StagesAnswered(sv, request, augmentor);
  }

  /** With the augmentor constructor as written, every request with stages
      gets a 500. */
  lemma AsWrittenEndpointFails(sv: Services, request: Request, settings: GeminiSettings)
    requires request.stages != []
    ensures SearchMultistage(sv, request, NewAugmentorAsWritten(settings)) == Failure(HttpError(500, ServerErrorDetail))
  {
    AsWrittenAlwaysRaises(settings);
  }

  /** Temporal mode "id" gives the first `top_k` aggregated entries, each id
      once and ranked, with the full count as total; "tuple" gives at most
      `top_k` tuples, ranked, each a valid temporal tuple of the stage
      results; any other mode gives no aggregation. */
  lemma TemporalDispatch(temporalMode: Option<string>, lists: seq<seq<Hit>>, topK: int)
    ensures temporalMode == Some("id") ==>
      var t := TemporalOf(temporalMode, lists, topK);
      && t.Some? && t.value.ById?
      && t.value.total == |Aggregation(lists)|
      && (topK >= 0 ==> |t.value.entries| == if topK <= |Aggregation(lists)| then topK else |Aggregation(lists)|)
      && (forall i | 0 <= i < |t.value.entries| :: t.value.entries[i] == Aggregation(lists)[i])
    ensures temporalMode == Some("tuple") ==>
      var t := TemporalOf(temporalMode, lists, topK);
      && t.Some? && t.value.ByTuple?
      && t.value.tuples == TupleResult(lists, topK) && t.value.total == |t.value.tuples|
      && |t.value.tuples| <= (if topK > 0 then topK else 0)
      && (forall x | x in t.value.tuples :: TemporalTuple(lists, x))
      && SortedDesc(t.value.tuples, TotalScore)
    ensures temporalMode != Some("id") && temporalMode != Some("tuple") ==> TemporalOf(temporalMode, lists, topK).None?
  {
    PyPrefixFacts(Aggregation(lists), topK);
    TupleResultFacts(lists, topK);
  }

  // ----------------------------------------------------------- methods

  /** The three `search_single_model` calls, each with `top_k * 2`. */
  method SearchModels(sv: Services, query: string, topK: int) returns (r: Result<ModelResults, Raised>)
    ensures r == ModelLists(sv, query, topK)
  {
    var clip := SearchSingleModel(sv.backends, sv.mapping, query, "clip", Some(topK * 2));
    if clip.Failure? {
      return Failure(clip.error);
    }
    var beit3 := SearchSingleModel(sv.backends, sv.mapping, query, "beit3", Some(topK * 2));
    if beit3.Failure? {
      return Failure(beit3.error);
    }
    var bigg := SearchSingleModel(sv.backends, sv.mapping, query, "bigg", Some(topK * 2));
    if bigg.Failure? {
      return Failure(bigg.error);
    }
    return Success(ModelResults(clip.value, beit3.value, bigg.value));
  }

  /** Step 1 of `_search_single_query_sync`. */
  method SearchModelPart(sv: Services, query: string, enabled: set<Method>, topK: int, mode: string)
    returns (r: Result<MethodResults, Raised>)
    ensures r == ModelPart(sv, query, enabled, topK, mode)
  {
    var per: MethodResults := [];
    if Multimodal in enabled {
      var found := SearchModels(sv, query, topK);
      if found.Failure? {
        return Failure(found.error);
      }
      var m := found.value;
      assert ModelPart(sv, query, enabled, topK, mode) == Success(MultimodalEntries(m, sv.num, topK, mode));
      var fused := EnsembleMultimodalResults(m.clip, m.beit3, m.bigg, topK, sv.num);
      assert fused == EnsembleMultimodal(m, sv.num, topK);
      per := [("multimodal", fused)];
      if mode == "A" {
        per := per + [("clip", PyPrefix(m.clip, topK)), ("beit3", PyPrefix(m.beit3, topK)), ("bigg", PyPrefix(m.bigg, topK))];
      }
      assert per == MultimodalEntries(m, sv.num, topK, mode);
    }
    return Success(per);
  }

  /** Step 2: the caption scores min-max rescaled in place when there are any. */
  method SearchCaptionPart(sv: Services, query: string, enabled: set<Method>, topK: int)
    returns (r: Result<MethodResults, Raised>)
    ensures r == CaptionPart(sv, query, enabled, topK)
  {
    if Caption !in enabled {
      return Success([]);
    }
    var found := sv.ic(query, topK);
    if found.Failure? {
      return Failure(found.error);
    }
    var hits := found.value;
    if hits != [] {
      hits := OverwriteScores(hits, MinMax(Scores(hits)));
    }
    return Success([("ic", hits)]);
  }

  /** Steps 3 and 4: each step asks `get_asr_ocr_search()` for the instance,
      and the ASR and OCR scores are passed through `bm25_scale`. */
  method SearchTranscriptPart(sv: Services, query: string, enabled: set<Method>, topK: int, ocrQuery: string)
    returns (r: Result<MethodResults, Raised>)
    ensures r == TranscriptPart(sv, query, enabled, topK, ocrQuery)
  {
    var per: MethodResults := [];
    if Asr in enabled {
      if sv.asrOcr.Failure? {
        return Failure(sv.asrOcr.error);
      }
      var hits := sv.asrOcr.value.asr(query, topK);
      if hits != [] {
        hits := OverwriteScores(hits, sv.bm25(Scores(hits)));
      }
      per := per + [("asr", hits)];
    }
    if Ocr in enabled {
      if sv.asrOcr.Failure? {
        return Failure(sv.asrOcr.error);
      }
      var hits := sv.asrOcr.value.ocr(ocrQuery, topK);
      if hits != [] {
        hits := OverwriteScores(hits, sv.bm25(Scores(hits)));
      }
      per := per + [("ocr", hits)];
    }
    if Asr in enabled || Ocr in enabled {
      assert per == TranscriptEntries(sv.asrOcr.value, sv.bm25, query, enabled, topK, ocrQuery);
    }
    return Success(per);
  }

  /** `_search_single_query_sync`. */
  method SearchSingleQuery(sv: Services, query: string, enabled: set<Method>, topK: int, mode: string, ocrQuery: string)
    returns (r: Result<Searched, Raised>)
    ensures r == SingleQuery(sv, query, enabled, topK, mode, ocrQuery)
  {
    var a := SearchModelPart(sv, query, enabled, topK, mode);
    if a.Failure? {
      return Failure(a.error);
    }
    var b := SearchCaptionPart(sv, query, enabled, topK);
    if b.Failure? {
      return Failure(b.error);
    }
    var c := SearchTranscriptPart(sv, query, enabled, topK, ocrQuery);
    if c.Failure? {
      return Failure(c.error);
    }
    var per := a.value + b.value + c.value;
    var final: seq<Hit>;
    if |enabled| > 1 {
      final := EnsembleAllMethods(per, topK);
    } else if per != [] {
      final := per[0].1;
    } else {
      final := [];
    }
    return Success((per, final));
  }

  /** The part of `_process_single_stage` after the searches. */
  method FinishStage(sv: Services, stage: Stage, topK: int, mode: string, enabled: set<Method>,
                     q0: string, q1: string, q2: string, r0: Searched, r1: Searched, r2: Searched)
    returns (r: Result<StageResult, Raised>)
    ensures r == StageFrom(sv, stage, topK, mode, enabled, q0, q1, q2, r0, r1, r2)
  {
    var results := EnsembleCrossQueries(r0.1, r1.1, r2.1, topK);
    var variants: Option<(seq<Hit>, seq<Hit>, seq<Hit>)>;
    if HasObjects(stage) {
      if sv.objectFilter.Failure? {
        return Failure(sv.objectFilter.error);
      }
      var originalIds := IdStrs(results);
      var filteredIds := Filter(originalIds, stage.selectedObjects.value, sv.objectFilter.value);
      results := KeepIds(results, filteredIds);
      if mode == "A" || mode == "M" {
        variants := Some((KeepIds(r0.1, filteredIds), KeepIds(r1.1, filteredIds), KeepIds(r2.1, filteredIds)));
      } else {
        variants := None;
      }
    } else {
      if mode == "A" || mode == "M" {
        variants := Some((PyPrefix(r0.1, topK), PyPrefix(r1.1, topK), PyPrefix(r2.1, topK)));
      } else {
        variants := None;
      }
    }
    r := Success(Outcome(stage, mode, enabled, q0, q1, q2, results, r0.0, variants));
  }

  /** `_process_single_stage`. */
  method ProcessSingleStage(sv: Services, stage: Stage, topK: int, mode: string) returns (r: Result<StageResult, Raised>)
    ensures r == ProcessStage(sv, stage, topK, mode)
  {
    var enabled := CollectEnabled(stage.toggles);
    if enabled == {} {
      return Success(EmptyStage(stage, mode));
    }
    var queryText := stage.query;
    if Asr !in enabled {
      if IsVietnamese(Some(queryText)) {
        queryText := Translate(queryText, sv.google);
      }
    }
    var qs := AugmentQuery(queryText, sv.gemini, sv.loads);
    var q0 := queryText;
    var ocrQuery := if stage.ocrText.Some? && stage.ocrText.value != [] then stage.ocrText.value else queryText;
    var s0 := SearchSingleQuery(sv, q0, enabled, topK, mode, ocrQuery);
    var s1 := SearchSingleQuery(sv, qs.0, enabled, topK, mode, ocrQuery);
    var s2 := SearchSingleQuery(sv, qs.1, enabled, topK, mode, ocrQuery);
    if s0.Failure? {
      return Failure(s0.error);
    }
    if s1.Failure? {
      return Failure(s1.error);
    }
    if s2.Failure? {
      return Failure(s2.error);
    }
    r := FinishStage(sv, stage, topK, mode, enabled, q0, qs.0, qs.1, s0.value, s1.value, s2.value);
  }

  /** One more stage either extends the results so far or fails. */
  lemma RunStagesSnoc(process: Stage -> Result<StageResult, Raised>, stages: seq<Stage>, i: nat)
    requires i < |stages|
    ensures RunStages(process, stages[..i + 1]) ==
      match RunStages(process, stages[..i])
      case Failure(e) => Failure(e)
      case Success(rs) =>
        match process(stages[i])
        case Failure(e) => Failure(e)
        case Success(r) => Success(rs + [r])
  {
    assert stages[..i + 1][..i] == stages[..i];
  }

  /** Once a prefix of the stages fails, all of them fail with its error. */
  lemma {:induction false} FailureSticks(process: Stage -> Result<StageResult, Raised>, stages: seq<Stage>, n: nat)
    requires n <= |stages| && RunStages(process, stages[..n]).Failure?
    ensures RunStages(process, stages) == RunStages(process, stages[..n])
    decreases |stages| - n
  {
    if n < |stages| {
      RunStagesSnoc(process, stages, n);
      FailureSticks(process, stages, n + 1);
    } else {
      assert stages[..n] == stages;
    }
  }

  /** The stage results gathered one stage after the other. */
  method ProcessStages(sv: Services, stages: seq<Stage>, topK: int, mode: string)
    returns (r: Result<seq<StageResult>, Raised>)
    ensures r == AllStages(sv, stages, topK, mode)
  {
    ghost var process := StageProcess(sv, topK, mode);
    var results: seq<StageResult> := [];
    var i := 0;
    while i < |stages|
      invariant 0 <= i <= |stages|
      invariant RunStages(process, stages[..i]) == Success(results)
    {
      var one := ProcessSingleStage(sv, stages[i], topK, mode);
      assert process(stages[i]) == one;
      RunStagesSnoc(process, stages, i);
      if one.Failure? {
        FailureSticks(process, stages, i + 1);
        return Failure(one.error);
      }
      results := results + [one.value];
      i := i + 1;
    }
    assert stages[..i] == stages;
    return Success(results);
  }

  /** `search_multistage`. */
  method HandleMultistage(sv: Services, request: Request, augmentor: Result<Augmentor, InitError>)
    returns (r: Result<Response, HttpError>)
    ensures r == SearchMultistage(sv, request, augmentor)
  {
    var topK := if request.topK.Some? && request.topK.value != 0 then request.topK.value else Config.DefaultTopK;
    var mode := Upper(if request.mode.Some? && request.mode.value != [] then request.mode.value else "E");
    if request.stages == [] {
      return Failure(HttpError(400, NoStagesDetail));
    }
    if augmentor.Failure? {
      return Failure(HttpError(500, ServerErrorDetail));
    }
    var stageResults := ProcessStages(sv, request.stages, topK, mode);
    if stageResults.Failure? {
      return Failure(HttpError(500, ServerErrorDetail));
    }
    var rs := stageResults.value;
    var temporal: Option<TemporalResult> := None;
    if request.temporalMode == Some("tuple") || request.temporalMode == Some("id") {
      var lists := ResultLists(rs);
      if request.temporalMode == Some("id") {
        var aggregated := AggregateById(lists);
        temporal := Some(ById(PyPrefix(aggregated, topK), |aggregated|));
      } else if request.temporalMode == Some("tuple") {
        var tuples := FindTemporalTuples(lists, topK);
        temporal := Some(ByTuple(tuples, |tuples|));
      }
    }
    return Success(Response(rs, |rs|, temporal));
  }
}
