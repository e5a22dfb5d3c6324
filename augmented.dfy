/** The search endpoint with query augmentation: one query, the search
    methods the request's sections toggle, the query translated and
    reworded twice (Q0, Q1, Q2), each searched with every enabled method,
    and a fourth answer Q3 that fuses, per method, the three queries'
    lists. The services are those of the multi-stage endpoint; the three
    query searches, which the endpoint runs concurrently, are run here one
    after the other in argument order. */
module Augmented {
  import opened Wrappers
  import opened Lists
  import opened Hits
  import opened Scale
  import opened MethodMultiModel
  import opened Ensembles
  import opened Translator
  import opened QueryAugmentation
  import opened ObjectFilter
  import Multistage
  import Config

  type Method = Multistage.Method
  type Services = Multistage.Services

  // ------------------------------------------------------------- records

  /** `QuerySection`: a section's text, OCR text and toggles. */
  datatype Section = Section(query: string, ocrText: Option<string>, toggles: map<string, bool>,
                             selectedObjects: Option<seq<string>>)

  /** The two keys of `request.filters` the endpoint reads; a missing key is None. */
  datatype Filters = Filters(objectFilter: Option<bool>, selectedObjects: Option<seq<string>>)

  /** `SearchRequest`. */
  datatype Request = Request(query: string, searchMethod: string, topK: Option<int>, filters: Option<Filters>,
                             queries: Option<seq<Section>>, mode: Option<string>)

  /** `AugmentedSearchResponse`: the text and per-method dict of each query,
      the Q3 dict, and the size of its final fusion. */
  datatype Response = Response(
    query0Text: string, query0Methods: MethodResults,
    query1Text: string, query1Methods: MethodResults,
    query2Text: string, query2Methods: MethodResults,
    query3Methods: MethodResults, total: int, originalQuery: string, searchMethod: string)

  datatype HttpError = HttpError(status: int, detail: string)

  const SearchErrorDetail: string := "Search error: "

  // ------------------------------------------------------ enabled methods

  /** The methods one section toggles, by their plain names only. */
  function SectionMethods(toggles: map<string, bool>): (r: set<Method>)
    ensures forall m: Method :: m in r <==> Multistage.On(toggles, Multistage.MethodName(m))
  {
    (if Multistage.On(toggles, "multimodal") then {Multistage.Multimodal} else {})
    + (if Multistage.On(toggles, "ic") then {Multistage.Caption} else {})
    + (if Multistage.On(toggles, "asr") then {Multistage.Asr} else {})
    + (if Multistage.On(toggles, "ocr") then {Multistage.Ocr} else {})
  }

  /** The methods toggled in any of the sections. */
  function Toggled(sections: seq<Section>): set<Method>
    decreases |sections|
  {
    if sections == [] then {}
    else Toggled(sections[..|sections| - 1]) + SectionMethods(sections[|sections| - 1].toggles)
  }

  /** The default when no section toggles anything. */
  function DefaultMethods(): set<Method> {
    {Multistage.Multimodal, Multistage.Caption}
  }

  /** `enabled_methods`: the toggled methods, or multimodal and ic when none is. */
  function EnabledOf(sections: seq<Section>): set<Method> {
    if Toggled(sections) == {} then DefaultMethods() else Toggled(sections)
  }

  /** A method is toggled exactly when some section toggles its name on. */
  lemma {:induction false} ToggledMembers(sections: seq<Section>, m: Method)
    ensures m in Toggled(sections) <==>
      exists i | 0 <= i < |sections| :: Multistage.On(sections[i].toggles, Multistage.MethodName(m))
    decreases |sections|
  {
    if sections != [] {
      var init := sections[..|sections| - 1];
      ToggledMembers(init, m);
      assert forall i | 0 <= i < |init| :: init[i] == sections[i];
      if m in Toggled(init) {
        var i :| 0 <= i < |init| && Multistage.On(init[i].toggles, Multistage.MethodName(m));
        assert Multistage.On(sections[i].toggles, Multistage.MethodName(m));
      }
    }
  }

  /** The enabled set is never empty: it is what the sections toggle, and
      multimodal with ic exactly when they toggle nothing. */
  lemma EnabledFacts(sections: seq<Section>)
    ensures EnabledOf(sections) != {}
    ensures (forall i | 0 <= i < |sections| :: SectionMethods(sections[i].toggles) == {}) ==>
      EnabledOf(sections) == DefaultMethods()
    ensures forall m: Method | Toggled(sections) != {} ::
      m in EnabledOf(sections) <==>
        exists i | 0 <= i < |sections| :: Multistage.On(sections[i].toggles, Multistage.MethodName(m))
  {
    assert Multistage.Multimodal in DefaultMethods();
    if Toggled(sections) != {} {
      var m :| m in Toggled(sections);
      ToggledMembers(sections, m);
      var i :| 0 <= i < |sections| && Multistage.On(sections[i].toggles, Multistage.MethodName(m));
      assert m in SectionMethods(sections[i].toggles);
    }
    forall m: Method | Toggled(sections) != {}
      ensures m in EnabledOf(sections) <==>
        exists i | 0 <= i < |sections| :: Multistage.On(sections[i].toggles, Multistage.MethodName(m))
    {
      ToggledMembers(sections, m);
    }
  }

  /** The loop over the sections adding each toggled method. */
  method CollectMethods(sections: seq<Section>) returns (enabled: set<Method>)
    ensures enabled == EnabledOf(sections)
  {
    enabled := {};
    var i := 0;
    while i < |sections|
      invariant 0 <= i <= |sections|
      invariant enabled == Toggled(sections[..i])
    {
      assert sections[..i + 1][..i] == sections[..i];
      var toggles := sections[i].toggles;
      if Multistage.On(toggles, "multimodal") {
        enabled := enabled + {Multistage.Multimodal};
      }
      if Multistage.On(toggles, "ic") {
        enabled := enabled + {Multistage.Caption};
      }
      if Multistage.On(toggles, "asr") {
        enabled := enabled + {Multistage.Asr};
      }
      if Multistage.On(toggles, "ocr") {
        enabled := enabled + {Multistage.Ocr};
      }
      i := i + 1;
    }
    assert sections[..i] == sections;
    if enabled == {} {
      enabled := {Multistage.Multimodal, Multistage.Caption};
    }
  }

  // ------------------------------------------------------------ OCR text

  /** A section that toggles OCR on and carries a non-empty OCR text. */
  predicate GivesOcrText(s: Section) {
    Multistage.On(s.toggles, "ocr") && s.ocrText.Some? && s.ocrText.value != []
  }

  /** The OCR text of the first section that gives one. */
  function FirstOcrText(sections: seq<Section>): Option<string> {
    if sections == [] then None
    else if GivesOcrText(sections[0]) then sections[0].ocrText
    else FirstOcrText(sections[1..])
  }

  /** The OCR text found is the first section's that gives one, and there
      is none exactly when no section gives one. */
  lemma {:induction false} FirstOcrTextFacts(sections: seq<Section>)
    ensures FirstOcrText(sections).None? <==> forall i | 0 <= i < |sections| :: !GivesOcrText(sections[i])
    ensures FirstOcrText(sections).Some? ==>
      exists i | 0 <= i < |sections| ::
        && GivesOcrText(sections[i]) && sections[i].ocrText == FirstOcrText(sections)
        && forall j | 0 <= j < i :: !GivesOcrText(sections[j])
    decreases |sections|
  {
    if sections != [] && !GivesOcrText(sections[0]) {
      var rest := sections[1..];
      FirstOcrTextFacts(rest);
      assert forall i | 0 <= i < |rest| :: rest[i] == sections[i + 1];
      if FirstOcrText(rest).Some? {
        var i :| 0 <= i < |rest| && GivesOcrText(rest[i]) && rest[i].ocrText == FirstOcrText(rest)
          && forall j | 0 <= j < i :: !GivesOcrText(rest[j]);
        assert GivesOcrText(sections[i + 1]);
        forall j | 0 <= j < i + 1 ensures !GivesOcrText(sections[j]) {
          if j > 0 {
            assert sections[j] == rest[j - 1];
          }
        }
      } else {
        forall i | 0 <= i < |sections| ensures !GivesOcrText(sections[i]) {
          if i > 0 {
            assert sections[i] == rest[i - 1];
          }
        }
      }
    } else if sections != [] {
      assert GivesOcrText(sections[0]);
    }
  }

  /** `ocr_text`: sought only when there are sections and OCR is enabled. */
  function OcrTextOf(sections: seq<Section>, enabled: set<Method>): Option<string> {
    if sections != [] && Multistage.Ocr in enabled then FirstOcrText(sections) else None
  }

  /** The loop over the sections that stops at the first OCR text. */
  method FindOcrText(sections: seq<Section>, enabled: set<Method>) returns (ocrText: Option<string>)
    ensures ocrText == OcrTextOf(sections, enabled)
  {
    ocrText := None;
    if sections != [] && Multistage.Ocr in enabled {
      var i := 0;
      while i < |sections|
        invariant 0 <= i <= |sections|
        invariant FirstOcrText(sections) == FirstOcrText(sections[i..])
      {
        assert sections[i..][1..] == sections[i + 1..];
        if GivesOcrText(sections[i]) {
          ocrText := sections[i].ocrText;
          return;
        }
        i := i + 1;
      }
    }
  }

  /** `ocr_text if ocr_text else query_text`. */
  function OcrQuery(ocrText: Option<string>, query: string): string {
    if ocrText.Some? && ocrText.value != [] then ocrText.value else query
  }

  // -------------------------------------------------------- object filter

  /** `obj_filter`: constructed, and so possibly raising, only when the
      filter is on and some objects are selected. */
  function ObjectFilterFor(sv: Services, on: bool, selected: seq<string>): Result<Option<IndexSearch>, Raised> {
    if on && selected != [] then
      match sv.objectFilter
      case Failure(e) => Failure(e)
      case Success(search) => Success(Some(search))
    else Success(None)
  }

  /** `_apply_object_filter`. */
  function ApplyObjectFilter(results: seq<Hit>, filter: Option<IndexSearch>, selected: seq<string>): seq<Hit> {
    if results == [] || filter.None? || selected == [] then results
    else KeepIds(results, Filter(IdStrs(results), selected, filter.value))
  }

  /** No results, no filter or no objects leave the results as they are. */
  lemma ApplyObjectFilterPassThrough(results: seq<Hit>, filter: Option<IndexSearch>, selected: seq<string>)
    requires results == [] || filter.None? || selected == []
    ensures ApplyObjectFilter(results, filter, selected) == results
  {
  }

  /** Otherwise exactly the results whose `str(id)` the index returns are
      kept, in their order. */
  lemma ApplyObjectFilterKeeps(results: seq<Hit>, search: IndexSearch, selected: seq<string>)
    requires results != [] && selected != []
    ensures var keep := Filter(IdStrs(results), selected, search);
      && ApplyObjectFilter(results, Some(search), selected) == KeepIds(results, keep)
      && |ApplyObjectFilter(results, Some(search), selected)| <= |results|
      && forall h :: h in ApplyObjectFilter(results, Some(search), selected) <==> h in results && IdStr(h.id) in keep
  {
    KeepIdsMembers(results, Filter(IdStrs(results), selected, search));
  }

  /** A list ranked by score stays ranked. */
  lemma ApplyObjectFilterRanked(results: seq<Hit>, filter: Option<IndexSearch>, selected: seq<string>)
    requires forall i, j | 0 <= i < j < |results| :: results[i].score >= results[j].score
    ensures var r := ApplyObjectFilter(results, filter, selected);
      forall i, j | 0 <= i < j < |r| :: r[i].score >= r[j].score
  {
    if !(results == [] || filter.None? || selected == []) {
      KeepIdsOrdered(results, Filter(IdStrs(results), selected, filter.value));
    }
  }

  /** A list with distinct ids keeps them distinct. */
  lemma ApplyObjectFilterDistinct(results: seq<Hit>, filter: Option<IndexSearch>, selected: seq<string>)
    requires Distinct(Ids(results))
    ensures Distinct(Ids(ApplyObjectFilter(results, filter, selected)))
  {
    if !(results == [] || filter.None? || selected == []) {
      KeepIdsDistinct(results, Filter(IdStrs(results), selected, filter.value));
    }
  }

  // --------------------------------------------------------- one query

  /** The three model lists, each filtered. */
  function FilteredModels(m: ModelResults, filter: Option<IndexSearch>, selected: seq<string>): ModelResults {
    ModelResults(ApplyObjectFilter(m.clip, filter, selected), ApplyObjectFilter(m.beit3, filter, selected),
                 ApplyObjectFilter(m.bigg, filter, selected))
  }

  /** The multimodal entries: the fused list, then the first `top_k` of each model's list. */
  function ModelEntries(m: ModelResults, num: Numerics, topK: int): MethodResults {
    [("multimodal", EnsembleMultimodal(m, num, topK)), ("clip", PyPrefix(m.clip, topK)),
     ("beit3", PyPrefix(m.beit3, topK)), ("bigg", PyPrefix(m.bigg, topK))]
  }

  /** The multimodal step, when multimodal is enabled. */
  function ModelPart(sv: Services, query: string, enabled: set<Method>, topK: int,
                     filter: Option<IndexSearch>, selected: seq<string>): Result<MethodResults, Raised>
  {
    if Multistage.Multimodal !in enabled then Success([])
    else match Multistage.ModelLists(sv, query, topK)
      case Failure(e) => Failure(e)
      case Success(m) => Success(ModelEntries(FilteredModels(m, filter, selected), sv.num, topK))
  }

  /** The image-caption step: filtered, then min-max rescaled. */
  function CaptionPart(sv: Services, query: string, enabled: set<Method>, topK: int,
                       filter: Option<IndexSearch>, selected: seq<string>): Result<MethodResults, Raised>
  {
    if Multistage.Caption !in enabled then Success([])
    else match sv.ic(query, topK)
      case Failure(e) => Failure(e)
      case Success(hits) => Success([("ic", Multistage.CaptionScaled(ApplyObjectFilter(hits, filter, selected)))])
  }

  /** The ASR and OCR steps: filtered, then passed through `bm25_scale`.
      Either step needs the transcript search instance, and fails with its
      constructor's error. */
  function TranscriptPart(sv: Services, query: string, enabled: set<Method>, topK: int, ocrQuery: string,
                          filter: Option<IndexSearch>, selected: seq<string>): Result<MethodResults, Raised>
  {
    if Multistage.Asr !in enabled && Multistage.Ocr !in enabled then Success([])
    else match sv.asrOcr
      case Failure(e) => Failure(e)
      case Success(t) => Success(TranscriptEntries(t, sv.bm25, query, enabled, topK, ocrQuery, filter, selected))
  }

  /** The ASR and OCR entries, given the transcript search instance. */
  function TranscriptEntries(t: Multistage.TranscriptSearch, bm25: seq<real> -> seq<real>, query: string,
                             enabled: set<Method>, topK: int, ocrQuery: string,
                             filter: Option<IndexSearch>, selected: seq<string>): MethodResults
  {
    (if Multistage.Asr in enabled
     then [("asr", Multistage.Bm25Scaled(ApplyObjectFilter(t.asr(query, topK), filter, selected), bm25))] else [])
    + (if Multistage.Ocr in enabled
       then [("ocr", Multistage.Bm25Scaled(ApplyObjectFilter(t.ocr(ocrQuery, topK), filter, selected), bm25))]
       else [])
  }

  /** `k in enabled_methods` for a key of the per-query dict. */
  predicate IsEnabledName(k: string, enabled: set<Method>) {
    (k == "multimodal" && Multistage.Multimodal in enabled) || (k == "ic" && Multistage.Caption in enabled)
    || (k == "asr" && Multistage.Asr in enabled) || (k == "ocr" && Multistage.Ocr in enabled)
  }

  /** `{k: v for k, v in results.items() if k in enabled_methods}`. */
  function Fusable(per: MethodResults, enabled: set<Method>): MethodResults {
    if per == [] then []
    else (if IsEnabledName(per[0].0, enabled) then [per[0]] else []) + Fusable(per[1..], enabled)
  }

  /** The filter drops exactly the entries whose key is no enabled method. */
  lemma {:induction false} FusableAppend(a: MethodResults, b: MethodResults, enabled: set<Method>)
    ensures Fusable(a + b, enabled) == Fusable(a, enabled) + Fusable(b, enabled)
    decreases |a|
  {
    if a != [] {
      assert (a + b)[1..] == a[1..] + b;
      FusableAppend(a[1..], b, enabled);
    } else {
      assert a + b == b;
    }
  }

  lemma NotFused(x: (string, seq<Hit>), rest: MethodResults, enabled: set<Method>)
    requires !IsEnabledName(x.0, enabled)
    ensures Fusable([x] + rest, enabled) == Fusable(rest, enabled)
  {
    assert ([x] + rest)[1..] == rest;
  }

  /** `_search_single_query` with the object filter of the request: the
      per-method dict, ending with the fusion of the enabled methods' lists. */
  function QueryMethods(sv: Services, query: string, enabled: set<Method>, topK: int, ocrText: Option<string>,
                        filterOn: bool, selected: seq<string>): Result<MethodResults, Raised>
  {
    match ObjectFilterFor(sv, filterOn, selected)
    case Failure(e) => Failure(e)
    case Success(filter) =>
      match ModelPart(sv, query, enabled, topK, filter, selected)
      case Failure(e) => Failure(e)
      case Success(a) =>
        match CaptionPart(sv, query, enabled, topK, filter, selected)
        case Failure(e) => Failure(e)
        case Success(b) =>
          match TranscriptPart(sv, query, enabled, topK, OcrQuery(ocrText, query), filter, selected)
          case Failure(e) => Failure(e)
          case Success(c) =>
            var per := a + b + c;
            Success(per + [("ensemble", EnsembleMethods(Fusable(per, enabled), topK))])
  }

  /** With ASR or OCR enabled and Elasticsearch unreachable, the transcript
      step raises the constructor's error, so the query's search raises. */
  lemma TranscriptsUnreachable(sv: Services, query: string, enabled: set<Method>, topK: int,
                               ocrText: Option<string>, filterOn: bool, selected: seq<string>)
    requires (Multistage.Asr in enabled || Multistage.Ocr in enabled) && sv.asrOcr.Failure?
    ensures forall filter: Option<IndexSearch> :: TranscriptPart(sv, query, enabled, topK, OcrQuery(ocrText, query), filter, selected) == Failure(sv.asrOcr.error)
    ensures QueryMethods(sv, query, enabled, topK, ocrText, filterOn, selected).Failure?
  {
  }

  /** The per-model lists are reported but never fused: the fusion takes the
      multimodal list, then the ic, asr and ocr lists, one per enabled
      method, so each weighs 1 / len(enabled_methods). */
  lemma FusesEnabledOnly(m: ModelResults, num: Numerics, topK: int, b: MethodResults, c: MethodResults,
                         enabled: set<Method>)
    requires Multistage.Multimodal in enabled
    ensures Fusable(ModelEntries(m, num, topK) + b + c, enabled) ==
      [("multimodal", EnsembleMultimodal(m, num, topK))] + Fusable(b, enabled) + Fusable(c, enabled)
  {
    var e := ModelEntries(m, num, topK);
    FusableAppend(e, b, enabled);
    FusableAppend(e + b, c, enabled);
    ModelEntriesFusable(EnsembleMultimodal(m, num, topK), PyPrefix(m.clip, topK), PyPrefix(m.beit3, topK),
                        PyPrefix(m.bigg, topK), enabled);
  }

  lemma ModelEntriesFusable(fused: seq<Hit>, clip: seq<Hit>, beit3: seq<Hit>, bigg: seq<Hit>, enabled: set<Method>)
    requires Multistage.Multimodal in enabled
    ensures Fusable([("multimodal", fused), ("clip", clip), ("beit3", beit3), ("bigg", bigg)], enabled)
      == [("multimodal", fused)]
  {
    var models: MethodResults := [("clip", clip), ("beit3", beit3), ("bigg", bigg)];
    assert !IsEnabledName("clip", enabled) && !IsEnabledName("beit3", enabled) && !IsEnabledName("bigg", enabled);
    NotFused(("bigg", bigg), [], enabled);
    NotFused(("beit3", beit3), [("bigg", bigg)], enabled);
    NotFused(("clip", clip), [("beit3", beit3), ("bigg", bigg)], enabled);
    assert [("clip", clip)] + [("beit3", beit3), ("bigg", bigg)] == models;
    assert [("multimodal", fused)] + models == [("multimodal", fused), ("clip", clip), ("beit3", beit3), ("bigg", bigg)];
    FusableAppend([("multimodal", fused)], models, enabled);
  }

  /** The text entries of a query are all fused when their methods are enabled. */
  lemma TextEntriesFused(sv: Services, query: string, enabled: set<Method>, topK: int, ocrQuery: string,
                         filter: Option<IndexSearch>, selected: seq<string>)
    requires CaptionPart(sv, query, enabled, topK, filter, selected).Success?
    requires TranscriptPart(sv, query, enabled, topK, ocrQuery, filter, selected).Success?
    ensures var b := CaptionPart(sv, query, enabled, topK, filter, selected).value;
      var c := TranscriptPart(sv, query, enabled, topK, ocrQuery, filter, selected).value;
      Fusable(b, enabled) == b && Fusable(c, enabled) == c
  {
    if Multistage.Asr in enabled || Multistage.Ocr in enabled {
      var t := sv.asrOcr.value;
      var y: MethodResults := if Multistage.Asr in enabled
        then [("asr", Multistage.Bm25Scaled(ApplyObjectFilter(t.asr(query, topK), filter, selected), sv.bm25))] else [];
      var z: MethodResults := if Multistage.Ocr in enabled
        then [("ocr", Multistage.Bm25Scaled(ApplyObjectFilter(t.ocr(ocrQuery, topK), filter, selected), sv.bm25))]
        else [];
      assert TranscriptPart(sv, query, enabled, topK, ocrQuery, filter, selected).value == y + z;
      FusableAppend(y, z, enabled);
    }
  }

  // ------------------------------------------------------ dict look-up

  /** `d.get(k)` on a dict given as its items. */
  function Lookup(ms: MethodResults, k: string): Option<seq<Hit>> {
    if ms == [] then None
    else if ms[0].0 == k then Some(ms[0].1)
    else Lookup(ms[1..], k)
  }

  lemma {:induction false} LookupAppend(a: MethodResults, b: MethodResults, k: string)
    ensures Lookup(a + b, k) == if Lookup(a, k).Some? then Lookup(a, k) else Lookup(b, k)
    decreases |a|
  {
    if a != [] {
      assert (a + b)[1..] == a[1..] + b;
      LookupAppend(a[1..], b, k);
    } else {
      assert a + b == b;
    }
  }

  /** Every method the set enables has its entry in a query's dict. */
  predicate HasMethods(per: MethodResults, enabled: set<Method>) {
    forall m | m in enabled :: Lookup(per, Multistage.MethodName(m)).Some?
  }

  /** A query search that succeeds holds an entry for every enabled method,
      whatever the toggles were. */
  lemma QueryHasMethods(sv: Services, query: string, enabled: set<Method>, topK: int, ocrText: Option<string>,
                        filterOn: bool, selected: seq<string>)
    requires QueryMethods(sv, query, enabled, topK, ocrText, filterOn, selected).Success?
    ensures HasMethods(QueryMethods(sv, query, enabled, topK, ocrText, filterOn, selected).value, enabled)
  {
    var filter := ObjectFilterFor(sv, filterOn, selected).value;
    var a := ModelPart(sv, query, enabled, topK, filter, selected).value;
    var b := CaptionPart(sv, query, enabled, topK, filter, selected).value;
    var c := TranscriptPart(sv, query, enabled, topK, OcrQuery(ocrText, query), filter, selected).value;
    var per := a + b + c;
    var all := per + [("ensemble", EnsembleMethods(Fusable(per, enabled), topK))];
    assert all == QueryMethods(sv, query, enabled, topK, ocrText, filterOn, selected).value;
    if Multistage.Asr in enabled || Multistage.Ocr in enabled {
      assert c == TranscriptEntries(sv.asrOcr.value, sv.bm25, query, enabled, topK, OcrQuery(ocrText, query),
                                    filter, selected);
      TranscriptEntriesLookup(sv.asrOcr.value, sv.bm25, query, enabled, topK, OcrQuery(ocrText, query),
                              filter, selected);
    }
    assert Multistage.Multimodal in enabled ==> Lookup(a, "multimodal").Some?;
    assert Multistage.Caption in enabled ==> Lookup(b, "ic").Some?;
    PartsLookup(a, b, c, [("ensemble", EnsembleMethods(Fusable(per, enabled), topK))], enabled);
  }

  /** A dict built from a model part, a caption part and a transcript part,
      each holding its enabled methods' entries, holds them all. */
  lemma PartsLookup(a: MethodResults, b: MethodResults, c: MethodResults, e: MethodResults, enabled: set<Method>)
    requires Multistage.Multimodal in enabled ==> Lookup(a, "multimodal").Some?
    requires Multistage.Caption in enabled ==> Lookup(b, "ic").Some?
    requires Multistage.Asr in enabled ==> Lookup(c, "asr").Some?
    requires Multistage.Ocr in enabled ==> Lookup(c, "ocr").Some?
    ensures HasMethods(a + b + c + e, enabled)
  {
    forall m | m in enabled ensures Lookup(a + b + c + e, Multistage.MethodName(m)).Some? {
      LookupAppend(a + b + c, e, Multistage.MethodName(m));
      LookupAppend(a + b, c, Multistage.MethodName(m));
      LookupAppend(a, b, Multistage.MethodName(m));
    }
  }

  /** The transcript step holds an `asr` entry when ASR is enabled and an
      `ocr` entry when OCR is. */
  lemma TranscriptEntriesLookup(t: Multistage.TranscriptSearch, bm25: seq<real> -> seq<real>, query: string,
                                enabled: set<Method>, topK: int, ocrQuery: string,
                                filter: Option<IndexSearch>, selected: seq<string>)
    ensures var c := TranscriptEntries(t, bm25, query, enabled, topK, ocrQuery, filter, selected);
      && (Multistage.Asr in enabled ==> Lookup(c, "asr").Some?)
      && (Multistage.Ocr in enabled ==> Lookup(c, "ocr").Some?)
  {
    var c := TranscriptEntries(t, bm25, query, enabled, topK, ocrQuery, filter, selected);
    if Multistage.Ocr in enabled && Multistage.Asr in enabled {
      LookupAppend(c[..1], c[1..], "ocr");
      assert c == c[..1] + c[1..];
    }
  }

  // -------------------------------------------------------------- Q3

  /** `for method in enabled_methods`, in the order multimodal, ic, asr, ocr. */
  function Listed(enabled: set<Method>): (r: seq<Method>)
    ensures forall m | m in r :: m in enabled
  {
    (if Multistage.Multimodal in enabled then [Multistage.Multimodal] else [])
    + (if Multistage.Caption in enabled then [Multistage.Caption] else [])
    + (if Multistage.Asr in enabled then [Multistage.Asr] else [])
    + (if Multistage.Ocr in enabled then [Multistage.Ocr] else [])
  }

  /** The Q3 entry name of a method. */
  function EnsembleName(m: Method): string {
    Multistage.MethodName(m) + "_ensemble"
  }

  /** `d[k]` for a key the dict holds, [] otherwise. */
  function MethodList(ms: MethodResults, k: string): seq<Hit> {
    if Lookup(ms, k).Some? then Lookup(ms, k).value else []
  }

  /** `m` is a key of all three dicts. */
  predicate InAll(m: Method, r0: MethodResults, r1: MethodResults, r2: MethodResults) {
    && Lookup(r0, Multistage.MethodName(m)).Some?
    && Lookup(r1, Multistage.MethodName(m)).Some?
    && Lookup(r2, Multistage.MethodName(m)).Some?
  }

  /** The Q3 entry of a method: its three lists fused across the queries. */
  function Q3Entry(m: Method, r0: MethodResults, r1: MethodResults, r2: MethodResults, topK: int): (string, seq<Hit>) {
    var k := Multistage.MethodName(m);
    (EnsembleName(m), CrossQueries(MethodList(r0, k), MethodList(r1, k), MethodList(r2, k), topK))
  }

  /** `q3_methods` before `ensemble_of_ensemble`: the entry of every listed
      method present in all three dicts. */
  function Q3Entries(order: seq<Method>, r0: MethodResults, r1: MethodResults, r2: MethodResults, topK: int)
    : MethodResults
    decreases |order|
  {
    if order == [] then []
    else
      var rest := Q3Entries(order[..|order| - 1], r0, r1, r2, topK);
      var m := order[|order| - 1];
      if InAll(m, r0, r1, r2) then rest + [Q3Entry(m, r0, r1, r2, topK)] else rest
  }

  /** When the three dicts hold every listed method, Q3 has one entry per
      method, in order. */
  lemma {:induction false} Q3Complete(order: seq<Method>, enabled: set<Method>,
                                      r0: MethodResults, r1: MethodResults, r2: MethodResults, topK: int)
    requires forall m | m in order :: m in enabled
    requires HasMethods(r0, enabled) && HasMethods(r1, enabled) && HasMethods(r2, enabled)
    ensures |Q3Entries(order, r0, r1, r2, topK)| == |order|
    ensures forall i | 0 <= i < |order| :: Q3Entries(order, r0, r1, r2, topK)[i] == Q3Entry(order[i], r0, r1, r2, topK)
    decreases |order|
  {
    if order != [] {
      var init := order[..|order| - 1];
      assert forall x | x in init :: x in order;
      Q3Complete(init, enabled, r0, r1, r2, topK);
      Q3Step(order, enabled, r0, r1, r2, topK);
      var rest := Q3Entries(init, r0, r1, r2, topK);
      var all := Q3Entries(order, r0, r1, r2, topK);
      forall i | 0 <= i < |order| ensures all[i] == Q3Entry(order[i], r0, r1, r2, topK) {
        if i < |init| {
          assert all[i] == rest[i] && order[i] == init[i];
        }
      }
    }
  }

  lemma Q3Step(order: seq<Method>, enabled: set<Method>, r0: MethodResults, r1: MethodResults, r2: MethodResults,
               topK: int)
    requires order != [] && order[|order| - 1] in enabled
    requires HasMethods(r0, enabled) && HasMethods(r1, enabled) && HasMethods(r2, enabled)
    ensures Q3Entries(order, r0, r1, r2, topK) ==
      Q3Entries(order[..|order| - 1], r0, r1, r2, topK) + [Q3Entry(order[|order| - 1], r0, r1, r2, topK)]
  {
    assert InAll(order[|order| - 1], r0, r1, r2);
  }

  /** No Q3 entry is named `ensemble_of_ensemble`. */
  lemma EnsembleNameFresh(m: Method)
    ensures EnsembleName(m) != "ensemble_of_ensemble"
  {
    assert |"ensemble_of_ensemble"| == 20;
    match m
    case Multimodal => assert |EnsembleName(m)| == 19;
    case Caption => assert |EnsembleName(m)| == 11;
    case Asr => assert |EnsembleName(m)| == 12;
    case Ocr => assert |EnsembleName(m)| == 12;
  }

  /** `query_3.methods`: the Q3 entries, then their fusion. */
  function Q3Methods(entries: MethodResults, topK: int): MethodResults {
    entries + [("ensemble_of_ensemble", EnsembleMethods(entries, topK))]
  }

  // ------------------------------------------------------------ endpoint

  /** `query_text`: translated when ASR is not enabled and the text reads as Vietnamese. */
  function QueryText(sv: Services, query: string, enabled: set<Method>): string {
    if Multistage.Asr !in enabled && IsVietnamese(Some(query)) then Translate(query, sv.google) else query
  }

  /** `object_filter_enabled`. */
  function FilterOn(filters: Option<Filters>): bool {
    filters.Some? && filters.value.objectFilter == Some(true)
  }

  /** `selected_objects`. */
  function SelectedObjects(filters: Option<Filters>): seq<string> {
    if filters.Some? && filters.value.selectedObjects.Some? then filters.value.selectedObjects.value else []
  }

  /** `request.queries or []`. */
  function SectionsOf(request: Request): seq<Section> {
    if request.queries.Some? then request.queries.value else []
  }

  /** The response built from the three query dicts. */
  function Answer(request: Request, enabled: set<Method>, topK: int, q0: string, q1: string, q2: string,
                  r0: MethodResults, r1: MethodResults, r2: MethodResults): Response
  {
    var entries := Q3Entries(Listed(enabled), r0, r1, r2, topK);
    var q3 := Q3Methods(entries, topK);
    Response(q0, r0, q1, r1, q2, r2, q3, |EnsembleMethods(entries, topK)|, request.query, request.searchMethod)
  }

  /** `search_with_augmentation`: every error becomes a 500. */
  function SearchAugmented(sv: Services, request: Request, augmentor: Result<Augmentor, InitError>)
    : Result<Response, HttpError>
  {
    var topK := Multistage.TopKOf(request.topK);
    var sections := SectionsOf(request);
    var enabled := EnabledOf(sections);
    var q0 := QueryText(sv, request.query, enabled);
    if augmentor.Failure? then Failure(HttpError(500, SearchErrorDetail))
    else
      var qs := AugmentQuery(q0, sv.gemini, sv.loads);
      var ocrText := OcrTextOf(sections, enabled);
      var on := FilterOn(request.filters);
      var selected := SelectedObjects(request.filters);
      match QueryMethods(sv, q0, enabled, topK, ocrText, on, selected)
      case Failure(_) => Failure(HttpError(500, SearchErrorDetail))
      case Success(r0) =>
        match QueryMethods(sv, qs.0, enabled, topK, ocrText, on, selected)
        case Failure(_) => Failure(HttpError(500, SearchErrorDetail))
        case Success(r1) =>
          match QueryMethods(sv, qs.1, enabled, topK, ocrText, on, selected)
          case Failure(_) => Failure(HttpError(500, SearchErrorDetail))
          case Success(r2) => Success(Answer(request, enabled, topK, q0, qs.0, qs.1, r0, r1, r2))
  }

  /** Q3 holds `<m>_ensemble` for every enabled method, in order, each the
      cross-query fusion of that method's lists, and then
      `ensemble_of_ensemble`, the fusion of those entries alone; `total` is
      its length. */
  lemma AnswerFacts(request: Request, enabled: set<Method>, topK: int, q0: string, q1: string, q2: string,
                    r0: MethodResults, r1: MethodResults, r2: MethodResults)
    requires HasMethods(r0, enabled) && HasMethods(r1, enabled) && HasMethods(r2, enabled)
    ensures var a := Answer(request, enabled, topK, q0, q1, q2, r0, r1, r2);
      var order := Listed(enabled);
      var entries := Q3Entries(order, r0, r1, r2, topK);
      && |a.query3Methods| == |order| + 1
      && (forall i | 0 <= i < |order| :: a.query3Methods[i] == Q3Entry(order[i], r0, r1, r2, topK))
      && a.query3Methods[|order|] == ("ensemble_of_ensemble", EnsembleMethods(entries, topK))
      && (forall i | 0 <= i < |order| :: a.query3Methods[i].0 != "ensemble_of_ensemble")
      && a.total == |a.query3Methods[|order|].1|
      && a.originalQuery == request.query && a.searchMethod == request.searchMethod
  {
    var order := Listed(enabled);
    Q3Complete(order, enabled, r0, r1, r2, topK);
    forall i | 0 <= i < |order| ensures EnsembleName(order[i]) != "ensemble_of_ensemble" {
      EnsembleNameFresh(order[i]);
    }
  }

  /** The three queries are the translated text and its two rewordings, all
      searched with the same methods, OCR text and object filter; if all
      three succeed the answer is built from them, and a search that raises
      gives a 500. */
  lemma SearchedQueries(sv: Services, request: Request, augmentor: Result<Augmentor, InitError>)
    requires augmentor.Success?
    ensures var topK := Multistage.TopKOf(request.topK);
      var sections := SectionsOf(request);
      var enabled := EnabledOf(sections);
      var q0 := QueryText(sv, request.query, enabled);
      var qs := AugmentQuery(q0, sv.gemini, sv.loads);
      var ocrText := OcrTextOf(sections, enabled);
      var on, selected := FilterOn(request.filters), SelectedObjects(request.filters);
      var s0 := QueryMethods(sv, q0, enabled, topK, ocrText, on, selected);
      var s1 := QueryMethods(sv, qs.0, enabled, topK, ocrText, on, selected);
      var s2 := QueryMethods(sv, qs.1, enabled, topK, ocrText, on, selected);
      && (s0.Success? && s1.Success? && s2.Success? ==>
            SearchAugmented(sv, request, augmentor) ==
              Success(Answer(request, enabled, topK, q0, qs.0, qs.1, s0.value, s1.value, s2.value)))
      && (s0.Failure? || s1.Failure? || s2.Failure? ==>
            SearchAugmented(sv, request, augmentor) == Failure(HttpError(500, SearchErrorDetail)))
  {
  }

  /** When Elasticsearch cannot be reached, a request that enables ASR or
      OCR gets a 500. */
  lemma TranscriptsUnreachableEndpoint(sv: Services, request: Request, augmentor: Result<Augmentor, InitError>)
    requires sv.asrOcr.Failure?
    requires Multistage.Asr in EnabledOf(SectionsOf(request)) || Multistage.Ocr in EnabledOf(SectionsOf(request))
    ensures SearchAugmented(sv, request, augmentor) == Failure(HttpError(500, SearchErrorDetail))
  {
    if augmentor.Success? {
      var sections := SectionsOf(request);
      var enabled := EnabledOf(sections);
      TranscriptsUnreachable(sv, QueryText(sv, request.query, enabled), enabled, Multistage.TopKOf(request.topK),
                             OcrTextOf(sections, enabled), FilterOn(request.filters), SelectedObjects(request.filters));
      SearchedQueries(sv, request, augmentor);
    }
  }

  /** With the augmentor constructor as written, every request gets a 500. */
  lemma AsWrittenEndpointFails(sv: Services, request: Request, settings: GeminiSettings)
    ensures SearchAugmented(sv, request, NewAugmentorAsWritten(settings)) == Failure(HttpError(500, SearchErrorDetail))
  {
    AsWrittenAlwaysRaises(settings);
  }

  // ------------------------------------------------------------ methods

  method SearchModelPart(sv: Services, query: string, enabled: set<Method>, topK: int,
                         filter: Option<IndexSearch>, selected: seq<string>) returns (r: Result<MethodResults, Raised>)
    ensures r == ModelPart(sv, query, enabled, topK, filter, selected)
  {
    if Multistage.Multimodal !in enabled {
      return Success([]);
    }
    var found := Multistage.SearchModels(sv, query, topK);
    if found.Failure? {
      return Failure(found.error);
    }
    var m := FilteredModels(found.value, filter, selected);
    assert ModelPart(sv, query, enabled, topK, filter, selected) == Success(ModelEntries(m, sv.num, topK));
    var fused := EnsembleMultimodalResults(m.clip, m.beit3, m.bigg, topK, sv.num);
    assert fused == EnsembleMultimodal(m, sv.num, topK);
    r := Success([("multimodal", fused), ("clip", PyPrefix(m.clip, topK)), ("beit3", PyPrefix(m.beit3, topK)),
                  ("bigg", PyPrefix(m.bigg, topK))]);
  }

  method SearchCaptionPart(sv: Services, query: string, enabled: set<Method>, topK: int,
                           filter: Option<IndexSearch>, selected: seq<string>) returns (r: Result<MethodResults, Raised>)
    ensures r == CaptionPart(sv, query, enabled, topK, filter, selected)
  {
    if Multistage.Caption !in enabled {
      return Success([]);
    }
    var found := sv.ic(query, topK);
    if found.Failure? {
      return Failure(found.error);
    }
    var hits := ApplyObjectFilter(found.value, filter, selected);
    if hits != [] {
      hits := Multistage.OverwriteScores(hits, MinMax(Scores(hits)));
    }
    return Success([("ic", hits)]);
  }

  method SearchTranscriptPart(sv: Services, query: string, enabled: set<Method>, topK: int, ocrQuery: string,
                              filter: Option<IndexSearch>, selected: seq<string>)
    returns (r: Result<MethodResults, Raised>)
    ensures r == TranscriptPart(sv, query, enabled, topK, ocrQuery, filter, selected)
  {
    var per: MethodResults := [];
    if Multistage.Asr in enabled {
      if sv.asrOcr.Failure? {
        return Failure(sv.asrOcr.error);
      }
      var hits := ApplyObjectFilter(sv.asrOcr.value.asr(query, topK), filter, selected);
      if hits != [] {
        hits := Multistage.OverwriteScores(hits, sv.bm25(Scores(hits)));
      }
      per := per + [("asr", hits)];
    }
    if Multistage.Ocr in enabled {
      if sv.asrOcr.Failure? {
        return Failure(sv.asrOcr.error);
      }
      var hits := ApplyObjectFilter(sv.asrOcr.value.ocr(ocrQuery, topK), filter, selected);
      if hits != [] {
        hits := Multistage.OverwriteScores(hits, sv.bm25(Scores(hits)));
      }
      per := per + [("ocr", hits)];
    }
    if Multistage.Asr in enabled || Multistage.Ocr in enabled {
      assert per == TranscriptEntries(sv.asrOcr.value, sv.bm25, query, enabled, topK, ocrQuery, filter, selected);
    }
    return Success(per);
  }

  /** The dict comprehension keeping the enabled methods' entries. */
  method SelectEnabled(per: MethodResults, enabled: set<Method>) returns (r: MethodResults)
    ensures r == Fusable(per, enabled)
  {
    r := [];
    var i := |per|;
    while i > 0
      invariant 0 <= i <= |per|
      invariant r == Fusable(per[i..], enabled)
    {
      i := i - 1;
      assert per[i..][1..] == per[i + 1..];
      if IsEnabledName(per[i].0, enabled) {
        r := [per[i]] + r;
      }
    }
  }

  /** `_search_single_query`. */
  method SearchQuery(sv: Services, query: string, enabled: set<Method>, topK: int, ocrText: Option<string>,
                     filterOn: bool, selected: seq<string>) returns (r: Result<MethodResults, Raised>)
    ensures r == QueryMethods(sv, query, enabled, topK, ocrText, filterOn, selected)
  {
    var filter: Option<IndexSearch> := None;
    if filterOn && selected != [] {
      if sv.objectFilter.Failure? {
        return Failure(sv.objectFilter.error);
      }
      filter := Some(sv.objectFilter.value);
    }
    var a := SearchModelPart(sv, query, enabled, topK, filter, selected);
    if a.Failure? {
      return Failure(a.error);
    }
    var b := SearchCaptionPart(sv, query, enabled, topK, filter, selected);
    if b.Failure? {
      return Failure(b.error);
    }
    var ocrQuery := if ocrText.Some? && ocrText.value != [] then ocrText.value else query;
    var c := SearchTranscriptPart(sv, query, enabled, topK, ocrQuery, filter, selected);
    if c.Failure? {
      return Failure(c.error);
    }
    var per := a.value + b.value + c.value;
    var methodResults := SelectEnabled(per, enabled);
    var fused := EnsembleAllMethods(methodResults, topK);
    r := Success(per + [("ensemble", fused)]);
  }

  /** The Q3 loop over the enabled methods. */
  method BuildQ3(order: seq<Method>, r0: MethodResults, r1: MethodResults, r2: MethodResults, topK: int)
    returns (entries: MethodResults)
    ensures entries == Q3Entries(order, r0, r1, r2, topK)
  {
    entries := [];
    var i := 0;
    while i < |order|
      invariant 0 <= i <= |order|
      invariant entries == Q3Entries(order[..i], r0, r1, r2, topK)
    {
      assert order[..i + 1][..i] == order[..i];
      var k := Multistage.MethodName(order[i]);
      var l0, l1, l2 := Lookup(r0, k), Lookup(r1, k), Lookup(r2, k);
      if l0.Some? && l1.Some? && l2.Some? {
        assert InAll(order[i], r0, r1, r2);
        var fused := EnsembleCrossQueries(l0.value, l1.value, l2.value, topK);
        entries := entries + [(EnsembleName(order[i]), fused)];
      }
      i := i + 1;
    }
    assert order[..i] == order;
  }

  /** `search_with_augmentation`. */
  method HandleAugmented(sv: Services, request: Request, augmentor: Result<Augmentor, InitError>)
    returns (r: Result<Response, HttpError>)
    ensures r == SearchAugmented(sv, request, augmentor)
  {
    var topK := Multistage.TopKOf(request.topK);
    var sections := if request.queries.Some? then request.queries.value else [];
    var enabled := CollectMethods(sections);
    var query := request.query;
    if Multistage.Asr !in enabled && IsVietnamese(Some(query)) {
      query := Translate(query, sv.google);
    }
    if augmentor.Failure? {
      return Failure(HttpError(500, SearchErrorDetail));
    }
    var qs := AugmentQuery(query, sv.gemini, sv.loads);
    var ocrText := FindOcrText(sections, enabled);
    var on := FilterOn(request.filters);
    var selected := SelectedObjects(request.filters);
    var s0 := SearchQuery(sv, query, enabled, topK, ocrText, on, selected);
    var s1 := SearchQuery(sv, qs.0, enabled, topK, ocrText, on, selected);
    var s2 := SearchQuery(sv, qs.1, enabled, topK, ocrText, on, selected);
    if s0.Failure? || s1.Failure? || s2.Failure? {
      return Failure(HttpError(500, SearchErrorDetail));
    }
    assert SearchAugmented(sv, request, augmentor) ==
      Success(Answer(request, enabled, topK, query, qs.0, qs.1, s0.value, s1.value, s2.value));
    var entries := BuildQ3(Listed(enabled), s0.value, s1.value, s2.value, topK);
    var final := EnsembleAllMethods(entries, topK);
    var q3 := entries + [("ensemble_of_ensemble", final)];
    r := Success(Response(query, s0.value, qs.0, s1.value, qs.1, s2.value, q3, |final|, request.query, request.searchMethod));
  }
}
