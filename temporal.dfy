/** Temporal aggregation of multi-stage results: parsing a key frame's path
    into its video and frame number, merging the stages' results by id, and
    enumerating tuples of results, one per stage, that occur in the same video
    in increasing frame order. */
module Temporal {
  import opened Wrappers
  import opened Text
  import opened Json
  import opened Lists
  import opened Hits
  import opened Fusion

  // ---------------------------------------------------------------------
  // Key frame paths

  /** The path with backslashes turned into slashes, one leading `/` dropped
      and then one leading `keyframe/` dropped. */
  function NormalizedPath(p: string): (r: string)
    ensures '\\' !in r
    ensures |r| <= |p|
  {
    var a := ReplaceChar(p, '\\', '/');
    var b := if StartsWith(a, "/") then a[1..] else a;
    if StartsWith(b, "keyframe/") then b[9..] else b
  }

  /** The part before the first `.` of a file name. */
  function Stem(filename: string): string {
    Split(filename, '.')[0]
  }

  /** The `/`-separated parts of the normalised path. */
  function Parts(p: string): seq<string> {
    Split(NormalizedPath(p), '/')
  }

  /** `extract_video_and_frame(keyframe_path)`; `None` is the `(None, None)` pair.
      Whether the path has two parts or more, the video is the part before the
      file name and the frame is the integer before the file name's first `.`. */
  function ExtractVideoAndFrame(p: string): (r: Option<(string, int)>)
    ensures p == [] ==> r.None?
    ensures r.Some? <==> p != [] && |Parts(p)| >= 2 && PyInt(Stem(Parts(p)[|Parts(p)| - 1])).Some?
    ensures r.Some? ==> r.value.0 == Parts(p)[|Parts(p)| - 2]
    ensures r.Some? ==> Some(r.value.1) == PyInt(Stem(Parts(p)[|Parts(p)| - 1]))
  {
    if p == [] then None
    else
      var parts := Parts(p);
      if |parts| < 2 then None
      else
        var video := if |parts| >= 3 then parts[|parts| - 2] else parts[0];
        var filename := if |parts| >= 3 then parts[|parts| - 1] else parts[1];
        var frame := PyInt(Stem(filename));
        if frame.None? then None else Some((video, frame.value))
  }

  /** Every character of `str(n)` is a digit or the minus sign. */
  lemma IntToStrChars(n: int)
    ensures forall i | 0 <= i < |IntToStr(n)| :: IsDigit(IntToStr(n)[i]) || IntToStr(n)[i] == '-'
  {
    if n < 0 {
      var d := NatDigits(-n);
      assert forall i | 1 <= i < |IntToStr(n)| :: IntToStr(n)[i] == d[i - 1];
    }
  }

  /** A file named `str(n)` followed by an extension has stem `str(n)`. */
  lemma StemOfNumbered(n: int, ext: string)
    requires ext == [] || ext[0] == '.'
    ensures Stem(IntToStr(n) + ext) == IntToStr(n)
  {
    IntToStrChars(n);
    assert '.' !in IntToStr(n);
    if ext == [] {
      assert IntToStr(n) + ext == IntToStr(n);
      SplitNoSeparator(IntToStr(n), '.');
    } else {
      assert IntToStr(n) + ext == IntToStr(n) + ['.'] + ext[1..];
      SplitCons(IntToStr(n), '.', ext[1..]);
    }
  }

  /** A normalised path whose last two parts are `video` and a numbered file. */
  lemma ExtractOfParts(p: string, video: string, n: int, ext: string)
    requires p != []
    requires ext == [] || ext[0] == '.'
    requires |Parts(p)| >= 2 && Parts(p)[|Parts(p)| - 2] == video && Parts(p)[|Parts(p)| - 1] == IntToStr(n) + ext
    ensures ExtractVideoAndFrame(p) == Some((video, n))
  {
    StemOfNumbered(n, ext);
    PyIntOfIntToStr(n);
  }

  /** Splitting `video/file` where neither holds a slash. */
  lemma SplitTwo(video: string, file: string)
    requires '/' !in video && '/' !in file
    ensures Split(video + "/" + file, '/') == [video, file]
  {
    SplitCons(video, '/', file);
    SplitNoSeparator(file, '/');
  }

  /** The condition on the parts a path is built from. */
  predicate PlainPart(s: string) {
    '/' !in s && '\\' !in s
  }

  /** Normalising `/keyframes/<rest>` only drops the leading slash. */
  lemma NormalizedServed(p: string, rest: string)
    requires '\\' !in rest && p == "/keyframes/" + rest
    ensures NormalizedPath(p) == "keyframes/" + rest
  {
    ReplaceCharAbsent(p, '\\', '/');
    var b := "keyframes/" + rest;
    assert StartsWith(p, "/") && p[1..] == b;
    assert b[8] == 's';
  }

  /** Normalising `/keyframe/<rest>` leaves `rest`. */
  lemma NormalizedUnderKeyframe(p: string, rest: string)
    requires '\\' !in rest && p == "/keyframe/" + rest
    ensures NormalizedPath(p) == rest
  {
    ReplaceCharAbsent(p, '\\', '/');
    var b := "keyframe/" + rest;
    assert StartsWith(p, "/") && p[1..] == b;
    assert StartsWith(b, "keyframe/") && b[9..] == rest;
  }

  /** Normalising `<level>/<rest>` changes nothing when the first directory
      is neither empty nor `keyframe`. */
  lemma NormalizedUnderLevel(p: string, level: string, rest: string)
    requires PlainPart(level) && level != [] && level != "keyframe"
    requires '\\' !in rest && p == level + "/" + rest
    ensures NormalizedPath(p) == p
  {
    ReplaceCharAbsent(p, '\\', '/');
    assert p[0] == level[0] && !StartsWith(p, "/");
    var kf := "keyframe/";
    if |level| < 8 {
      assert p[|level|] == '/' != kf[|level|];
    } else if |level| == 8 {
      var i :| 0 <= i < 8 && level[i] != kf[i];
      assert p[i] == level[i];
    } else {
      assert p[8] == level[8] != kf[8];
    }
    assert !StartsWith(p, kf);
  }

  /** Splitting `<first>/<video>/<file>` gives the three parts. */
  lemma SplitThree(first: string, video: string, file: string)
    requires '/' !in first && '/' !in video && '/' !in file
    ensures Split(first + "/" + video + "/" + file, '/') == [first, video, file]
  {
    assert first + "/" + video + "/" + file == first + ['/'] + (video + "/" + file);
    SplitCons(first, '/', video + "/" + file);
    SplitTwo(video, file);
  }

  /** The parts of `/keyframes/<video>/<file>`. */
  lemma ServedParts(p: string, video: string, file: string)
    requires PlainPart(video) && PlainPart(file)
    requires p == "/keyframes/" + video + "/" + file
    ensures Parts(p) == ["keyframes", video, file]
  {
    assert p == "/keyframes/" + (video + "/" + file);
    NormalizedServed(p, video + "/" + file);
    assert "keyframes/" + (video + "/" + file) == "keyframes" + "/" + video + "/" + file;
    SplitThree("keyframes", video, file);
  }

  /** The parts of `/keyframe/<video>/<file>`. */
  lemma UnderKeyframeParts(p: string, video: string, file: string)
    requires PlainPart(video) && PlainPart(file)
    requires p == "/keyframe/" + video + "/" + file
    ensures Parts(p) == [video, file]
  {
    assert p == "/keyframe/" + (video + "/" + file);
    NormalizedUnderKeyframe(p, video + "/" + file);
    SplitTwo(video, file);
  }

  /** The parts of `<level>/<video>/<file>`. */
  lemma UnderLevelParts(p: string, level: string, video: string, file: string)
    requires PlainPart(level) && PlainPart(video) && PlainPart(file)
    requires level != [] && level != "keyframe"
    requires p == level + "/" + video + "/" + file
    ensures Parts(p) == [level, video, file]
  {
    assert p == level + "/" + (video + "/" + file);
    NormalizedUnderLevel(p, level, video + "/" + file);
    SplitThree(level, video, file);
  }

  /** Paths `/keyframes/<video>/<n><ext>`, the form in which key frames are
      served, parse back to the video and the frame number. */
  lemma ExtractServed(p: string, video: string, n: int, ext: string)
    requires PlainPart(video) && PlainPart(ext) && (ext == [] || ext[0] == '.')
    requires p == "/keyframes/" + video + "/" + IntToStr(n) + ext
    ensures ExtractVideoAndFrame(p) == Some((video, n))
  {
    var file := IntToStr(n) + ext;
    assert PlainPart(file) by { IntToStrChars(n); }
    ServedParts(p, video, file);
    ExtractOfParts(p, video, n, ext);
  }

  /** Paths `/keyframe/<video>/<n><ext>` parse to the video and the frame number. */
  lemma ExtractUnderKeyframe(p: string, video: string, n: int, ext: string)
    requires PlainPart(video) && PlainPart(ext) && (ext == [] || ext[0] == '.')
    requires p == "/keyframe/" + video + "/" + IntToStr(n) + ext
    ensures ExtractVideoAndFrame(p) == Some((video, n))
  {
    var file := IntToStr(n) + ext;
    assert PlainPart(file) by { IntToStrChars(n); }
    UnderKeyframeParts(p, video, file);
    ExtractOfParts(p, video, n, ext);
  }

  /** Paths `<level>/<video>/<n><ext>` parse to the video (the part before the
      file name) and the frame number, for any first directory other than
      `keyframe`. */
  lemma ExtractUnderLevel(p: string, level: string, video: string, n: int, ext: string)
    requires PlainPart(level) && PlainPart(video) && PlainPart(ext) && (ext == [] || ext[0] == '.')
    requires level != [] && level != "keyframe"
    requires p == level + "/" + video + "/" + IntToStr(n) + ext
    ensures ExtractVideoAndFrame(p) == Some((video, n))
  {
    LevelPathParts(p, level, video, n, ext);
    ExtractOfThree(p, level, video, n, ext);
  }

  lemma LevelPathParts(p: string, level: string, video: string, n: int, ext: string)
    requires PlainPart(level) && PlainPart(video) && PlainPart(ext)
    requires level != [] && level != "keyframe"
    requires p == level + "/" + video + "/" + IntToStr(n) + ext
    ensures p != [] && Parts(p) == [level, video, IntToStr(n) + ext]
  {
    var file := IntToStr(n) + ext;
    IntToStrChars(n);
    assert p == level + "/" + video + "/" + file;
    UnderLevelParts(p, level, video, file);
  }

  /** A path whose three parts end with a video and a numbered file. */
  lemma ExtractOfThree(p: string, level: string, video: string, n: int, ext: string)
    requires p != [] && (ext == [] || ext[0] == '.')
    requires Parts(p) == [level, video, IntToStr(n) + ext]
    ensures ExtractVideoAndFrame(p) == Some((video, n))
  {
    ExtractOfParts(p, video, n, ext);
  }

  /** A path with fewer than two parts after normalisation has no video. */
  lemma ExtractTooShort(p: string)
    requires PlainPart(p)
    ensures ExtractVideoAndFrame(p) == None
  {
    ReplaceCharAbsent(p, '\\', '/');
    SplitNoSeparator(NormalizedPath(p), '/');
  }

  /** A file name whose stem is not an integer gives no frame. */
  lemma ExtractBadStem(p: string, video: string, file: string)
    requires PlainPart(video) && PlainPart(file)
    requires p == "/keyframes/" + video + "/" + file
    requires PyInt(Stem(file)).None?
    ensures ExtractVideoAndFrame(p) == None
  {
    ServedParts(p, video, file);
  }

  // ---------------------------------------------------------------------
  // Aggregation by id

  /** A stage's results, each contributing its own score. */
  function Own(hits: seq<Hit>): (r: seq<Contribution>)
    ensures |r| == |hits|
    ensures forall i | 0 <= i < |hits| :: r[i] == Contribution(hits[i], hits[i].score)
  {
    seq(|hits|, i requires 0 <= i < |hits| => Contribution(hits[i], hits[i].score))
  }

  /** `n` copies of the stage number `stage`. */
  function Repeat(n: nat, stage: int): (r: seq<int>)
    ensures |r| == n && forall i | 0 <= i < n :: r[i] == stage
  {
    seq(n, i requires 0 <= i < n => stage)
  }

  /** Every stage's results in the order the loops visit them. */
  function Occurrences(stages: seq<seq<Hit>>): (r: seq<Contribution>)
    ensures |r| == |StageNumbers(stages)|
  {
    if stages == [] then []
    else Occurrences(stages[..|stages| - 1]) + Own(stages[|stages| - 1])
  }

  /** The stage number of each occurrence; the stage at index `k` is
      numbered `k + 1`. */
  function StageNumbers(stages: seq<seq<Hit>>): seq<int> {
    if stages == [] then []
    else StageNumbers(stages[..|stages| - 1]) + Repeat(|stages[|stages| - 1]|, |stages|)
  }

  /** The stage numbers of `id`'s occurrences, in visiting order. */
  function StagesOf(cs: seq<Contribution>, nums: seq<int>, id: Id): seq<int>
    requires |nums| == |cs|
  {
    if cs == [] then []
    else
      var n := |cs| - 1;
      StagesOf(cs[..n], nums[..n], id) + if cs[n].hit.id == id then [nums[n]] else []
  }

  /** Stage number to score for `id`; a later occurrence in the same stage
      overwrites an earlier one. */
  function StageScores(cs: seq<Contribution>, nums: seq<int>, id: Id): map<int, real>
    requires |nums| == |cs|
  {
    if cs == [] then map[]
    else
      var n := |cs| - 1;
      var m := StageScores(cs[..n], nums[..n], id);
      if cs[n].hit.id == id then m[nums[n] := cs[n].amount] else m
  }

  /** An aggregated result: the first occurrence's metadata carrying the
      summed score, the contributing stages, the score of each stage and the
      number of contributions. */
  datatype Aggregated = Aggregated(hit: Hit, contributingStages: seq<int>, stageScores: map<int, real>, numStages: int)

  function AggregatedScore(a: Aggregated): real {
    a.hit.score
  }

  /** The aggregate of one id. */
  function Entry(cs: seq<Contribution>, nums: seq<int>, id: Id): Aggregated
    requires |nums| == |cs| && Mentions(cs, id)
  {
    Aggregated(FirstHit(cs, id).(score := Total(cs, id)), StagesOf(cs, nums, id), StageScores(cs, nums, id), |StagesOf(cs, nums, id)|)
  }

  /** The aggregates in the order their ids were first seen. */
  function Built(cs: seq<Contribution>, nums: seq<int>): (r: seq<Aggregated>)
    requires |nums| == |cs|
    ensures |r| == |KeysOf(cs)|
    ensures forall i | 0 <= i < |r| :: Mentions(cs, KeysOf(cs)[i]) && r[i] == Entry(cs, nums, KeysOf(cs)[i])
  {
    var keys := KeysOf(cs);
    KeysOfFacts(cs);
    seq(|keys|, i requires 0 <= i < |keys| => Entry(cs, nums, keys[i]))
  }

  /** What `aggregate_by_id` returns: the aggregates, highest total first,
      equal totals in first-seen order. */
  function Aggregation(stages: seq<seq<Hit>>): seq<Aggregated> {
    SortDesc(Built(Occurrences(stages), StageNumbers(stages)), AggregatedScore)
  }

  // The dicts the loops build, as functions of the occurrences seen so far.

  /** `aggregated[rid]["total_score"]`, added to one occurrence at a time. */
  function TotalsOf(cs: seq<Contribution>): map<Id, real> {
    if cs == [] then map[]
    else
      var m := TotalsOf(cs[..|cs| - 1]);
      var c := cs[|cs| - 1];
      m[c.hit.id := (if c.hit.id in m then m[c.hit.id] else 0.0) + c.amount]
  }

  /** `aggregated[rid]["metadata"]`, set by the first occurrence. */
  function MetaOf(cs: seq<Contribution>): map<Id, Hit> {
    if cs == [] then map[]
    else
      var m := MetaOf(cs[..|cs| - 1]);
      var c := cs[|cs| - 1];
      if c.hit.id in m then m else m[c.hit.id := c.hit]
  }

  /** `aggregated[rid]["contributing_stages"]`. */
  function ListsOf(cs: seq<Contribution>, nums: seq<int>): map<Id, seq<int>>
    requires |nums| == |cs|
  {
    if cs == [] then map[]
    else
      var n := |cs| - 1;
      var m := ListsOf(cs[..n], nums[..n]);
      var rid := cs[n].hit.id;
      m[rid := (if rid in m then m[rid] else []) + [nums[n]]]
  }

  /** `aggregated[rid]["stage_scores"]`. */
  function PerStageOf(cs: seq<Contribution>, nums: seq<int>): map<Id, map<int, real>>
    requires |nums| == |cs|
  {
    if cs == [] then map[]
    else
      var n := |cs| - 1;
      var m := PerStageOf(cs[..n], nums[..n]);
      var rid := cs[n].hit.id;
      m[rid := (if rid in m then m[rid] else map[])[nums[n] := cs[n].amount]]
  }

  /** The loops' state after the occurrences `cs` with stage numbers `nums`. */
  predicate StateAfter(cs: seq<Contribution>, nums: seq<int>, keys: seq<Id>, totals: map<Id, real>, meta: map<Id, Hit>,
                       lists: map<Id, seq<int>>, perStage: map<Id, map<int, real>>)
  {
    |nums| == |cs| && keys == KeysOf(cs) && totals == TotalsOf(cs) && meta == MetaOf(cs)
    && lists == ListsOf(cs, nums) && perStage == PerStageOf(cs, nums)
  }

  /** One pass of the inner loop body over the occurrence `c` of stage `stage`. */
  lemma StateStep(cs: seq<Contribution>, nums: seq<int>, c: Contribution, stage: int,
                  keys: seq<Id>, totals: map<Id, real>, meta: map<Id, Hit>,
                  lists: map<Id, seq<int>>, perStage: map<Id, map<int, real>>,
                  keys': seq<Id>, totals': map<Id, real>, meta': map<Id, Hit>,
                  lists': map<Id, seq<int>>, perStage': map<Id, map<int, real>>)
    requires StateAfter(cs, nums, keys, totals, meta, lists, perStage)
    requires keys' == if c.hit.id in totals then keys else keys + [c.hit.id]
    requires totals' == totals[c.hit.id := (if c.hit.id in totals then totals[c.hit.id] else 0.0) + c.amount]
    requires meta' == if c.hit.id in meta then meta else meta[c.hit.id := c.hit]
    requires lists' == lists[c.hit.id := (if c.hit.id in lists then lists[c.hit.id] else []) + [stage]]
    requires perStage' == perStage[c.hit.id := (if c.hit.id in perStage then perStage[c.hit.id] else map[])[stage := c.amount]]
    ensures StateAfter(cs + [c], nums + [stage], keys', totals', meta', lists', perStage')
  {
    assert (cs + [c])[..|cs|] == cs;
    assert (nums + [stage])[..|cs|] == nums;
    KeysOfFacts(cs);
    TotalsOfFacts(cs);
  }

  /** `total_score` holds exactly the seen ids, each with its sum. */
  lemma {:induction false} TotalsOfFacts(cs: seq<Contribution>)
    ensures forall id :: id in TotalsOf(cs) <==> Mentions(cs, id)
    ensures forall id | id in TotalsOf(cs) :: TotalsOf(cs)[id] == Total(cs, id)
  {
    if cs != [] {
      var n := |cs| - 1;
      var init, c := cs[..n], cs[n];
      assert cs == init + [c];
      TotalsOfFacts(init);
      MentionsAppend(init, c);
      forall id | id in TotalsOf(cs) ensures TotalsOf(cs)[id] == Total(cs, id) {
        TotalSnoc(init, c, id);
        if id == c.hit.id && id !in TotalsOf(init) {
          TotalAbsent(init, id);
        }
      }
    }
  }

  /** `metadata` holds exactly the seen ids, each with its first occurrence. */
  lemma {:induction false} MetaOfFacts(cs: seq<Contribution>)
    ensures forall id :: id in MetaOf(cs) <==> Mentions(cs, id)
    ensures forall id | id in MetaOf(cs) :: Mentions(cs, id) && MetaOf(cs)[id] == FirstHit(cs, id)
  {
    if cs != [] {
      var n := |cs| - 1;
      var init, c := cs[..n], cs[n];
      assert cs == init + [c];
      MetaOfFacts(init);
      MentionsAppend(init, c);
      forall id | id in MetaOf(cs) ensures Mentions(cs, id) && MetaOf(cs)[id] == FirstHit(cs, id) {
        FirstHitSnoc(init, c, id);
      }
    }
  }

  /** `contributing_stages` holds exactly the seen ids, each with its stages. */
  lemma {:induction false} ListsOfFacts(cs: seq<Contribution>, nums: seq<int>)
    requires |nums| == |cs|
    ensures forall id :: id in ListsOf(cs, nums) <==> Mentions(cs, id)
    ensures forall id | id in ListsOf(cs, nums) :: ListsOf(cs, nums)[id] == StagesOf(cs, nums, id)
  {
    if cs != [] {
      var n := |cs| - 1;
      var init, c := cs[..n], cs[n];
      assert cs == init + [c];
      ListsOfFacts(init, nums[..n]);
      MentionsAppend(init, c);
      if !Mentions(init, c.hit.id) {
        StagesOfAbsent(init, nums[..n], c.hit.id);
      }
    }
  }

  /** `stage_scores` holds exactly the seen ids, each with its stage scores. */
  lemma {:induction false} PerStageOfFacts(cs: seq<Contribution>, nums: seq<int>)
    requires |nums| == |cs|
    ensures forall id :: id in PerStageOf(cs, nums) <==> Mentions(cs, id)
    ensures forall id | id in PerStageOf(cs, nums) :: PerStageOf(cs, nums)[id] == StageScores(cs, nums, id)
  {
    if cs != [] {
      var n := |cs| - 1;
      var init, c := cs[..n], cs[n];
      assert cs == init + [c];
      PerStageOfFacts(init, nums[..n]);
      MentionsAppend(init, c);
      if !Mentions(init, c.hit.id) {
        StagesOfAbsent(init, nums[..n], c.hit.id);
      }
    }
  }

  lemma OwnSnoc(cs: seq<Contribution>, hits: seq<Hit>, j: nat)
    requires j < |hits|
    ensures cs + Own(hits[..j + 1]) == cs + Own(hits[..j]) + [Contribution(hits[j], hits[j].score)]
  {
    assert Own(hits[..j + 1]) == Own(hits[..j]) + [Contribution(hits[j], hits[j].score)];
  }

  lemma RepeatSnoc(nums: seq<int>, j: nat, stage: int)
    ensures nums + Repeat(j + 1, stage) == nums + Repeat(j, stage) + [stage]
  {
    assert Repeat(j + 1, stage) == Repeat(j, stage) + [stage];
  }

  lemma OccurrencesSnoc(stages: seq<seq<Hit>>, s: nat)
    requires s < |stages|
    ensures Occurrences(stages[..s + 1]) == Occurrences(stages[..s]) + Own(stages[s])
    ensures StageNumbers(stages[..s + 1]) == StageNumbers(stages[..s]) + Repeat(|stages[s]|, s + 1)
  {
    assert stages[..s + 1][..s] == stages[..s];
  }

  /** An id that does not occur has no stages and no stage scores. */
  lemma {:induction false} StagesOfAbsent(cs: seq<Contribution>, nums: seq<int>, id: Id)
    requires |nums| == |cs| && !Mentions(cs, id)
    ensures StagesOf(cs, nums, id) == [] && StageScores(cs, nums, id) == map[]
  {
    if cs != [] {
      var n := |cs| - 1;
      assert cs == cs[..n] + [cs[n]];
      MentionsAppend(cs[..n], cs[n]);
      StagesOfAbsent(cs[..n], nums[..n], id);
    }
  }

  /** The inner loop of `aggregate_by_id` over one stage's results:
      `total_score += score`, `contributing_stages.append(stage_id)`,
      `stage_scores[stage_id] = score`, and the first occurrence's metadata. */
  method AddStage(hits: seq<Hit>, stageId: int, ghost cs: seq<Contribution>, ghost nums: seq<int>,
                  keys: seq<Id>, totals: map<Id, real>, meta: map<Id, Hit>,
                  lists: map<Id, seq<int>>, perStage: map<Id, map<int, real>>)
    returns (keys': seq<Id>, totals': map<Id, real>, meta': map<Id, Hit>,
             lists': map<Id, seq<int>>, perStage': map<Id, map<int, real>>)
    requires StateAfter(cs, nums, keys, totals, meta, lists, perStage)
    ensures StateAfter(cs + Own(hits), nums + Repeat(|hits|, stageId), keys', totals', meta', lists', perStage')
  {
    keys', totals', meta', lists', perStage' := keys, totals, meta, lists, perStage;
    ghost var seen, seenNums := cs, nums;
    var j := 0;
    while j < |hits|
      invariant 0 <= j <= |hits|
      invariant seen == cs + Own(hits[..j]) && seenNums == nums + Repeat(j, stageId)
      invariant StateAfter(seen, seenNums, keys', totals', meta', lists', perStage')
    {
      var result := hits[j];
      var rid := result.id;
      ghost var c := Contribution(result, result.score);
      ghost var k0, t0, m0, l0, p0 := keys', totals', meta', lists', perStage';
      keys' := if rid in totals' then keys' else keys' + [rid];
      totals' := totals'[rid := (if rid in totals' then totals'[rid] else 0.0) + result.score];
      meta' := if rid in meta' then meta' else meta'[rid := result];
      lists' := lists'[rid := (if rid in lists' then lists'[rid] else []) + [stageId]];
      perStage' := perStage'[rid := (if rid in perStage' then perStage'[rid] else map[])[stageId := result.score]];
      StateStep(seen, seenNums, c, stageId, k0, t0, m0, l0, p0, keys', totals', meta', lists', perStage');
      OwnSnoc(cs, hits, j);
      RepeatSnoc(nums, j, stageId);
      seen, seenNums := seen + [c], seenNums + [stageId];
      j := j + 1;
    }
    assert hits[..|hits|] == hits;
  }

  /** The loop that builds one result dict per id, in first-seen order. */
  method BuildResults(ghost cs: seq<Contribution>, ghost nums: seq<int>, keys: seq<Id>, totals: map<Id, real>, meta: map<Id, Hit>,
                      lists: map<Id, seq<int>>, perStage: map<Id, map<int, real>>) returns (built: seq<Aggregated>)
    requires StateAfter(cs, nums, keys, totals, meta, lists, perStage)
    ensures built == Built(cs, nums)
  {
    KeysOfFacts(cs);
    TotalsOfFacts(cs);
    MetaOfFacts(cs);
    ListsOfFacts(cs, nums);
    PerStageOfFacts(cs, nums);
    ghost var all := Built(cs, nums);
    built := [];
    var i := 0;
    while i < |keys|
      invariant 0 <= i <= |keys| && built == all[..i]
    {
      var rid := keys[i];
      var contributing := lists[rid];
      var item := Aggregated(meta[rid].(id := rid, score := totals[rid]), contributing, perStage[rid], |contributing|);
      assert item == all[i];
      TakeSnoc(all, i);
      built := built + [item];
      i := i + 1;
    }
    assert all[..|all|] == all;
  }

  /** `aggregate_by_id(stage_results)`: the stage loop, the result dicts and
      the sort by total. */
  method AggregateById(stages: seq<seq<Hit>>) returns (r: seq<Aggregated>)
    ensures r == Aggregation(stages)
  {
    var keys: seq<Id>, totals: map<Id, real>, meta: map<Id, Hit> := [], map[], map[];
    var lists: map<Id, seq<int>>, perStage: map<Id, map<int, real>> := map[], map[];
    ghost var cs: seq<Contribution>, nums: seq<int> := [], [];
    var s := 0;
    while s < |stages|
      invariant 0 <= s <= |stages| && cs == Occurrences(stages[..s]) && nums == StageNumbers(stages[..s])
      invariant StateAfter(cs, nums, keys, totals, meta, lists, perStage)
    {
      keys, totals, meta, lists, perStage := AddStage(stages[s], s + 1, cs, nums, keys, totals, meta, lists, perStage);
      OccurrencesSnoc(stages, s);
      cs, nums := cs + Own(stages[s]), nums + Repeat(|stages[s]|, s + 1);
      s := s + 1;
    }
    assert stages[..|stages|] == stages;
    var built := BuildResults(cs, nums, keys, totals, meta, lists, perStage);
    r := SortDesc(built, AggregatedScore);
  }

  // The aggregates stated per stage.

  /** The sum, over the stages, of `id`'s scores in each stage. */
  function StageSum(stages: seq<seq<Hit>>, id: Id): real {
    if stages == [] then 0.0
    else
      var last := stages[|stages| - 1];
      StageSum(stages[..|stages| - 1], id) + ScoreSum(last, Scores(last), id)
  }

  /** How many of `hits` carry `id`. */
  function Count(hits: seq<Hit>, id: Id): nat {
    if hits == [] then 0
    else Count(hits[..|hits| - 1], id) + if hits[|hits| - 1].id == id then 1 else 0
  }

  /** Stage `k + 1` repeated once for every result of stage `k` that carries `id`. */
  function StageList(stages: seq<seq<Hit>>, id: Id): seq<int> {
    if stages == [] then []
    else StageList(stages[..|stages| - 1], id) + Repeat(Count(stages[|stages| - 1], id), |stages|)
  }

  /** The score of the last of `hits` that carries `id`. */
  function LastScore(hits: seq<Hit>, id: Id): Option<real> {
    if hits == [] then None
    else if hits[|hits| - 1].id == id then Some(hits[|hits| - 1].score)
    else LastScore(hits[..|hits| - 1], id)
  }

  /** Stage number to the score of the stage's last result that carries `id`. */
  function StageScoreMap(stages: seq<seq<Hit>>, id: Id): map<int, real> {
    if stages == [] then map[]
    else
      var m := StageScoreMap(stages[..|stages| - 1], id);
      match LastScore(stages[|stages| - 1], id)
      case None => m
      case Some(x) => m[|stages| := x]
  }

  /** The first result carrying `id` in the first stage that has one. */
  function FirstOccurrence(stages: seq<seq<Hit>>, id: Id): Option<Hit> {
    if stages == [] then None
    else
      var last := stages[|stages| - 1];
      match FirstOccurrence(stages[..|stages| - 1], id)
      case Some(h) => Some(h)
      case None => if FirstIndexOf(last, id).Some? then Some(last[FirstIndexOf(last, id).value]) else None
  }

  lemma OwnInit(hits: seq<Hit>)
    requires hits != []
    ensures Own(hits)[..|hits| - 1] == Own(hits[..|hits| - 1])
  {
  }

  /** A stage adds, for `id`, the sum of its scores there. */
  lemma {:induction false} TotalOwn(hits: seq<Hit>, id: Id)
    ensures Total(Own(hits), id) == ScoreSum(hits, Scores(hits), id)
  {
    if hits != [] {
      var n := |hits| - 1;
      OwnInit(hits);
      TotalOwn(hits[..n], id);
      assert Scores(hits)[..n] == Scores(hits[..n]);
    }
  }

  /** A stage mentions exactly the ids of its results, and the first
      occurrence it holds is the first result with the id. */
  lemma FirstHitOwn(hits: seq<Hit>, id: Id)
    ensures Mentions(Own(hits), id) <==> FirstIndexOf(hits, id).Some?
    ensures FirstIndexOf(hits, id).Some? ==> FirstHit(Own(hits), id) == hits[FirstIndexOf(hits, id).value]
  {
    var cs := Own(hits);
    if FirstIndexOf(hits, id).Some? {
      var f := FirstIndexOf(hits, id).value;
      assert cs[f].hit.id == id;
      var j := FirstIndex(cs, id);
      assert cs[j].hit == hits[j];
      assert !(f < j) && !(j < f);
    }
  }

  lemma {:induction false} StagesOfAppend(a: seq<Contribution>, an: seq<int>, b: seq<Contribution>, bn: seq<int>, id: Id)
    requires |an| == |a| && |bn| == |b|
    decreases |b|
    ensures StagesOf(a + b, an + bn, id) == StagesOf(a, an, id) + StagesOf(b, bn, id)
    ensures StageScores(a + b, an + bn, id) == StageScores(a, an, id) + StageScores(b, bn, id)
  {
    if b == [] {
      assert a + b == a && an + bn == an;
    } else {
      var n := |b| - 1;
      assert (a + b)[..|a| + n] == a + b[..n];
      assert (an + bn)[..|a| + n] == an + bn[..n];
      StagesOfAppend(a, an, b[..n], bn[..n], id);
    }
  }

  lemma {:induction false} StagesOfOwn(hits: seq<Hit>, t: int, id: Id)
    ensures StagesOf(Own(hits), Repeat(|hits|, t), id) == Repeat(Count(hits, id), t)
    ensures StageScores(Own(hits), Repeat(|hits|, t), id) == match LastScore(hits, id) case None => map[] case Some(x) => map[t := x]
  {
    if hits != [] {
      var n := |hits| - 1;
      OwnInit(hits);
      assert Repeat(|hits|, t)[..n] == Repeat(n, t);
      StagesOfOwn(hits[..n], t, id);
      if hits[n].id == id {
        assert Repeat(Count(hits[..n], id), t) + [t] == Repeat(Count(hits[..n], id) + 1, t);
      } else {
        assert Repeat(Count(hits[..n], id), t) + [] == Repeat(Count(hits[..n], id), t);
      }
    }
  }

  /** Aggregation read per stage: an id is seen exactly when some stage holds
      it, and its metadata is the first such result of the first stage that
      holds it. */
  lemma {:induction false} OccurrencesFirst(stages: seq<seq<Hit>>, id: Id)
    ensures Mentions(Occurrences(stages), id) <==> FirstOccurrence(stages, id).Some?
    ensures FirstOccurrence(stages, id).Some? ==> FirstHit(Occurrences(stages), id) == FirstOccurrence(stages, id).value
  {
    if stages != [] {
      var n := |stages| - 1;
      var init, last := stages[..n], stages[n];
      OccurrencesFirst(init, id);
      var a, b := Occurrences(init), Own(last);
      FirstHitOwn(last, id);
      MentionsAppendLists(a, b, id);
      if Mentions(a, id) || Mentions(b, id) {
        FirstHitAppend(a, b, id);
      }
    }
  }

  /** An id's total is the sum of its scores in every stage. */
  lemma {:induction false} OccurrencesTotal(stages: seq<seq<Hit>>, id: Id)
    ensures Total(Occurrences(stages), id) == StageSum(stages, id)
  {
    if stages != [] {
      var n := |stages| - 1;
      OccurrencesTotal(stages[..n], id);
      TotalAppend(Occurrences(stages[..n]), Own(stages[n]), id);
      TotalOwn(stages[n], id);
    }
  }

  /** An id's stage list has stage `k + 1` once per result of stage `k` that
      carries it; its stage scores are, per stage holding it, the score of the
      stage's last such result. */
  lemma {:induction false} OccurrencesStages(stages: seq<seq<Hit>>, id: Id)
    ensures StagesOf(Occurrences(stages), StageNumbers(stages), id) == StageList(stages, id)
    ensures StageScores(Occurrences(stages), StageNumbers(stages), id) == StageScoreMap(stages, id)
  {
    if stages != [] {
      var n := |stages| - 1;
      var init, last := stages[..n], stages[n];
      OccurrencesStages(init, id);
      var a, an := Occurrences(init), StageNumbers(init);
      var b, bn := Own(last), Repeat(|last|, |stages|);
      StagesOfAppend(a, an, b, bn, id);
      StagesOfOwn(last, |stages|, id);
      var m := StageScoreMap(init, id);
      match LastScore(last, id)
      case None =>
        assert StageScores(a, an, id) + map[] == m;
      case Some(x) =>
        assert StageScores(a, an, id) + map[|stages| := x] == m[|stages| := x];
    }
  }

  /** With the ids of every stage distinct, as the fused lists make them, an
      id's stage list is the ascending list of the stages that hold it, its
      stage count is the number of those stages, and each of its stage scores
      is its score in that stage. */
  lemma {:induction false} CountDistinct(hits: seq<Hit>, id: Id)
    requires Distinct(Ids(hits))
    ensures Count(hits, id) == if FirstIndexOf(hits, id).Some? then 1 else 0
    ensures FirstIndexOf(hits, id).Some? ==> LastScore(hits, id) == Some(hits[FirstIndexOf(hits, id).value].score)
    ensures FirstIndexOf(hits, id).None? ==> LastScore(hits, id).None?
  {
    if hits != [] {
      var n := |hits| - 1;
      var init := hits[..n];
      assert Ids(init) == Ids(hits)[..n];
      CountDistinct(init, id);
      if hits[n].id == id {
        assert forall k | 0 <= k < n :: Ids(hits)[k] != Ids(hits)[n];
        assert forall k | 0 <= k < n :: init[k].id != id;
        assert FirstIndexOf(hits, id) == Some(n);
      } else if FirstIndexOf(init, id).Some? {
        var f := FirstIndexOf(init, id).value;
        assert hits[f] == init[f];
        assert FirstIndexOf(hits, id) == Some(f);
      } else {
        assert forall k | 0 <= k < n :: hits[k] == init[k];
      }
    }
  }

  /** Stage numbers are between 1 and the number of stages, and the stage
      list is already in order: the `sorted` applied to it leaves it as it is. */
  lemma {:induction false} StageListOrdered(stages: seq<seq<Hit>>, id: Id)
    ensures forall k | 0 <= k < |StageList(stages, id)| :: 1 <= StageList(stages, id)[k] <= |stages|
    ensures forall i, j | 0 <= i < j < |StageList(stages, id)| :: StageList(stages, id)[i] <= StageList(stages, id)[j]
  {
    if stages != [] {
      StageListOrdered(stages[..|stages| - 1], id);
    }
  }

  /** Every stage holds each id at most once. */
  predicate DistinctStages(stages: seq<seq<Hit>>) {
    forall t | 0 <= t < |stages| :: Distinct(Ids(stages[t]))
  }

  /** With distinct ids per stage, the stage list is strictly increasing and
      holds exactly the stages whose results carry the id. */
  lemma {:induction false} StageListDistinct(stages: seq<seq<Hit>>, id: Id)
    requires DistinctStages(stages)
    ensures forall i, j | 0 <= i < j < |StageList(stages, id)| :: StageList(stages, id)[i] < StageList(stages, id)[j]
    ensures forall t :: t in StageList(stages, id) <==> 1 <= t <= |stages| && FirstIndexOf(stages[t - 1], id).Some?
  {
    if stages != [] {
      var n := |stages| - 1;
      var init := stages[..n];
      DistinctStagesInit(stages);
      StageListDistinct(init, id);
      StageListOrdered(init, id);
      CountDistinct(stages[n], id);
      var l, r := StageList(init, id), Repeat(Count(stages[n], id), n + 1);
      assert StageList(stages, id) == l + r;
      assert forall x | x in l :: x <= n;
      forall t ensures t in l + r <==> 1 <= t <= |stages| && FirstIndexOf(stages[t - 1], id).Some? {
        assert t in l + r <==> t in l || t in r;
        assert t in r <==> r != [] && t == n + 1 by {
          if r != [] {
            assert r[0] == n + 1;
          }
        }
        if 1 <= t <= n {
          assert init[t - 1] == stages[t - 1];
        }
      }
    }
  }

  lemma DistinctStagesInit(stages: seq<seq<Hit>>)
    requires stages != [] && DistinctStages(stages)
    ensures DistinctStages(stages[..|stages| - 1])
  {
    var init := stages[..|stages| - 1];
    forall t | 0 <= t < |init| ensures Distinct(Ids(init[t])) {
      assert init[t] == stages[t];
    }
  }

  /** With distinct ids per stage, the stage scores map exactly the stages
      holding the id, each to the id's score in that stage. */
  lemma StageScoreMapDistinct(stages: seq<seq<Hit>>, id: Id)
    requires DistinctStages(stages)
    ensures forall t :: t in StageScoreMap(stages, id) <==> 1 <= t <= |stages| && FirstIndexOf(stages[t - 1], id).Some?
    ensures forall t | t in StageScoreMap(stages, id) ::
      StageScoreMap(stages, id)[t] == stages[t - 1][FirstIndexOf(stages[t - 1], id).value].score
  {
    StageScoreMapDomain(stages, id);
    StageScoreMapValues(stages, id);
  }

  lemma {:induction false} StageScoreMapDomain(stages: seq<seq<Hit>>, id: Id)
    requires DistinctStages(stages)
    ensures forall t :: t in StageScoreMap(stages, id) <==> 1 <= t <= |stages| && FirstIndexOf(stages[t - 1], id).Some?
  {
    if stages != [] {
      var n := |stages| - 1;
      var init, last := stages[..n], stages[n];
      DistinctStagesInit(stages);
      StageScoreMapDomain(init, id);
      CountDistinct(last, id);
      var m, full := StageScoreMap(init, id), StageScoreMap(stages, id);
      if FirstIndexOf(last, id).None? {
        assert full == m;
      } else {
        assert full == m[|stages| := last[FirstIndexOf(last, id).value].score];
      }
      forall t ensures t in full <==> 1 <= t <= |stages| && FirstIndexOf(stages[t - 1], id).Some? {
        if 1 <= t <= n {
          assert init[t - 1] == stages[t - 1];
        }
      }
    }
  }

  lemma {:induction false} StageScoreMapValues(stages: seq<seq<Hit>>, id: Id)
    requires DistinctStages(stages)
    ensures forall t | t in StageScoreMap(stages, id) ::
      1 <= t <= |stages| && FirstIndexOf(stages[t - 1], id).Some?
      && StageScoreMap(stages, id)[t] == stages[t - 1][FirstIndexOf(stages[t - 1], id).value].score
  {
    if stages != [] {
      var n := |stages| - 1;
      var init, last := stages[..n], stages[n];
      DistinctStagesInit(stages);
      StageScoreMapValues(init, id);
      CountDistinct(last, id);
      var m, full := StageScoreMap(init, id), StageScoreMap(stages, id);
      if FirstIndexOf(last, id).None? {
        assert full == m;
      } else {
        assert full == m[|stages| := last[FirstIndexOf(last, id).value].score];
      }
      forall t | t in full
        ensures 1 <= t <= |stages| && FirstIndexOf(stages[t - 1], id).Some?
          && full[t] == stages[t - 1][FirstIndexOf(stages[t - 1], id).value].score
      {
        if t <= n {
          assert init[t - 1] == stages[t - 1];
        }
      }
    }
  }

  /** The aggregate of one id, read per stage. */
  function StageEntry(stages: seq<seq<Hit>>, id: Id): Aggregated
    requires FirstOccurrence(stages, id).Some?
  {
    Aggregated(FirstOccurrence(stages, id).value.(score := StageSum(stages, id)),
      StageList(stages, id), StageScoreMap(stages, id), |StageList(stages, id)|)
  }

  lemma EntryPerStage(stages: seq<seq<Hit>>, id: Id)
    requires Mentions(Occurrences(stages), id)
    ensures FirstOccurrence(stages, id).Some?
    ensures Entry(Occurrences(stages), StageNumbers(stages), id) == StageEntry(stages, id)
  {
    OccurrencesFirst(stages, id);
    OccurrencesTotal(stages, id);
    OccurrencesStages(stages, id);
  }

  /** `aggregate_by_id`: one aggregate per id that some stage holds, none
      twice; each is the id's first result with its scores summed over the
      stages, its stage list and its per-stage scores; highest total first. */
  lemma AggregationFacts(stages: seq<seq<Hit>>)
    ensures forall i | 0 <= i < |Aggregation(stages)| ::
      FirstOccurrence(stages, Aggregation(stages)[i].hit.id).Some?
      && Aggregation(stages)[i] == StageEntry(stages, Aggregation(stages)[i].hit.id)
    ensures forall id | FirstOccurrence(stages, id).Some? ::
      exists i | 0 <= i < |Aggregation(stages)| :: Aggregation(stages)[i].hit.id == id
    ensures forall i, j | 0 <= i < j < |Aggregation(stages)| :: Aggregation(stages)[i].hit.id != Aggregation(stages)[j].hit.id
    ensures SortedDesc(Aggregation(stages), AggregatedScore)
  {
    var r := Aggregation(stages);
    AggregationInBuilt(stages);
    AggregationComplete(stages);
    AggregationDistinct(stages);
    forall i | 0 <= i < |r|
      ensures FirstOccurrence(stages, r[i].hit.id).Some? && r[i] == StageEntry(stages, r[i].hit.id)
    {
      EntryPerStage(stages, r[i].hit.id);
    }
    forall i, j | 0 <= i < j < |r| ensures r[i].hit.id != r[j].hit.id {
      assert r[i] != r[j];
    }
  }

  /** Every aggregate is the entry of an id that occurs. */
  lemma AggregationInBuilt(stages: seq<seq<Hit>>)
    ensures forall i | 0 <= i < |Aggregation(stages)| ::
      Mentions(Occurrences(stages), Aggregation(stages)[i].hit.id)
      && Aggregation(stages)[i] == Entry(Occurrences(stages), StageNumbers(stages), Aggregation(stages)[i].hit.id)
  {
    var cs, nums := Occurrences(stages), StageNumbers(stages);
    var b, r := Built(cs, nums), Aggregation(stages);
    KeysOfFacts(cs);
    forall i | 0 <= i < |r| ensures Mentions(cs, r[i].hit.id) && r[i] == Entry(cs, nums, r[i].hit.id) {
      assert r[i] in multiset(b);
      var k :| 0 <= k < |b| && b[k] == r[i];
    }
  }

  /** Every id that occurs has an aggregate. */
  lemma AggregationComplete(stages: seq<seq<Hit>>)
    ensures forall id | FirstOccurrence(stages, id).Some? ::
      exists i | 0 <= i < |Aggregation(stages)| :: Aggregation(stages)[i].hit.id == id
  {
    var cs, nums := Occurrences(stages), StageNumbers(stages);
    var b, r := Built(cs, nums), Aggregation(stages);
    var keys := KeysOf(cs);
    KeysOfFacts(cs);
    forall id | FirstOccurrence(stages, id).Some? ensures exists i | 0 <= i < |r| :: r[i].hit.id == id {
      OccurrencesFirst(stages, id);
      var k :| 0 <= k < |keys| && keys[k] == id;
      assert b[k] in multiset(r);
      var i :| 0 <= i < |r| && r[i] == b[k];
      assert r[i].hit.id == id;
    }
  }

  lemma AggregationDistinct(stages: seq<seq<Hit>>)
    ensures Distinct(Aggregation(stages))
  {
    var cs, nums := Occurrences(stages), StageNumbers(stages);
    var b, r := Built(cs, nums), Aggregation(stages);
    var keys := KeysOf(cs);
    KeysOfFacts(cs);
    assert Distinct(b) by {
      forall i, j | 0 <= i < j < |b| ensures b[i] != b[j] {
        assert b[i].hit.id == keys[i] && b[j].hit.id == keys[j];
      }
    }
    PermutationDistinct(b, r);
  }

  /** Equal totals keep the order in which their ids were first seen across
      the stages. */
  lemma AggregationTies(stages: seq<seq<Hit>>, i: nat, j: nat)
    requires i < j < |Aggregation(stages)|
    requires Aggregation(stages)[i].hit.score == Aggregation(stages)[j].hit.score
    ensures Mentions(Occurrences(stages), Aggregation(stages)[i].hit.id)
    ensures Mentions(Occurrences(stages), Aggregation(stages)[j].hit.id)
    ensures FirstIndex(Occurrences(stages), Aggregation(stages)[i].hit.id)
      < FirstIndex(Occurrences(stages), Aggregation(stages)[j].hit.id)
  {
    var cs, nums := Occurrences(stages), StageNumbers(stages);
    var b := Built(cs, nums);
    var keys := KeysOf(cs);
    var r := Aggregation(stages);
    var rank := (e: Aggregated) => Position(keys, e.hit.id);
    KeysOfFacts(cs);
    forall k | 0 <= k < |b| ensures rank(b[k]) == k {
      var p := Position(keys, keys[k]);
      assert keys[p] == keys[k];
    }
    SortDescTies(b, AggregatedScore, rank);
    assert rank(r[i]) < rank(r[j]);
    assert r[i] in multiset(b) && r[j] in multiset(b);
    var ki :| 0 <= ki < |b| && b[ki] == r[i];
    var kj :| 0 <= kj < |b| && b[kj] == r[j];
    KeysOfOrder(cs);
  }
}
