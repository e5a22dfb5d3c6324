/** The tuple mode of the temporal aggregation of
    `backend/app/utils/temporal_aggregation.py` (`find_temporal_tuples`):
    one result per stage, all of one video, with strictly increasing frame
    numbers. */
module TemporalTuples {
  import opened Wrappers
  import opened Lists
  import opened Hits
  import opened Temporal

  /** A result with the frame number parsed from its keyframe path. */
  datatype Framed = Framed(hit: Hit, frame: int)

  /** One dict of the returned list. */
  datatype Tuple = Tuple(tupleId: int, video: string, results: seq<Hit>, frameIndices: seq<int>,
                         totalScore: real, numStages: int)

  type Groups = map<string, seq<Framed>>

  /** Video and frame of a result; a missing or empty `keyframe_path` and a
      path the parser rejects are both skipped. */
  function Parsed(h: Hit): Option<(string, int)> {
    if h.keyframePath.None? || h.keyframePath.value == [] then None
    else ExtractVideoAndFrame(h.keyframePath.value)
  }

  // Grouping one stage's results by video.

  /** The videos of `video_groups`, in the order a dict inserts them. */
  function VideoKeys(hits: seq<Hit>): seq<string> {
    if hits == [] then []
    else
      var keys := VideoKeys(hits[..|hits| - 1]);
      var p := Parsed(hits[|hits| - 1]);
      if p.Some? && p.value.0 !in keys then keys + [p.value.0] else keys
  }

  /** The results of `video`, with their frames, in input order. */
  function Group(hits: seq<Hit>, video: string): seq<Framed> {
    if hits == [] then []
    else
      var g := Group(hits[..|hits| - 1], video);
      var h := hits[|hits| - 1];
      var p := Parsed(h);
      if p.Some? && p.value.0 == video then g + [Framed(h, p.value.1)] else g
  }

  /** `video_groups` as the appending loop leaves it. */
  function RawGroups(hits: seq<Hit>): Groups {
    if hits == [] then map[]
    else
      var g := RawGroups(hits[..|hits| - 1]);
      var h := hits[|hits| - 1];
      var p := Parsed(h);
      if p.None? then g
      else
        var video := p.value.0;
        g[video := (if video in g then g[video] else []) + [Framed(h, p.value.1)]]
  }

  /** Sorting by this key, highest first and stably, is Python's stable
      ascending sort by frame number. */
  function NegFrame(x: Framed): real {
    -(x.frame as real)
  }

  /** `list.sort(key=lambda x: x[1])`. */
  function ByFrame(g: seq<Framed>): seq<Framed> {
    SortDesc(g, NegFrame)
  }

  /** `video_groups` once every group is sorted by frame number. */
  function StageGroups(hits: seq<Hit>): Groups {
    map v | v in VideoKeys(hits) :: ByFrame(Group(hits, v))
  }

  lemma {:induction false} RawGroupsFacts(hits: seq<Hit>)
    ensures Distinct(VideoKeys(hits))
    ensures forall v :: v in RawGroups(hits) <==> v in VideoKeys(hits)
    ensures forall v | v in RawGroups(hits) :: RawGroups(hits)[v] == Group(hits, v)
    ensures forall v | v !in VideoKeys(hits) :: Group(hits, v) == []
  {
    if hits != [] {
      RawGroupsFacts(hits[..|hits| - 1]);
    }
  }

  /** A video's group holds exactly its parsed results, by frame number. */
  lemma {:induction false} GroupMembers(hits: seq<Hit>, video: string)
    ensures forall x: Framed :: x in Group(hits, video) <==> x.hit in hits && Parsed(x.hit) == Some((video, x.frame))
  {
    if hits != [] {
      var n := |hits| - 1;
      GroupMembers(hits[..n], video);
      assert hits == hits[..n] + [hits[n]];
      forall x: Framed ensures x.hit in hits <==> x.hit in hits[..n] || x.hit == hits[n] {
      }
    }
  }

  /** Each stage's groups: a video has one exactly when some result of the
      stage parses to it; its group holds exactly the results parsed to it,
      with their frames, in ascending frame order. */
  lemma StageGroupsFacts(hits: seq<Hit>)
    ensures forall v :: v in StageGroups(hits) <==> exists h | h in hits :: Parsed(h).Some? && Parsed(h).value.0 == v
    ensures forall v, x: Framed | v in StageGroups(hits) ::
      x in StageGroups(hits)[v] <==> x.hit in hits && Parsed(x.hit) == Some((v, x.frame))
    ensures forall v | v in StageGroups(hits) :: SortedDesc(StageGroups(hits)[v], NegFrame)
  {
    forall v ensures v in StageGroups(hits) <==> exists h | h in hits :: Parsed(h).Some? && Parsed(h).value.0 == v {
      StageGroupKey(hits, v);
    }
    forall v, x: Framed | v in StageGroups(hits)
      ensures x in StageGroups(hits)[v] <==> x.hit in hits && Parsed(x.hit) == Some((v, x.frame))
    {
      StageGroupMember(hits, v, x);
    }
  }

  lemma StageGroupKey(hits: seq<Hit>, v: string)
    ensures v in StageGroups(hits) <==> exists h | h in hits :: Parsed(h).Some? && Parsed(h).value.0 == v
  {
    RawGroupsFacts(hits);
    GroupMembers(hits, v);
    if h :| h in hits && Parsed(h).Some? && Parsed(h).value.0 == v {
      assert Framed(h, Parsed(h).value.1) in Group(hits, v);
    }
    if v in VideoKeys(hits) {
      var g := Group(hits, v);
      assert g != [] by {
        var k :| 0 <= k < |VideoKeys(hits)| && VideoKeys(hits)[k] == v;
        VideoKeysGrouped(hits, k);
      }
      assert g[0] in g;
    }
  }

  lemma StageGroupMember(hits: seq<Hit>, v: string, x: Framed)
    requires v in StageGroups(hits)
    ensures x in StageGroups(hits)[v] <==> x.hit in hits && Parsed(x.hit) == Some((v, x.frame))
  {
    GroupMembers(hits, v);
    var g := Group(hits, v);
    assert StageGroups(hits)[v] == ByFrame(g);
    assert x in ByFrame(g) <==> x in multiset(ByFrame(g));
    assert x in g <==> x in multiset(g);
  }

  lemma {:induction false} VideoKeysGrouped(hits: seq<Hit>, k: nat)
    requires k < |VideoKeys(hits)|
    ensures Group(hits, VideoKeys(hits)[k]) != []
  {
    var n := |hits| - 1;
    var v := VideoKeys(hits)[k];
    if k < |VideoKeys(hits[..n])| {
      VideoKeysGrouped(hits[..n], k);
    }
  }

  // What is common to all stages.

  /** Every stage has a group for `video`. */
  predicate InAll(data: seq<Groups>, video: string) {
    forall s | 0 <= s < |data| :: video in data[s]
  }

  /** The keys that every stage's groups share, in their own order. */
  function Shared(keys: seq<string>, data: seq<Groups>): (r: seq<string>)
    ensures forall v :: v in r <==> v in keys && InAll(data, v)
  {
    if keys == [] then []
    else
      var r := Shared(keys[..|keys| - 1], data);
      var v := keys[|keys| - 1];
      assert keys == keys[..|keys| - 1] + [v];
      if InAll(data, v) then r + [v] else r
  }

  lemma {:induction false} SharedDistinct(keys: seq<string>, data: seq<Groups>)
    requires Distinct(keys)
    ensures Distinct(Shared(keys, data))
  {
    if keys != [] {
      var init := keys[..|keys| - 1];
      assert Distinct(init);
      SharedDistinct(init, data);
      assert keys[|keys| - 1] !in init;
    }
  }

  /** `stage_data`. */
  function StageData(stages: seq<seq<Hit>>): (r: seq<Groups>)
    ensures |r| == |stages| && forall s | 0 <= s < |stages| :: r[s] == StageGroups(stages[s])
  {
    seq(|stages|, s requires 0 <= s < |stages| => StageGroups(stages[s]))
  }

  /** `sorted(common_videos)`. */
  function CommonVideos(stages: seq<seq<Hit>>): seq<string>
    requires stages != []
  {
    SortStrs(Shared(VideoKeys(stages[0]), StageData(stages)))
  }

  /** The common videos are in ascending order, none twice, and they are
      exactly the videos that some result of every stage parses to. */
  lemma CommonVideosFacts(stages: seq<seq<Hit>>)
    requires stages != []
    ensures StrictlySortedStrs(CommonVideos(stages))
    ensures forall v :: v in CommonVideos(stages) <==> InAll(StageData(stages), v)
  {
    var data := StageData(stages);
    var keys := VideoKeys(stages[0]);
    RawGroupsFacts(stages[0]);
    SharedDistinct(keys, data);
    SortStrsDistinct(Shared(keys, data));
    forall v ensures InAll(data, v) ==> v in keys {
      if InAll(data, v) {
        assert v in data[0];
      }
    }
  }

  // The combinations of one video.

  function Prefixed<T>(x: T, ps: seq<seq<T>>): (r: seq<seq<T>>)
    ensures |r| == |ps| && forall i | 0 <= i < |ps| :: r[i] == [x] + ps[i]
  {
    seq(|ps|, i requires 0 <= i < |ps| => [x] + ps[i])
  }

  /** Each of `first` in front of each of `rest`, `first` varying slowest. */
  function Fronted<T>(first: seq<T>, rest: seq<seq<T>>): seq<seq<T>> {
    if first == [] then [] else Prefixed(first[0], rest) + Fronted(first[1..], rest)
  }

  /** `itertools.product(*lists)`: the last list varies fastest. */
  function Product<T>(lists: seq<seq<T>>): seq<seq<T>>
    decreases |lists|
  {
    if lists == [] then [[]] else Fronted(lists[0], Product(lists[1..]))
  }

  lemma {:induction false} FrontedMembers<T>(first: seq<T>, rest: seq<seq<T>>, c: seq<T>)
    ensures c in Fronted(first, rest) <==> c != [] && c[0] in first && c[1..] in rest
  {
    if first != [] {
      FrontedMembers(first[1..], rest, c);
      if c != [] && c[0] == first[0] && c[1..] in rest {
        var i :| 0 <= i < |rest| && rest[i] == c[1..];
        assert Prefixed(first[0], rest)[i] == c;
      }
      if c in Prefixed(first[0], rest) {
        var i :| 0 <= i < |rest| && Prefixed(first[0], rest)[i] == c;
        assert c[1..] == rest[i];
      }
      assert c != [] && c[0] in first ==> c[0] == first[0] || c[0] in first[1..];
    }
  }

  /** The product holds exactly the sequences taking their `k`-th element
      from the `k`-th list. */
  lemma {:induction false} ProductMembers<T>(lists: seq<seq<T>>, c: seq<T>)
    decreases |lists|
    ensures c in Product(lists) <==> |c| == |lists| && forall k | 0 <= k < |c| :: c[k] in lists[k]
  {
    if lists != [] {
      FrontedMembers(lists[0], Product(lists[1..]), c);
      if c != [] {
        ProductMembers(lists[1..], c[1..]);
        if |c| == |lists| && c[0] in lists[0] && c[1..] in Product(lists[1..]) {
          forall k | 0 <= k < |c| ensures c[k] in lists[k] {
            if k > 0 {
              assert c[k] == c[1..][k - 1];
            }
          }
        }
        if |c| == |lists| && forall k | 0 <= k < |c| :: c[k] in lists[k] {
          forall k | 0 <= k < |c| - 1 ensures c[1..][k] in lists[1..][k] {
            assert c[1..][k] == c[k + 1];
          }
        }
      }
    }
  }

  /** The all-adjacent check of `find_temporal_tuples`. */
  predicate Increasing(c: seq<Framed>) {
    forall i | 0 <= i < |c| - 1 :: c[i].frame < c[i + 1].frame
  }

  lemma {:induction false} IncreasingStrictly(c: seq<Framed>, i: nat, j: nat)
    requires Increasing(c) && i < j < |c|
    decreases j - i
    ensures c[i].frame < c[j].frame
  {
    if i + 1 < j {
      IncreasingStrictly(c, i + 1, j);
    }
  }

  /** The groups of `video` across the stages. */
  function GroupsFor(data: seq<Groups>, video: string): (r: seq<seq<Framed>>)
    ensures |r| == |data|
    ensures forall s | 0 <= s < |data| :: r[s] == if video in data[s] then data[s][video] else []
  {
    seq(|data|, s requires 0 <= s < |data| => if video in data[s] then data[s][video] else [])
  }

  /** The combinations of `combos`, for `video`, that pass the check. */
  function Valid(video: string, combos: seq<seq<Framed>>): seq<(string, seq<Framed>)> {
    if combos == [] then []
    else
      var c := combos[|combos| - 1];
      Valid(video, combos[..|combos| - 1]) + if Increasing(c) then [(video, c)] else []
  }

  /** Every tuple's video and combination, video by video. */
  function Found(data: seq<Groups>, videos: seq<string>): seq<(string, seq<Framed>)> {
    if videos == [] then []
    else
      var v := videos[|videos| - 1];
      Found(data, videos[..|videos| - 1]) + Valid(v, Product(GroupsFor(data, v)))
  }

  function HitsOf(c: seq<Framed>): (r: seq<Hit>)
    ensures |r| == |c| && forall i | 0 <= i < |c| :: r[i] == c[i].hit
  {
    seq(|c|, i requires 0 <= i < |c| => c[i].hit)
  }

  function FramesOf(c: seq<Framed>): (r: seq<int>)
    ensures |r| == |c| && forall i | 0 <= i < |c| :: r[i] == c[i].frame
  {
    seq(|c|, i requires 0 <= i < |c| => c[i].frame)
  }

  /** The dict built for one combination. */
  function MakeTuple(id: int, video: string, c: seq<Framed>, numStages: int): Tuple {
    Tuple(id, video, HitsOf(c), FramesOf(c), Sum(Scores(HitsOf(c))), numStages)
  }

  /** The tuples in the order they are found, `tuple_id` counting from 0. */
  function Numbered(found: seq<(string, seq<Framed>)>, numStages: int): (r: seq<Tuple>)
    ensures |r| == |found|
    ensures forall i | 0 <= i < |found| :: r[i] == MakeTuple(i, found[i].0, found[i].1, numStages)
  {
    seq(|found|, i requires 0 <= i < |found| => MakeTuple(i, found[i].0, found[i].1, numStages))
  }

  function TotalScore(t: Tuple): real {
    t.totalScore
  }

  /** Every tuple `find_temporal_tuples` could collect, before the cap. */
  function AllTuples(stages: seq<seq<Hit>>): seq<Tuple>
    requires stages != []
  {
    Numbered(Found(StageData(stages), CommonVideos(stages)), |stages|)
  }

  /** The collected tuples for a positive `max_tuples`: collection stops
      once `10 * max_tuples` are there. */
  function Collected(stages: seq<seq<Hit>>, maxTuples: int): seq<Tuple>
    requires stages != [] && maxTuples > 0
  {
    var all := AllTuples(stages);
    all[..if 10 * maxTuples <= |all| then 10 * maxTuples else |all|]
  }

  /** What `find_temporal_tuples(stage_results, max_tuples)` returns. */
  function TupleResult(stages: seq<seq<Hit>>, maxTuples: int): seq<Tuple> {
    if stages == [] || maxTuples <= 0 then []
    else PyPrefix(SortDesc(Collected(stages, maxTuples), TotalScore), maxTuples)
  }

  // What the tuples are.

  lemma {:induction false} ValidMembers(video: string, combos: seq<seq<Framed>>, p: (string, seq<Framed>))
    ensures p in Valid(video, combos) <==> p.0 == video && p.1 in combos && Increasing(p.1)
  {
    if combos != [] {
      var n := |combos| - 1;
      ValidMembers(video, combos[..n], p);
      assert combos == combos[..n] + [combos[n]];
    }
  }

  lemma {:induction false} FoundMembers(data: seq<Groups>, videos: seq<string>, p: (string, seq<Framed>))
    ensures p in Found(data, videos) <==>
      p.0 in videos && p.1 in Product(GroupsFor(data, p.0)) && Increasing(p.1)
  {
    if videos != [] {
      var n := |videos| - 1;
      var v := videos[n];
      FoundMembers(data, videos[..n], p);
      ValidMembers(v, Product(GroupsFor(data, v)), p);
      assert videos == videos[..n] + [v];
    }
  }

  /** A tuple as the source promises it: one result from each stage, in
      stage order, all parsed to the tuple's video, frame numbers strictly
      increasing, the total the sum of the results' scores. */
  predicate TemporalTuple(stages: seq<seq<Hit>>, t: Tuple) {
    && |t.results| == |stages| && |t.frameIndices| == |stages| && t.numStages == |stages|
    && (forall k | 0 <= k < |stages| ::
          t.results[k] in stages[k] && Parsed(t.results[k]) == Some((t.video, t.frameIndices[k])))
    && (forall i, j | 0 <= i < j < |stages| :: t.frameIndices[i] < t.frameIndices[j])
    && t.totalScore == Sum(Scores(t.results))
  }

  /** A combination taking its `k`-th result from stage `k`, all of one video. */
  predicate Combination(stages: seq<seq<Hit>>, video: string, c: seq<Framed>) {
    |c| == |stages| && forall k | 0 <= k < |c| :: c[k].hit in stages[k] && Parsed(c[k].hit) == Some((video, c[k].frame))
  }

  lemma ProductOfGroups(stages: seq<seq<Hit>>, video: string, c: seq<Framed>)
    requires InAll(StageData(stages), video)
    ensures c in Product(GroupsFor(StageData(stages), video)) <==> Combination(stages, video, c)
  {
    var data := StageData(stages);
    var lists := GroupsFor(data, video);
    ProductMembers(lists, c);
    if |c| == |stages| {
      forall k | 0 <= k < |c|
        ensures c[k] in lists[k] <==> c[k].hit in stages[k] && Parsed(c[k].hit) == Some((video, c[k].frame))
      {
        assert video in data[k] && lists[k] == StageGroups(stages[k])[video];
        StageGroupMember(stages[k], video, c[k]);
      }
    }
  }

  /** A video with a combination has a group in every stage. */
  lemma CombinationInAll(stages: seq<seq<Hit>>, video: string, c: seq<Framed>)
    requires Combination(stages, video, c)
    ensures InAll(StageData(stages), video)
  {
    forall s | 0 <= s < |stages| ensures video in StageData(stages)[s] {
      StageGroupKey(stages[s], video);
      var h := c[s].hit;
      assert h in stages[s] && Parsed(h).Some? && Parsed(h).value.0 == video;
    }
  }

  /** Soundness and completeness of the search: the combinations found are
      exactly the increasing combinations of every video all stages have. */
  lemma FoundExactly(stages: seq<seq<Hit>>, video: string, c: seq<Framed>)
    requires stages != []
    ensures (video, c) in Found(StageData(stages), CommonVideos(stages)) <==>
      Combination(stages, video, c) && Increasing(c)
  {
    var data := StageData(stages);
    FoundMembers(data, CommonVideos(stages), (video, c));
    CommonVideosFacts(stages);
    if Combination(stages, video, c) {
      CombinationInAll(stages, video, c);
    }
    if InAll(data, video) {
      ProductOfGroups(stages, video, c);
    }
  }

  lemma MakeTupleFacts(stages: seq<seq<Hit>>, id: int, video: string, c: seq<Framed>)
    requires Combination(stages, video, c) && Increasing(c)
    ensures TemporalTuple(stages, MakeTuple(id, video, c, |stages|))
  {
    var t := MakeTuple(id, video, c, |stages|);
    var hs, fs := HitsOf(c), FramesOf(c);
    assert t.results == hs && t.frameIndices == fs;
    forall k | 0 <= k < |stages| ensures hs[k] in stages[k] && Parsed(hs[k]) == Some((video, fs[k])) {
      assert hs[k] == c[k].hit && fs[k] == c[k].frame;
    }
    forall i, j | 0 <= i < j < |stages| ensures fs[i] < fs[j] {
      IncreasingStrictly(c, i, j);
    }
  }

  /** Every collectable tuple is well formed and numbered by its position;
      every increasing combination of every common video is among them. */
  lemma AllTuplesFacts(stages: seq<seq<Hit>>)
    requires stages != []
    ensures forall i | 0 <= i < |AllTuples(stages)| ::
      AllTuples(stages)[i].tupleId == i && TemporalTuple(stages, AllTuples(stages)[i])
  {
    var found := Found(StageData(stages), CommonVideos(stages));
    forall i | 0 <= i < |found| ensures TemporalTuple(stages, AllTuples(stages)[i]) {
      assert found[i] in found;
      FoundExactly(stages, found[i].0, found[i].1);
      MakeTupleFacts(stages, i, found[i].0, found[i].1);
    }
  }

  lemma AllTuplesComplete(stages: seq<seq<Hit>>, video: string, c: seq<Framed>)
    requires stages != [] && Combination(stages, video, c) && Increasing(c)
    ensures exists i | 0 <= i < |AllTuples(stages)| :: AllTuples(stages)[i] == MakeTuple(i, video, c, |stages|)
  {
    var found := Found(StageData(stages), CommonVideos(stages));
    FoundExactly(stages, video, c);
    var i :| 0 <= i < |found| && found[i] == (video, c);
    assert AllTuples(stages)[i] == MakeTuple(i, video, c, |stages|);
  }

  /** The returned tuples are among the collected ones, highest total
      first, and at most `max_tuples` of them. */
  lemma TupleResultShape(stages: seq<seq<Hit>>, maxTuples: int)
    requires stages != [] && maxTuples > 0
    ensures |TupleResult(stages, maxTuples)| <= maxTuples
    ensures forall i | 0 <= i < |TupleResult(stages, maxTuples)| ::
      TupleResult(stages, maxTuples)[i] in Collected(stages, maxTuples)
    ensures SortedDesc(TupleResult(stages, maxTuples), TotalScore)
    ensures Distinct(TupleResult(stages, maxTuples))
  {
    var col := Collected(stages, maxTuples);
    CollectedFacts(stages, maxTuples);
    BestOfNumbered(col, maxTuples);
  }

  /** The best `k` of tuples numbered by position: at most `k` of them,
      each one of the tuples, highest total first, no tuple or `tuple_id`
      twice. */
  lemma BestOfNumbered(col: seq<Tuple>, k: int)
    requires k > 0 && forall a | 0 <= a < |col| :: col[a].tupleId == a
    ensures |PyPrefix(SortDesc(col, TotalScore), k)| <= k
    ensures forall i | 0 <= i < |PyPrefix(SortDesc(col, TotalScore), k)| ::
      PyPrefix(SortDesc(col, TotalScore), k)[i] in col
    ensures SortedDesc(PyPrefix(SortDesc(col, TotalScore), k), TotalScore)
    ensures Distinct(PyPrefix(SortDesc(col, TotalScore), k))
    ensures forall i, j | 0 <= i < j < |PyPrefix(SortDesc(col, TotalScore), k)| ::
      PyPrefix(SortDesc(col, TotalScore), k)[i].tupleId != PyPrefix(SortDesc(col, TotalScore), k)[j].tupleId
  {
    var sorted := SortDesc(col, TotalScore);
    var r := PyPrefix(sorted, k);
    PyPrefixFacts(sorted, k);
    forall i | 0 <= i < |r| ensures r[i] in col {
      assert r[i] == sorted[i];
      assert sorted[i] in multiset(col);
    }
    assert Distinct(col) by {
      forall i, j | 0 <= i < j < |col| ensures col[i] != col[j] {
        assert col[i].tupleId == i && col[j].tupleId == j;
      }
    }
    PermutationDistinct(col, sorted);
    assert Distinct(r);
    DistinctIdsOfMembers(col, r);
  }

  /** Distinct members of a list numbered by position have distinct numbers. */
  lemma DistinctIdsOfMembers(col: seq<Tuple>, r: seq<Tuple>)
    requires forall a | 0 <= a < |col| :: col[a].tupleId == a
    requires Distinct(r) && forall i | 0 <= i < |r| :: r[i] in col
    ensures forall i, j | 0 <= i < j < |r| :: r[i].tupleId != r[j].tupleId
  {
    forall i, j | 0 <= i < j < |r| ensures r[i].tupleId != r[j].tupleId {
      var a :| 0 <= a < |col| && col[a] == r[i];
      var b :| 0 <= b < |col| && col[b] == r[j];
    }
  }

  /** `find_temporal_tuples`: no stages or a non-positive `max_tuples` give
      nothing; otherwise at most `max_tuples` well-formed tuples, no
      `tuple_id` twice, highest total first. */
  lemma TupleResultFacts(stages: seq<seq<Hit>>, maxTuples: int)
    ensures stages == [] || maxTuples <= 0 ==> TupleResult(stages, maxTuples) == []
    ensures |TupleResult(stages, maxTuples)| <= if maxTuples > 0 then maxTuples else 0
    ensures forall t | t in TupleResult(stages, maxTuples) :: TemporalTuple(stages, t)
    ensures forall i, j | 0 <= i < j < |TupleResult(stages, maxTuples)| ::
      TupleResult(stages, maxTuples)[i].tupleId != TupleResult(stages, maxTuples)[j].tupleId
    ensures SortedDesc(TupleResult(stages, maxTuples), TotalScore)
  {
    if stages != [] && maxTuples > 0 {
      TupleResultShape(stages, maxTuples);
      TupleResultValid(stages, maxTuples);
      TupleResultIds(stages, maxTuples);
    }
  }

  lemma TupleResultValid(stages: seq<seq<Hit>>, maxTuples: int)
    requires stages != [] && maxTuples > 0
    ensures forall t | t in TupleResult(stages, maxTuples) :: TemporalTuple(stages, t)
  {
    var col, r := Collected(stages, maxTuples), TupleResult(stages, maxTuples);
    TupleResultShape(stages, maxTuples);
    CollectedFacts(stages, maxTuples);
    forall t | t in r ensures TemporalTuple(stages, t) {
      var i :| 0 <= i < |r| && r[i] == t;
      var a :| 0 <= a < |col| && col[a] == r[i];
    }
  }

  lemma TupleResultIds(stages: seq<seq<Hit>>, maxTuples: int)
    requires stages != [] && maxTuples > 0
    ensures forall i, j | 0 <= i < j < |TupleResult(stages, maxTuples)| ::
      TupleResult(stages, maxTuples)[i].tupleId != TupleResult(stages, maxTuples)[j].tupleId
  {
    CollectedFacts(stages, maxTuples);
    BestOfNumbered(Collected(stages, maxTuples), maxTuples);
  }

  /** The collected tuples are a prefix of all of them, so each is numbered
      by its position and well formed. */
  lemma CollectedFacts(stages: seq<seq<Hit>>, maxTuples: int)
    requires stages != [] && maxTuples > 0
    ensures forall a | 0 <= a < |Collected(stages, maxTuples)| ::
      Collected(stages, maxTuples)[a].tupleId == a && TemporalTuple(stages, Collected(stages, maxTuples)[a])
  {
    var all, col := AllTuples(stages), Collected(stages, maxTuples);
    AllTuplesFacts(stages);
    forall a | 0 <= a < |col| ensures col[a].tupleId == a && TemporalTuple(stages, col[a]) {
      assert col[a] == all[a];
    }
  }

  /** With no more than `10 * max_tuples` candidates, nothing is lost before
      the final sort: the result is the best `max_tuples` of all of them. */
  lemma TupleResultUncapped(stages: seq<seq<Hit>>, maxTuples: int)
    requires stages != [] && maxTuples > 0 && |AllTuples(stages)| <= 10 * maxTuples
    ensures TupleResult(stages, maxTuples) == PyPrefix(SortDesc(AllTuples(stages), TotalScore), maxTuples)
  {
    assert Collected(stages, maxTuples) == AllTuples(stages);
  }

  // The loops of `find_temporal_tuples`.

  /** One more result, as the grouping loop adds it. */
  lemma KeysStep(hits: seq<Hit>, i: nat)
    requires i < |hits|
    ensures VideoKeys(hits[..i + 1]) ==
      if Parsed(hits[i]).Some? && Parsed(hits[i]).value.0 !in VideoKeys(hits[..i])
      then VideoKeys(hits[..i]) + [Parsed(hits[i]).value.0] else VideoKeys(hits[..i])
  {
    assert hits[..i + 1][..i] == hits[..i];
  }

  lemma RawStep(hits: seq<Hit>, i: nat)
    requires i < |hits|
    ensures RawGroups(hits[..i + 1]) ==
      if Parsed(hits[i]).None? then RawGroups(hits[..i])
      else RawGroups(hits[..i])[Parsed(hits[i]).value.0 :=
        (if Parsed(hits[i]).value.0 in RawGroups(hits[..i]) then RawGroups(hits[..i])[Parsed(hits[i]).value.0] else [])
        + [Framed(hits[i], Parsed(hits[i]).value.1)]]
  {
    assert hits[..i + 1][..i] == hits[..i];
  }

  /** The appending loop over one stage's results. The key list is the
      order in which the dict inserts the videos. */
  method CollectGroups(hits: seq<Hit>) returns (keys: seq<string>, groups: Groups)
    ensures keys == VideoKeys(hits) && groups == RawGroups(hits)
  {
    keys, groups := [], map[];
    for i := 0 to |hits|
      invariant keys == VideoKeys(hits[..i]) && groups == RawGroups(hits[..i])
    {
      KeysStep(hits, i);
      RawStep(hits, i);
      RawGroupsFacts(hits[..i]);
      var h := hits[i];
      if h.keyframePath.None? || h.keyframePath.value == [] {
        continue;
      }
      var parsed := ExtractVideoAndFrame(h.keyframePath.value);
      if parsed.None? {
        continue;
      }
      var (video, frame) := parsed.value;
      if video !in groups {
        keys := keys + [video];
      }
      groups := groups[video := (if video in groups then groups[video] else []) + [Framed(h, frame)]];
    }
    assert hits[..|hits|] == hits;
  }

  /** The groups of the first `j` keys are sorted, the others as collected. */
  predicate SortedUpTo(keys: seq<string>, raw: Groups, groups: Groups, j: nat)
    requires j <= |keys|
  {
    groups.Keys == raw.Keys
    && forall v | v in groups :: groups[v] == if v in keys[..j] then ByFrame(raw[v]) else raw[v]
  }

  lemma SortStep(keys: seq<string>, raw: Groups, groups: Groups, j: nat)
    requires Distinct(keys) && j < |keys| && keys[j] in groups && SortedUpTo(keys, raw, groups, j)
    ensures SortedUpTo(keys, raw, groups[keys[j] := ByFrame(groups[keys[j]])], j + 1)
  {
    var v := keys[j];
    var g := groups[v := ByFrame(groups[v])];
    assert v !in keys[..j];
    assert keys[..j + 1] == keys[..j] + [v];
    forall w | w in g
      ensures g[w] == if w in keys[..j + 1] then ByFrame(raw[w]) else raw[w]
    {
      if w == v {
        assert groups[v] == raw[v];
      } else {
        assert (w in keys[..j + 1]) == (w in keys[..j]);
      }
    }
  }

  lemma SortedAll(keys: seq<string>, raw: Groups, groups: Groups)
    requires SortedUpTo(keys, raw, groups, |keys|) && forall v :: v in raw <==> v in keys
    ensures groups == map v | v in raw :: ByFrame(raw[v])
  {
    assert keys[..|keys|] == keys;
  }

  /** `video_groups[video].sort(key=lambda x: x[1])` for every video. */
  method SortGroups(keys: seq<string>, raw: Groups) returns (groups: Groups)
    requires Distinct(keys) && forall v :: v in raw <==> v in keys
    ensures groups == map v | v in raw :: ByFrame(raw[v])
  {
    groups := raw;
    for j := 0 to |keys|
      invariant SortedUpTo(keys, raw, groups, j)
    {
      var v := keys[j];
      SortStep(keys, raw, groups, j);
      groups := groups[v := ByFrame(groups[v])];
    }
    SortedAll(keys, raw, groups);
  }

  /** One stage's `video_groups`: results appended per video, then each
      video's list sorted by frame number. */
  method GroupStage(hits: seq<Hit>) returns (keys: seq<string>, groups: Groups)
    ensures keys == VideoKeys(hits) && groups == StageGroups(hits)
  {
    var raw;
    keys, raw := CollectGroups(hits);
    RawGroupsFacts(hits);
    groups := SortGroups(keys, raw);
  }

  lemma {:induction false} ValidPrefix(video: string, combos: seq<seq<Framed>>, i: nat)
    requires i <= |combos|
    ensures Valid(video, combos[..i]) <= Valid(video, combos)
    decreases |combos|
  {
    if i < |combos| {
      var n := |combos| - 1;
      assert combos[..n][..i] == combos[..i];
      ValidPrefix(video, combos[..n], i);
    } else {
      assert combos[..i] == combos;
    }
  }

  lemma {:induction false} FoundPrefix(data: seq<Groups>, videos: seq<string>, k: nat)
    requires k <= |videos|
    ensures Found(data, videos[..k]) <= Found(data, videos)
    decreases |videos|
  {
    if k < |videos| {
      var n := |videos| - 1;
      var init := videos[..n];
      assert init[..k] == videos[..k];
      FoundPrefix(data, init, k);
      var rest := Valid(videos[n], Product(GroupsFor(data, videos[n])));
      assert Found(data, videos) == Found(data, init) + rest;
      PrefixAppend(Found(data, videos[..k]), Found(data, init), rest);
    } else {
      assert videos[..k] == videos;
    }
  }

  lemma PrefixAppend<T>(a: seq<T>, b: seq<T>, c: seq<T>)
    requires a <= b
    ensures a <= b + c
  {
    assert (b + c)[..|b|] == b;
  }

  /** Part of a video's combinations, after the videos before it, is a
      prefix of all that is found. */
  lemma PartlyFound(data: seq<Groups>, videos: seq<string>, vi: nat, ci: nat)
    requires vi < |videos| && ci <= |Product(GroupsFor(data, videos[vi]))|
    ensures Found(data, videos[..vi]) + Valid(videos[vi], Product(GroupsFor(data, videos[vi]))[..ci])
      <= Found(data, videos)
  {
    var combos := Product(GroupsFor(data, videos[vi]));
    var before, valid := Found(data, videos[..vi]), Valid(videos[vi], combos);
    ValidPrefix(videos[vi], combos, ci);
    FoundSnoc(data, videos, vi);
    FoundPrefix(data, videos, vi + 1);
    assert before + valid <= Found(data, videos);
    assert before + Valid(videos[vi], combos[..ci]) <= before + valid;
  }

  lemma ValidSnoc(video: string, combos: seq<seq<Framed>>, ci: nat)
    requires ci < |combos|
    ensures Valid(video, combos[..ci + 1]) ==
      Valid(video, combos[..ci]) + if Increasing(combos[ci]) then [(video, combos[ci])] else []
  {
    assert combos[..ci + 1][..ci] == combos[..ci];
  }

  lemma FoundSnoc(data: seq<Groups>, videos: seq<string>, vi: nat)
    requires vi < |videos|
    ensures Found(data, videos[..vi + 1]) == Found(data, videos[..vi]) + Valid(videos[vi], Product(GroupsFor(data, videos[vi])))
  {
    assert videos[..vi + 1][..vi] == videos[..vi];
  }

  lemma NumberedSnoc(found: seq<(string, seq<Framed>)>, p: (string, seq<Framed>), n: int)
    ensures Numbered(found + [p], n) == Numbered(found, n) + [MakeTuple(|found|, p.0, p.1, n)]
  {
  }

  /** One combination of the inner loop: a valid one is found and numbered. */
  lemma ComboStep(video: string, combos: seq<seq<Framed>>, ci: nat, numStages: int,
                  found0: seq<(string, seq<Framed>)>, found: seq<(string, seq<Framed>)>, tuples: seq<Tuple>,
                  found': seq<(string, seq<Framed>)>, tuples': seq<Tuple>)
    requires ci < |combos|
    requires found == found0 + Valid(video, combos[..ci]) && tuples == Numbered(found, numStages)
    requires found' == found + (if Increasing(combos[ci]) then [(video, combos[ci])] else [])
    requires tuples' == tuples + (if Increasing(combos[ci]) then [MakeTuple(|tuples|, video, combos[ci], numStages)] else [])
    ensures found' == found0 + Valid(video, combos[..ci + 1]) && tuples' == Numbered(found', numStages)
  {
    ValidSnoc(video, combos, ci);
    if Increasing(combos[ci]) {
      NumberedSnoc(found, (video, combos[ci]), numStages);
    }
  }

  lemma NumberedPrefix(a: seq<(string, seq<Framed>)>, b: seq<(string, seq<Framed>)>, n: int)
    requires a <= b
    ensures Numbered(a, n) == Numbered(b, n)[..|a|]
  {
  }

  lemma {:induction false} SharedNone(keys: seq<string>, data: seq<Groups>)
    requires forall v | v in keys :: !InAll(data, v)
    ensures Shared(keys, data) == []
  {
    if keys != [] {
      var n := |keys| - 1;
      assert keys[n] in keys;
      assert forall v | v in keys[..n] :: v in keys;
      SharedNone(keys[..n], data);
    }
  }

  /** No video common to all stages: nothing is found. */
  lemma NoCommonVideo(stages: seq<seq<Hit>>)
    requires stages != [] && forall v :: !InAll(StageData(stages), v)
    ensures AllTuples(stages) == []
  {
    SharedNone(VideoKeys(stages[0]), StageData(stages));
  }

  /** A non-positive `max_tuples` leaves at most one collected tuple, and
      `[:max_tuples]` of that is empty. */
  lemma NothingKept(ts: seq<Tuple>, maxTuples: int)
    requires maxTuples <= 0 && |ts| <= 1
    ensures PyPrefix(SortDesc(ts, TotalScore), maxTuples) == []
  {
  }

  /** `stage_data`, one stage at a time, and the first stage's videos in
      insertion order. */
  method GroupStages(stages: seq<seq<Hit>>) returns (data: seq<Groups>, firstKeys: seq<string>)
    requires stages != []
    ensures data == StageData(stages) && firstKeys == VideoKeys(stages[0])
  {
    data := [];
    firstKeys := [];
    for s := 0 to |stages|
      invariant data == StageData(stages)[..s]
      invariant s > 0 ==> firstKeys == VideoKeys(stages[0])
    {
      var keys, groups := GroupStage(stages[s]);
      assert StageData(stages)[..s + 1] == StageData(stages)[..s] + [groups];
      data := data + [groups];
      if s == 0 {
        firstKeys := keys;
      }
    }
    assert StageData(stages)[..|stages|] == StageData(stages);
  }

  /** `common_videos`: the first stage's videos, intersected with each
      later stage's. */
  method CommonSet(data: seq<Groups>) returns (common: set<string>)
    requires data != []
    ensures forall v :: v in common <==> InAll(data, v)
  {
    common := data[0].Keys;
    for s := 1 to |data|
      invariant forall v :: v in common <==> forall k | 0 <= k < s :: v in data[k]
    {
      common := common * data[s].Keys;
    }
  }

  /** `sorted(common_videos)`, the set enumerated in the first stage's key
      order. */
  method SortedCommon(firstKeys: seq<string>, data: seq<Groups>, common: set<string>) returns (videos: seq<string>)
    requires forall v :: v in common <==> InAll(data, v)
    ensures videos == SortStrs(Shared(firstKeys, data))
  {
    var listed: seq<string> := [];
    for i := 0 to |firstKeys|
      invariant listed == Shared(firstKeys[..i], data)
    {
      assert firstKeys[..i + 1][..i] == firstKeys[..i];
      if firstKeys[i] in common {
        listed := listed + [firstKeys[i]];
      }
    }
    assert firstKeys[..|firstKeys|] == firstKeys;
    videos := SortStrs(listed);
  }

  /** The inner loop, over one video's combinations, continuing the count
      and the list of the videos before it. It stops early, after `k` of the
      combinations, once `cap` tuples are there. */
  method CollectVideo(video: string, combos: seq<seq<Framed>>, numStages: int, cap: int,
                      tuples0: seq<Tuple>, tupleId0: int, ghost found0: seq<(string, seq<Framed>)>)
    returns (tuples: seq<Tuple>, tupleId: int, ghost found: seq<(string, seq<Framed>)>, ghost k: nat)
    requires tuples0 == Numbered(found0, numStages) && tupleId0 == |tuples0|
    requires |tuples0| < cap || tuples0 == []
    ensures k <= |combos| && found == found0 + Valid(video, combos[..k])
    ensures tuples == Numbered(found, numStages) && tupleId == |tuples|
    ensures |tuples| < cap ==> k == |combos|
    ensures |tuples| <= cap || |tuples| <= 1
  {
    tuples, tupleId, found := tuples0, tupleId0, found0;
    var ci := 0;
    while ci < |combos|
      invariant 0 <= ci <= |combos|
      invariant found == found0 + Valid(video, combos[..ci])
      invariant tuples == Numbered(found, numStages) && tupleId == |tuples|
      invariant |tuples| < cap || tuples == []
    {
      var combo := combos[ci];
      ghost var f, ts := found, tuples;
      if Increasing(combo) {
        var results := HitsOf(combo);
        var frameIndices := FramesOf(combo);
        var totalScore := Sum(Scores(results));
        var t := Tuple(tupleId, video, results, frameIndices, totalScore, numStages);
        found := found + [(video, combo)];
        tuples := tuples + [t];
        tupleId := tupleId + 1;
        ComboStep(video, combos, ci, numStages, found0, f, ts, found, tuples);
        if |tuples| >= cap {
          k := ci + 1;
          return;
        }
      } else {
        ComboStep(video, combos, ci, numStages, found0, f, ts, found, tuples);
      }
      ci := ci + 1;
    }
    k := ci;
  }

  /** The nested loops over the common videos and their combinations, with
      both `break`s: what is collected is a prefix of all that could be
      found, cut at `cap` tuples when `cap` is positive, and no more than one
      tuple otherwise. */
  method CollectTuples(data: seq<Groups>, videos: seq<string>, numStages: int, cap: int) returns (tuples: seq<Tuple>)
    ensures |tuples| <= |Found(data, videos)|
    ensures tuples == Numbered(Found(data, videos), numStages)[..|tuples|]
    ensures cap > 0 ==> |tuples| == if cap <= |Found(data, videos)| then cap else |Found(data, videos)|
    ensures cap <= 0 ==> |tuples| <= 1
  {
    tuples := [];
    var tupleId := 0;
    ghost var found: seq<(string, seq<Framed>)> := [];
    var vi := 0;
    while vi < |videos|
      invariant 0 <= vi <= |videos|
      invariant found == Found(data, videos[..vi])
      invariant tuples == Numbered(found, numStages) && tupleId == |tuples|
      invariant |tuples| < cap || tuples == []
    {
      var video := videos[vi];
      ghost var k;
      var combos := Product(GroupsFor(data, video));
      tuples, tupleId, found, k := CollectVideo(video, combos, numStages, cap, tuples, tupleId, found);
      PartlyFound(data, videos, vi, k);
      if |tuples| >= cap {
        break;
      }
      assert combos[..k] == combos;
      FoundSnoc(data, videos, vi);
      vi := vi + 1;
    }
    if vi == |videos| {
      assert videos[..vi] == videos;
      FoundPrefix(data, videos, vi);
    }
    NumberedPrefix(found, Found(data, videos), numStages);
  }

  method FindTemporalTuples(stages: seq<seq<Hit>>, maxTuples: int) returns (r: seq<Tuple>)
    ensures r == TupleResult(stages, maxTuples)
  {
    var numStages := |stages|;
    if numStages == 0 {
      return [];
    }
    var data, firstKeys := GroupStages(stages);
    var common := CommonSet(data);
    if common == {} {
      NoCommonVideo(stages);
      return [];
    }
    var videos := SortedCommon(firstKeys, data, common);
    var tuples := CollectTuples(data, videos, numStages, maxTuples * 10);
    r := PyPrefix(SortDesc(tuples, TotalScore), maxTuples);
    if maxTuples <= 0 {
      NothingKept(tuples, maxTuples);
    } else {
      assert tuples == Collected(stages, maxTuples);
    }
  }
}
