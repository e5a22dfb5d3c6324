/** Keyframe selection for one scene, and the split of the scene files into
    parts. Decoding and embedding the frames are left out: the frames that
    decode are given as a set, and the similarity of two candidates' BEiT-3
    embeddings (a dot product of unit vectors) as a function of their
    positions in the candidate list. */
module Keyframes {
  import opened Wrappers

  /** `STEP_CAND`: the spacing of candidate frames. */
  const StepCand: int := 6
  /** `MIN_SCENE_GAP`: a candidate this far after the last keyframe is always kept. */
  const MinSceneGap: int := 60
  /** `THRESH_KF`: similarity to the last keyframe must be below this. */
  const ThreshKf: real := 0.94
  /** `THRESH_PREV`: similarity to the previous candidate must be below this. */
  const ThreshPrev: real := 0.96
  /** `NUM_PARTS`. */
  const NumParts: int := 726

  // ------------------------------------------------------- candidates

  /** `range(s, e + 1, STEP_CAND)`. */
  function Candidates(s: int, e: int): (r: seq<int>)
    ensures forall i | 0 <= i < |r| :: r[i] == s + i * StepCand && r[i] <= e
    ensures s + |r| * StepCand > e
    decreases e - s
  {
    if s > e then [] else [s] + Candidates(s + StepCand, e)
  }

  /** The candidates whose frame was decoded, in order. */
  function FrameOrder(cands: seq<int>, decoded: set<int>): (r: seq<int>)
    ensures forall f | f in r :: f in cands && f in decoded
    ensures forall f | f in cands && f in decoded :: f in r
  {
    if cands == [] then []
    else (if cands[0] in decoded then [cands[0]] else []) + FrameOrder(cands[1..], decoded)
  }

  predicate Increasing(xs: seq<int>) {
    forall i, j | 0 <= i < j < |xs| :: xs[i] < xs[j]
  }

  lemma {:induction false} CandidatesIncreasing(s: int, e: int)
    ensures Increasing(Candidates(s, e))
    decreases e - s
  {
    if s <= e {
      CandidatesIncreasing(s + StepCand, e);
    }
  }

  lemma {:induction false} FrameOrderIncreasing(cands: seq<int>, decoded: set<int>)
    requires Increasing(cands)
    ensures Increasing(FrameOrder(cands, decoded))
  {
    if cands != [] {
      FrameOrderIncreasing(cands[1..], decoded);
      var rest := FrameOrder(cands[1..], decoded);
      forall f | f in rest ensures cands[0] < f {
        var j :| 0 <= j < |cands[1..]| && cands[1..][j] == f;
        assert cands[j + 1] == f;
      }
      var r := FrameOrder(cands, decoded);
      if cands[0] in decoded {
        assert r == [cands[0]] + rest;
        forall i, j | 0 <= i < j < |r| ensures r[i] < r[j] {
          assert r[j] == rest[j - 1] && rest[j - 1] in rest;
          if i > 0 {
            assert r[i] == rest[i - 1];
          }
        }
      } else {
        assert r == rest;
      }
    }
  }

  // -------------------------------------------------------- selection

  /** A candidate is kept when it is at least `MIN_SCENE_GAP` frames after
      the last keyframe, or when it is unlike both the last keyframe and
      the previous candidate. */
  predicate Keep(order: seq<int>, sim: (nat, nat) -> real, i: nat, last: nat)
    requires last < i < |order|
  {
    order[i] - order[last] >= MinSceneGap
    || (sim(i, last) < ThreshKf && sim(i, i - 1) < ThreshPrev)
  }

  /** The positions kept among the first `n` candidates: the first always,
      then each one that passes `Keep` against the last kept before it. */
  function Select(order: seq<int>, sim: (nat, nat) -> real, n: nat): (kf: seq<nat>)
    requires 1 <= n <= |order|
    ensures |kf| >= 1 && kf[0] == 0 && kf[|kf| - 1] < n
  {
    if n == 1 then [0]
    else
      var kf := Select(order, sim, n - 1);
      if Keep(order, sim, n - 1, kf[|kf| - 1]) then kf + [n - 1] else kf
  }

  predicate StrictlyIncreasing(kf: seq<nat>) {
    forall i, j | 0 <= i < j < |kf| :: kf[i] < kf[j]
  }

  /** The kept positions are strictly increasing and are positions of the list. */
  lemma {:induction false} SelectIncreasing(order: seq<int>, sim: (nat, nat) -> real, n: nat)
    requires 1 <= n <= |order|
    ensures StrictlyIncreasing(Select(order, sim, n))
    ensures forall i | 0 <= i < |Select(order, sim, n)| :: Select(order, sim, n)[i] < n
  {
    if n > 1 {
      SelectIncreasing(order, sim, n - 1);
    }
  }

  /** The position kept last before candidate `i` is considered. */
  function LastBefore(order: seq<int>, sim: (nat, nat) -> real, i: nat): nat
    requires 1 <= i < |order|
  {
    var kf := Select(order, sim, i); kf[|kf| - 1]
  }

  /** Candidate `i` is kept exactly when it passes `Keep` against the last
      keyframe before it; a candidate the gap rule admits is always kept. */
  lemma SelectDecision(order: seq<int>, sim: (nat, nat) -> real, i: nat)
    requires 1 <= i < |order|
    ensures i in Select(order, sim, |order|) <==> Keep(order, sim, i, LastBefore(order, sim, i))
    ensures order[i] - order[LastBefore(order, sim, i)] >= MinSceneGap ==> i in Select(order, sim, |order|)
  {
    DecidedWhenReached(order, sim, i);
    DecidedForGood(order, sim, i);
  }

  /** Candidate `i` enters the selection when it is considered exactly when it passes `Keep`. */
  lemma DecidedWhenReached(order: seq<int>, sim: (nat, nat) -> real, i: nat)
    requires 1 <= i < |order|
    ensures i in Select(order, sim, i + 1) <==> Keep(order, sim, i, LastBefore(order, sim, i))
  {
    SelectIncreasing(order, sim, i);
    assert i !in Select(order, sim, i);
  }

  /** Later candidates never add or remove `i`. */
  lemma DecidedForGood(order: seq<int>, sim: (nat, nat) -> real, i: nat)
    requires 1 <= i < |order|
    ensures i in Select(order, sim, |order|) <==> i in Select(order, sim, i + 1)
  {
    var after := Select(order, sim, i + 1);
    SelectGrows(order, sim, i + 1, |order|);
    SelectAbove(order, sim, i + 1, |order|);
    var all := Select(order, sim, |order|);
    var tail := all[|after|..];
    assert all == after + tail;
    assert i !in tail;
  }

  /** Considering more candidates only appends to the kept positions. */
  lemma {:induction false} SelectGrows(order: seq<int>, sim: (nat, nat) -> real, m: nat, n: nat)
    requires 1 <= m <= n <= |order|
    ensures |Select(order, sim, m)| <= |Select(order, sim, n)|
    ensures Select(order, sim, n)[..|Select(order, sim, m)|] == Select(order, sim, m)
    decreases n - m
  {
    if m < n {
      SelectGrows(order, sim, m, n - 1);
    }
  }

  /** What is kept after the first `m` candidates lies at position `m` or later. */
  lemma {:induction false} SelectAbove(order: seq<int>, sim: (nat, nat) -> real, m: nat, n: nat)
    requires 1 <= m <= n <= |order|
    ensures |Select(order, sim, m)| <= |Select(order, sim, n)|
    ensures forall x | x in Select(order, sim, n)[|Select(order, sim, m)|..] :: m <= x
    decreases n - m
  {
    if m < n {
      SelectAbove(order, sim, m, n - 1);
      SelectGrows(order, sim, m, n - 1);
      var k := |Select(order, sim, m)|;
      var prev := Select(order, sim, n - 1);
      var cur := Select(order, sim, n);
      if cur != prev {
        assert cur == prev + [n - 1];
        assert cur[k..] == prev[k..] + [n - 1];
      }
    }
  }

  /** The selection loop of `process_scene`. */
  method SelectKeyframes(order: seq<int>, sim: (nat, nat) -> real) returns (kf: seq<nat>)
    requires |order| >= 1
    ensures kf == Select(order, sim, |order|)
  {
    kf := [0];
    var i := 1;
    while i < |order|
      invariant 1 <= i <= |order|
      invariant kf == Select(order, sim, i)
    {
      var last := kf[|kf| - 1];
      if order[i] - order[last] >= MinSceneGap {
        kf := kf + [i];
        i := i + 1;
        continue;
      }
      if sim(i, last) < ThreshKf && sim(i, i - 1) < ThreshPrev {
        kf := kf + [i];
      }
      i := i + 1;
    }
  }

  /** `frame_order`: the scene's candidates whose frame decoded. */
  function SceneOrder(s: int, e: int, decoded: set<int>): seq<int> {
    FrameOrder(Candidates(s, e), decoded)
  }

  /** The decoded candidates are increasing frames of the scene, `STEP_CAND` apart from its start. */
  lemma SceneOrderFacts(s: int, e: int, decoded: set<int>)
    ensures Increasing(SceneOrder(s, e, decoded))
    ensures forall f | f in SceneOrder(s, e, decoded) :: f in decoded && s <= f <= e && (f - s) % StepCand == 0
  {
    var cands := Candidates(s, e);
    CandidatesIncreasing(s, e);
    FrameOrderIncreasing(cands, decoded);
    forall f | f in SceneOrder(s, e, decoded) ensures f in decoded && s <= f <= e && (f - s) % StepCand == 0 {
      assert f in cands;
      var k :| 0 <= k < |cands| && cands[k] == f;
      StepMultiple(f - s, k);
    }
  }

  lemma StepMultiple(d: int, k: nat)
    requires d == k * StepCand
    ensures d % StepCand == 0
  {
  }

  /** The frames of the selected positions. */
  function FramesAt(order: seq<int>, kf: seq<nat>): (r: seq<int>)
    requires forall j | 0 <= j < |kf| :: kf[j] < |order|
    ensures |r| == |kf| && forall j | 0 <= j < |kf| :: r[j] == order[kf[j]]
  {
    seq(|kf|, j requires 0 <= j < |kf| => order[kf[j]])
  }

  /** The frame numbers saved for a scene from `s` to `e`: none when no
      candidate decodes, else the selected candidates' frames. */
  function SceneKeyframes(s: int, e: int, decoded: set<int>, sim: (nat, nat) -> real): seq<int> {
    var order := SceneOrder(s, e, decoded);
    if order == [] then []
    else
      SelectIncreasing(order, sim, |order|);
      FramesAt(order, Select(order, sim, |order|))
  }

  /** The saved frames are decoded candidates of the scene, in increasing
      order; there are none exactly when no candidate decodes, and
      otherwise the first decoded candidate is always saved. */
  lemma SceneKeyframesFacts(s: int, e: int, decoded: set<int>, sim: (nat, nat) -> real)
    ensures Increasing(SceneKeyframes(s, e, decoded, sim))
    ensures forall f | f in SceneKeyframes(s, e, decoded, sim) :: f in SceneOrder(s, e, decoded)
    ensures SceneKeyframes(s, e, decoded, sim) == [] <==> SceneOrder(s, e, decoded) == []
    ensures SceneKeyframes(s, e, decoded, sim) != [] ==>
              SceneKeyframes(s, e, decoded, sim)[0] == SceneOrder(s, e, decoded)[0]
  {
    var order := SceneOrder(s, e, decoded);
    SceneOrderFacts(s, e, decoded);
    var out := SceneKeyframes(s, e, decoded, sim);
    if order != [] {
      var kf := Select(order, sim, |order|);
      SelectIncreasing(order, sim, |order|);
      assert out == FramesAt(order, kf);
      forall j, j' | 0 <= j < j' < |out| ensures out[j] < out[j'] {
        assert out[j] == order[kf[j]] && out[j'] == order[kf[j']];
      }
      forall f | f in out ensures f in order {
        var j :| 0 <= j < |out| && out[j] == f;
        assert f == order[kf[j]];
      }
    }
  }

  /** `process_scene`'s selection: nothing when no candidate decodes. */
  method ProcessScene(s: int, e: int, decoded: set<int>, sim: (nat, nat) -> real) returns (saved: seq<int>)
    ensures saved == SceneKeyframes(s, e, decoded, sim)
  {
    var order := FrameOrder(Candidates(s, e), decoded);
    if |order| == 0 {
      return [];
    }
    var kf := SelectKeyframes(order, sim);
    SelectIncreasing(order, sim, |order|);
    saved := [];
    var j := 0;
    while j < |kf|
      invariant 0 <= j <= |kf|
      invariant saved == FramesAt(order, kf[..j])
    {
      saved := saved + [order[kf[j]]];
      j := j + 1;
    }
    assert kf[..j] == kf;
  }

  // ------------------------------------------------------------- parts

  /** `max(1, min(PART_ID, NUM_PARTS))`. */
  function ClampPart(partId: int, numParts: int): int {
    if partId < numParts then (if partId > 1 then partId else 1) else (if numParts > 1 then numParts else 1)
  }

  /** Where part `pid` of `total` files starts: the first `rem` parts hold
      one file more than the rest. */
  function PartStart(total: nat, numParts: nat, pid: int): int
    requires numParts > 0
  {
    var sz, rem := total / numParts, total % numParts;
    if pid <= rem then (sz + 1) * (pid - 1) else rem * (sz + 1) + (pid - rem - 1) * sz
  }

  function PartEnd(total: nat, numParts: nat, pid: int): int
    requires numParts > 0
  {
    var sz, rem := total / numParts, total % numParts;
    PartStart(total, numParts, pid) + (if pid <= rem then sz + 1 else sz)
  }

  lemma MulDistrib(a: int, b: int, c: int)
    ensures a * (b + c) == a * b + a * c
  {
  }

  /** Part `pid` ends where part `pid + 1` starts. */
  lemma PartsAbut(total: nat, numParts: nat, pid: int)
    requires numParts > 0 && 1 <= pid < numParts
    ensures PartEnd(total, numParts, pid) == PartStart(total, numParts, pid + 1)
  {
    var sz, rem := total / numParts, total % numParts;
    if pid + 1 <= rem {
      MulDistrib(sz + 1, pid - 1, 1);
    } else if pid <= rem {
      assert pid == rem;
      assert (sz + 1) * (pid - 1) + (sz + 1) == rem * (sz + 1) by {
        MulDistrib(sz + 1, pid - 1, 1);
      }
    } else {
      MulDistrib(sz, pid - rem - 1, 1);
    }
  }

  /** The first part starts at 0, the last ends at the number of files, and
      part `pid` holds `sz + 1` files when `pid <= rem` and `sz` otherwise. */
  lemma PartsCover(total: nat, numParts: nat)
    requires numParts > 0
    ensures PartStart(total, numParts, 1) == 0
    ensures PartEnd(total, numParts, numParts) == total
    ensures forall pid | 1 <= pid <= numParts ::
              PartEnd(total, numParts, pid) - PartStart(total, numParts, pid)
              == total / numParts + (if pid <= total % numParts then 1 else 0)
  {
    var sz, rem := total / numParts, total % numParts;
    assert total == sz * numParts + rem;
    assert rem < numParts;
    assert rem * (sz + 1) + (numParts - rem - 1) * sz + sz == total by {
      MulDistrib(rem, sz, 1);
      MulDistrib(sz, numParts - rem - 1, 1);
      assert (numParts - rem - 1) * sz + sz == (numParts - rem) * sz;
      assert rem * sz + (numParts - rem) * sz == numParts * sz;
    }
  }

  /** Every part is inside the file list, so the slice `all_json[start:end]`
      takes exactly those files. */
  lemma {:induction false} PartInRange(total: nat, numParts: nat, pid: int)
    requires numParts > 0 && 1 <= pid <= numParts
    ensures 0 <= PartStart(total, numParts, pid) <= PartEnd(total, numParts, pid) <= total
    decreases numParts - pid
  {
    PartsCover(total, numParts);
    if pid < numParts {
      PartsAbut(total, numParts, pid);
      PartInRange(total, numParts, pid + 1);
    }
    PartStartNonNegative(total, numParts, pid);
  }

  lemma PartStartNonNegative(total: nat, numParts: nat, pid: int)
    requires numParts > 0 && 1 <= pid
    ensures PartStart(total, numParts, pid) >= 0
  {
    var sz, rem := total / numParts, total % numParts;
    if pid <= rem {
      MulNonNegative(sz + 1, pid - 1);
    } else {
      MulNonNegative(rem, sz + 1);
      MulNonNegative(pid - rem - 1, sz);
    }
  }

  lemma MulNonNegative(a: int, b: int)
    requires a >= 0 && b >= 0
    ensures a * b >= 0
  {
  }

  /** The files of this run's part, from the sorted list of scene files;
      the script runs with `NumParts` parts. */
  function SelectedFiles<T>(allJson: seq<T>, partId: int, numParts: nat): (r: seq<T>)
    requires numParts > 0
    ensures var pid := ClampPart(partId, numParts);
      var start := PartStart(|allJson|, numParts, pid);
      && 1 <= pid <= numParts
      && 0 <= start && start + |r| <= |allJson| && r == allJson[start..start + |r|]
      && |r| == |allJson| / numParts + (if pid <= |allJson| % numParts then 1 else 0)
  {
    var pid := ClampPart(partId, numParts);
    PartInRange(|allJson|, numParts, pid);
    PartsCover(|allJson|, numParts);
    allJson[PartStart(|allJson|, numParts, pid)..PartEnd(|allJson|, numParts, pid)]
  }
}
