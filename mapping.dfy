/** `get_keyframe_path`: turns the id of a search hit into the URL path under
    which the frontend serves its keyframe, using the id -> file-path mapping
    (the parsed `mapping_kf.json`, passed in). */
module Mapping {
  import opened Wrappers
  import opened Text
  import opened Hits

  /** `prefixes_to_remove`, tried in this order. */
  const Prefixes: seq<string> := [
    "backend/app/data/keyframe/",
    "app/data/keyframe/",
    "backend/",
    "/app/data/keyframe/",
    "/app/app/data/keyframe/"
  ]

  /** `path` without the first prefix of `prefixes` (in list order) it starts with. */
  function StripFirstPrefix(path: string, prefixes: seq<string>): string {
    if prefixes == [] then path
    else if StartsWith(path, prefixes[0]) then path[|prefixes[0]|..]
    else StripFirstPrefix(path, prefixes[1..])
  }

  /** A path that starts with none of the prefixes is kept. */
  lemma {:induction false} StripFirstPrefixNone(path: string, prefixes: seq<string>)
    requires forall j | 0 <= j < |prefixes| :: !StartsWith(path, prefixes[j])
    ensures StripFirstPrefix(path, prefixes) == path
  {
    if prefixes != [] {
      assert forall j | 0 <= j < |prefixes| - 1 :: prefixes[1..][j] == prefixes[j + 1];
      StripFirstPrefixNone(path, prefixes[1..]);
    }
  }

  /** Exactly one prefix is removed: the first one in list order that matches. */
  lemma {:induction false} StripFirstPrefixFirst(path: string, prefixes: seq<string>, j: nat)
    requires j < |prefixes| && StartsWith(path, prefixes[j])
    requires forall k | 0 <= k < j :: !StartsWith(path, prefixes[k])
    ensures StripFirstPrefix(path, prefixes) == path[|prefixes[j]|..]
  {
    if j > 0 {
      assert forall k | 0 <= k < j - 1 :: prefixes[1..][k] == prefixes[k + 1];
      StripFirstPrefixFirst(path, prefixes[1..], j - 1);
    }
  }

  /** The loop `for prefix in prefixes_to_remove: if path.startswith(prefix): ...; break`. */
  method RemovePrefix(path: string, prefixes: seq<string>) returns (r: string)
    ensures r == StripFirstPrefix(path, prefixes)
  {
    r := path;
    var i := 0;
    while i < |prefixes|
      invariant 0 <= i <= |prefixes|
      invariant r == path
      invariant StripFirstPrefix(path, prefixes) == StripFirstPrefix(path, prefixes[i..])
    {
      var prefix := prefixes[i];
      assert prefixes[i..][1..] == prefixes[i + 1..];
      if StartsWith(r, prefix) {
        r := r[|prefix|..];
        return;
      }
      i := i + 1;
    }
  }

  /** The served path for a mapped file path. */
  function Locate(path: string): string {
    var p := StripFirstPrefix(ReplaceChar(path, '\\', '/'), Prefixes);
    var q := if Contains(p, "keyframe/") then AfterFirst(p, "keyframe/") else p;
    "/keyframes/" + q
  }

  /** `get_keyframe_path(result_id)` with `mapping` standing for `load_mapping_kf()`. */
  function KeyframePath(mapping: map<string, string>, id: Id): Option<string> {
    var key := IdStr(id);
    if key in mapping then Some(Locate(mapping[key])) else None
  }

  method GetKeyframePath(mapping: map<string, string>, id: Id) returns (r: Option<string>)
    ensures r == KeyframePath(mapping, id)
  {
    var idStr := IdStr(id);
    if idStr in mapping {
      var path := ReplaceChar(mapping[idStr], '\\', '/');
      path := RemovePrefix(path, Prefixes);
      if Contains(path, "keyframe/") {
        path := AfterFirst(path, "keyframe/");
      }
      return Some("/keyframes/" + path);
    }
    return None;
  }

  /** A path is found exactly when `str(result_id)` is a key of the mapping. */
  lemma KeyframePathFound(mapping: map<string, string>, id: Id)
    ensures KeyframePath(mapping, id).Some? <==> IdStr(id) in mapping
  {
  }

  lemma {:induction false} StripFirstPrefixSuffix(path: string, prefixes: seq<string>)
    ensures var r := StripFirstPrefix(path, prefixes); |r| <= |path| && r == path[|path| - |r|..]
  {
    if prefixes != [] && !StartsWith(path, prefixes[0]) {
      StripFirstPrefixSuffix(path, prefixes[1..]);
    }
  }

  /** A found path starts with `/keyframes/` and, since backslashes are turned
      into slashes first, holds no backslash. */
  lemma LocateShape(path: string)
    ensures StartsWith(Locate(path), "/keyframes/")
    ensures '\\' !in Locate(path)
  {
    var n := ReplaceChar(path, '\\', '/');
    var p := StripFirstPrefix(n, Prefixes);
    StripFirstPrefixSuffix(n, Prefixes);
    var q := if Contains(p, "keyframe/") then AfterFirst(p, "keyframe/") else p;
    assert '\\' !in p by {
      forall k | 0 <= k < |p| ensures p[k] != '\\' {
        assert p[k] == n[|n| - |p| + k];
      }
    }
    assert '\\' !in q by {
      if Contains(p, "keyframe/") {
        var j :| OccursAt(p, "keyframe/", j) && q == p[j + 9..];
        forall k | 0 <= k < |q| ensures q[k] != '\\' {
          assert q[k] == p[j + 9 + k];
        }
      }
    }
    PrefixedShape("/keyframes/", q);
  }

  lemma PrefixedShape(head: string, q: string)
    requires '\\' !in head && '\\' !in q
    ensures StartsWith(head + q, head) && '\\' !in head + q
  {
    assert (head + q)[..|head|] == head;
  }

  /** A path under the first prefix whose remainder has no backslash and no
      `k` is served as `/keyframes/` followed by that remainder. */
  lemma LocateUnderFirstPrefix(rest: string)
    requires '\\' !in rest && 'k' !in rest
    ensures Locate(Prefixes[0] + rest) == "/keyframes/" + rest
  {
    var path := Prefixes[0] + rest;
    assert '\\' !in Prefixes[0];
    ReplaceCharAbsent(path, '\\', '/');
    assert path[..|Prefixes[0]|] == Prefixes[0];
    assert path[|Prefixes[0]|..] == rest;
    NotContainsFirstAbsent(rest, "keyframe/");
  }

  /** The example from the function's documentation,
      `backend/app/data/keyframe/L01_V001/0.webp` -> `/keyframes/L01_V001/0.webp`,
      written as prefix + remainder. */
  lemma LocateExample(path: string)
    requires path == "backend/app/data/keyframe/" + "L01_V001/0.webp"
    ensures Locate(path) == "/keyframes/" + "L01_V001/0.webp"
  {
    LocateUnderFirstPrefix("L01_V001/0.webp");
  }
}
