/** Round-robin rotation over the embedding servers' URLs. The lock that
    makes `get_next_url` thread-safe is left out: calls are sequential. */
module UrlManager {
  import opened Wrappers
  import opened Json
  import Config

  /** `ValueError("At least one URL must be provided")`. */
  datatype InitError = NoUrls

  /** The URL list the constructor keeps: a string is split on ',' with the
      parts trimmed and empty parts dropped, a list is kept as it is, and
      anything else is empty (the rule of `Settings.parse_cors_origins`). */
  function ParseUrls(v: Json): (r: Result<seq<Json>, InitError>)
    ensures r.Failure? <==> Config.ParseCorsOrigins(v) == []
    ensures r.Success? ==> r.value == Config.ParseCorsOrigins(v) && |r.value| > 0
  {
    var urls := Config.ParseCorsOrigins(v);
    if urls == [] then Failure(NoUrls) else Success(urls)
  }

  /** A comma-separated setting gives its trimmed non-empty parts; a list is
      kept unless empty; any other value is refused. */
  lemma ParseUrlsCases(v: Json)
    ensures v.JArr? ==> (ParseUrls(v).Failure? <==> v.items == [])
    ensures v.JArr? && v.items != [] ==> ParseUrls(v) == Success(v.items)
    ensures !v.JArr? && !v.JStr? ==> ParseUrls(v) == Failure(NoUrls)
    ensures v.JStr? ==> forall u | u in Config.ParseCorsOrigins(v) :: u.JStr? && u.s != []
  {
    Config.ParseCorsOthers(v);
    if v.JStr? {
      forall u | u in Config.ParseCorsOrigins(v) ensures u.JStr? && u.s != [] {
        Config.ParseCorsString(v.s, u.s);
      }
    }
  }

  class URLManager {
    var urls: seq<Json>
    var index: nat
    /** How many URLs have been handed out since construction. */
    ghost var calls: nat

    ghost predicate Valid()
      reads this
    {
      |urls| > 0 && index < |urls| && index == calls % |urls|
    }

    constructor (urls0: seq<Json>)
      requires |urls0| > 0
      ensures Valid() && urls == urls0 && index == 0 && calls == 0
    {
      urls := urls0;
      index := 0;
      calls := 0;
    }

    /** `get_next_url`: the URL at the cursor, which then moves on by one,
        wrapping at the end; the k-th call hands out `urls[k % n]`. */
    method GetNextUrl() returns (url: Json)
      requires Valid()
      modifies this
      ensures Valid() && urls == old(urls) && calls == old(calls) + 1
      ensures url == urls[old(index)] && url == urls[old(calls) % |urls|]
      ensures index == (old(index) + 1) % |urls|
    {
      url := urls[index];
      index := (index + 1) % |urls|;
      calls := calls + 1;
      NextIndex(old(calls), |urls|);
    }

    /** `get_all_urls`: a copy of the list. */
    function GetAllUrls(): (r: seq<Json>)
      reads this
      ensures |r| == |urls| && forall i | 0 <= i < |r| :: r[i] == urls[i]
    {
      urls
    }

    /** `len(manager)`. */
    function Length(): (n: nat)
      reads this
      ensures n == |GetAllUrls()|
    {
      |urls|
    }
  }

  /** The constructor: a manager over the parsed URLs, or the error. */
  method NewURLManager(v: Json) returns (r: Result<URLManager, InitError>)
    ensures r.Failure? <==> ParseUrls(v).Failure?
    ensures r.Success? ==> fresh(r.value) && r.value.Valid() && r.value.urls == ParseUrls(v).value
                           && r.value.index == 0 && r.value.calls == 0
  {
    var parsed := ParseUrls(v);
    if parsed.Failure? {
      return Failure(NoUrls);
    }
    var m := new URLManager(parsed.value);
    return Success(m);
  }

  /** Moving the cursor by one keeps it equal to the call count modulo n. */
  lemma NextIndex(k: nat, n: nat)
    requires n > 0
    ensures (k % n + 1) % n == (k + 1) % n
  {
    var q, r := k / n, k % n;
    DivMod(k, n);
    if r + 1 < n {
      ModUnique(r + 1, 0, r + 1, n);
      ModUnique(k + 1, q, r + 1, n);
    } else {
      ModUnique(r + 1, 1, 0, n);
      assert k + 1 == (q + 1) * n + 0 by {
        MulSucc(q, n);
      }
      ModUnique(k + 1, q + 1, 0, n);
    }
  }

  lemma DivMod(a: int, n: nat)
    requires n > 0
    ensures a == (a / n) * n + a % n && 0 <= a % n < n
  {
  }

  lemma MulSucc(q: int, n: int)
    ensures (q + 1) * n == q * n + n
  {
  }

  lemma MulDiff(q: int, q': int, n: int)
    ensures (q - q') * n == q * n - q' * n
  {
  }

  /** The quotient and remainder of a Euclidean division are unique. */
  lemma ModUnique(a: int, q: int, r: int, n: nat)
    requires n > 0 && 0 <= r < n && a == q * n + r
    ensures a % n == r && a / n == q
  {
    var q', r' := a / n, a % n;
    DivMod(a, n);
    MulDiff(q, q', n);
    assert (q - q') * n == r' - r;
    if q - q' >= 1 {
      MulAtLeastOne(q - q', n);
      assert false;
    } else if q - q' <= -1 {
      MulAtLeastOne(q' - q, n);
      MulDiff(q', q, n);
      assert false;
    }
  }

  /** The position the call after `c + i` earlier calls reads. */
  function Slot(c: nat, i: nat, n: nat): nat
    requires n > 0
  {
    (c + i) % n
  }

  /** The URLs handed out by `m` consecutive calls starting after `c` calls. */
  function HandedOut(urls: seq<Json>, c: nat, m: nat): (r: seq<Json>)
    requires |urls| > 0
    ensures |r| == m && forall i | 0 <= i < m :: Slot(c, i, |urls|) < |urls| && r[i] == urls[Slot(c, i, |urls|)]
  {
    seq(m, i requires 0 <= i < m => urls[Slot(c, i, |urls|)])
  }

  /** n consecutive calls, from any point, hand out every URL once each:
      the positions they read are the n indices in some order. */
  lemma {:induction false} RoundVisitsAll(urls: seq<Json>, c: nat)
    requires |urls| > 0
    ensures forall j | 0 <= j < |urls| :: urls[j] in HandedOut(urls, c, |urls|)
    ensures forall i, i' | 0 <= i < i' < |urls| :: Slot(c, i, |urls|) != Slot(c, i', |urls|)
  {
    var n := |urls|;
    var h := HandedOut(urls, c, n);
    forall j | 0 <= j < n ensures urls[j] in h {
      var i := (j - c) % n;
      ModShift(c, i, j, n);
      assert h[i] == urls[j];
    }
    forall i, i' | 0 <= i < i' < n ensures Slot(c, i, n) != Slot(c, i', n) {
      ModDistinct(c, i, i', n);
    }
  }

  lemma ModShift(c: nat, i: int, j: int, n: nat)
    requires n > 0 && 0 <= j < n && i == (j - c) % n
    ensures (c + i) % n == j
  {
    var q := (j - c) / n;
    DivMod(j - c, n);
    assert c + i == (-q) * n + j;
    ModUnique(c + i, -q, j, n);
  }

  lemma ModDistinct(c: nat, i: nat, i': nat, n: nat)
    requires n > 0 && i < i' < n
    ensures (c + i) % n != (c + i') % n
  {
    var a := c + i;
    var q, r := a / n, a % n;
    DivMod(a, n);
    if r + (i' - i) < n {
      ModUnique(c + i', q, r + (i' - i), n);
    } else {
      assert c + i' == (q + 1) * n + (r + (i' - i) - n) by {
        MulSucc(q, n);
      }
      ModUnique(c + i', q + 1, r + (i' - i) - n, n);
    }
  }

  lemma MulAtLeastOne(k: int, n: nat)
    requires k >= 1
    ensures k * n >= n
  {
  }
}
