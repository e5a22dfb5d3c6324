/** Python list operations the core relies on: slicing with a possibly
    negative bound, `sorted(..., reverse=True)` (a stable sort), sums, and
    the code-point order of `str`. */
module Lists {

  /** The stop index `xs[:k]` uses for a list of length `n`. */
  function SliceStop(n: nat, k: int): (m: nat)
    ensures m <= n
    ensures k >= 0 ==> m == if k <= n then k else n
    ensures k < 0 ==> m == if n + k >= 0 then n + k else 0
  {
    if k >= 0 then (if k <= n then k else n)
    else if n + k >= 0 then n + k else 0
  }

  /** `xs[:k]`: a negative `k` drops `-k` elements from the end. */
  function PyPrefix<T>(xs: seq<T>, k: int): seq<T> {
    xs[..SliceStop(|xs|, k)]
  }

  lemma PyPrefixFacts<T>(xs: seq<T>, k: int)
    ensures |PyPrefix(xs, k)| <= |xs|
    ensures k >= 0 ==> |PyPrefix(xs, k)| == if k <= |xs| then k else |xs|
    ensures k >= |xs| ==> PyPrefix(xs, k) == xs
    ensures forall i | 0 <= i < |PyPrefix(xs, k)| :: PyPrefix(xs, k)[i] == xs[i]
  {
  }

  /** Growing a prefix by one element. */
  lemma TakeSnoc<T>(s: seq<T>, i: nat)
    requires i < |s|
    ensures s[..i] + [s[i]] == s[..i + 1]
  {
    assert s[..i + 1][..i] == s[..i];
  }

  function Sum(xs: seq<real>): real {
    if xs == [] then 0.0 else Sum(xs[..|xs| - 1]) + xs[|xs| - 1]
  }

  lemma {:induction false} SumAppend(a: seq<real>, b: seq<real>)
    decreases |b|
    ensures Sum(a + b) == Sum(a) + Sum(b)
  {
    if b != [] {
      var b' := b[..|b| - 1];
      assert (a + b)[..|a + b| - 1] == a + b';
      assert (a + b)[|a + b| - 1] == b[|b| - 1];
      SumAppend(a, b');
      calc {
        Sum(a + b);
        Sum(a + b') + b[|b| - 1];
        Sum(a) + Sum(b') + b[|b| - 1];
        Sum(a) + Sum(b);
      }
    } else {
      assert a + b == a;
    }
  }

  /** `[s * w for s in xs]`. */
  function Times(xs: seq<real>, w: real): (r: seq<real>)
    ensures |r| == |xs| && forall i | 0 <= i < |xs| :: r[i] == xs[i] * w
  {
    seq(|xs|, i requires 0 <= i < |xs| => xs[i] * w)
  }

  lemma TimesPrefix(xs: seq<real>, w: real, n: nat)
    requires n <= |xs|
    ensures Times(xs, w)[..n] == Times(xs[..n], w)
  {
    var a, b := Times(xs, w)[..n], Times(xs[..n], w);
    forall k | 0 <= k < n ensures a[k] == b[k] {
      assert xs[..n][k] == xs[k];
    }
  }

  /** Scaling every element scales the sum. */
  lemma {:induction false} SumTimes(xs: seq<real>, w: real)
    ensures Sum(Times(xs, w)) == w * Sum(xs)
  {
    if xs != [] {
      var n := |xs| - 1;
      var ts := Times(xs, w);
      TimesPrefix(xs, w, n);
      SumTimes(xs[..n], w);
      TimesStep(w, Sum(xs[..n]), xs[n], Sum(ts[..n]), ts[n], Sum(ts), Sum(xs));
    }
  }

  /** The arithmetic of one step of `SumTimes`: `w * a + x * w == w * (a + x)`. */
  lemma TimesStep(w: real, a: real, x: real, t: real, y: real, total: real, sum: real)
    requires t == w * a && y == x * w && total == t + y && sum == a + x
    ensures total == w * sum
  {
  }

  // ------------------------------------------------------------ stable sort

  predicate SortedDesc<T>(s: seq<T>, key: T -> real) {
    forall i, j | 0 <= i < j < |s| :: key(s[i]) >= key(s[j])
  }

  /** Inserts `x`, which came before every element of `s`, ahead of the
      first element whose key is not greater than its own. */
  function InsertDesc<T>(x: T, s: seq<T>, key: T -> real): (r: seq<T>)
    ensures |r| == |s| + 1
  {
    if s == [] then [x]
    else if key(s[0]) <= key(x) then [x] + s
    else [s[0]] + InsertDesc(x, s[1..], key)
  }

  lemma {:induction false} InsertDescMultiset<T>(x: T, s: seq<T>, key: T -> real)
    ensures multiset(InsertDesc(x, s, key)) == multiset(s) + multiset{x}
  {
    if s != [] && key(s[0]) > key(x) {
      InsertDescMultiset(x, s[1..], key);
      assert s == [s[0]] + s[1..];
    }
  }

  lemma {:induction false} InsertDescSorted<T>(x: T, s: seq<T>, key: T -> real)
    requires SortedDesc(s, key)
    ensures SortedDesc(InsertDesc(x, s, key), key)
  {
    if s != [] && key(s[0]) > key(x) {
      InsertDescSorted(x, s[1..], key);
      var t := InsertDesc(x, s[1..], key);
      InsertDescMultiset(x, s[1..], key);
      forall j | 0 <= j < |t| ensures key(s[0]) >= key(t[j]) {
        assert t[j] in multiset(t);
        if t[j] != x {
          assert t[j] in multiset(s[1..]);
          var k :| 0 <= k < |s[1..]| && s[1..][k] == t[j];
          assert s[k + 1] == t[j];
        }
      }
    }
  }

  /** `sorted(s, key=key, reverse=True)`. */
  function SortDesc<T>(s: seq<T>, key: T -> real): (r: seq<T>)
    ensures |r| == |s| && multiset(r) == multiset(s)
    ensures SortedDesc(r, key)
  {
    if s == [] then []
    else
      assert s == [s[0]] + s[1..];
      var t := SortDesc(s[1..], key);
      InsertDescSorted(s[0], t, key);
      InsertDescMultiset(s[0], t, key);
      InsertDesc(s[0], t, key)
  }

  /** The elements of `s` whose key is `v`, in their order in `s`. */
  function WithKey<T>(s: seq<T>, key: T -> real, v: real): seq<T> {
    if s == [] then []
    else (if key(s[0]) == v then [s[0]] else []) + WithKey(s[1..], key, v)
  }

  function KeyIs<T>(x: T, key: T -> real, v: real): seq<T> {
    if key(x) == v then [x] else []
  }

  lemma {:induction false} WithKeyCons<T>(x: T, s: seq<T>, key: T -> real, v: real)
    ensures WithKey([x] + s, key, v) == KeyIs(x, key, v) + WithKey(s, key, v)
  {
    assert ([x] + s)[1..] == s;
  }

  lemma {:induction false} WithKeyInsert<T>(x: T, s: seq<T>, key: T -> real, v: real)
    ensures WithKey(InsertDesc(x, s, key), key, v) == KeyIs(x, key, v) + WithKey(s, key, v)
  {
    if s == [] {
      WithKeyCons(x, s, key, v);
    } else if key(s[0]) <= key(x) {
      WithKeyCons(x, s, key, v);
    } else {
      var t := InsertDesc(x, s[1..], key);
      var a, b, w := KeyIs(s[0], key, v), KeyIs(x, key, v), WithKey(s[1..], key, v);
      assert InsertDesc(x, s, key) == [s[0]] + t;
      WithKeyInsert(x, s[1..], key, v);
      WithKeyCons(s[0], t, key, v);
      assert WithKey(InsertDesc(x, s, key), key, v) == a + (b + w);
      WithKeyCons(s[0], s[1..], key, v);
      assert s == [s[0]] + s[1..];
      assert WithKey(s, key, v) == a + w;
      assert a == [] || b == [];
      assert a + (b + w) == b + (a + w);
    }
  }

  /** Stability: elements with equal keys keep their input order. */
  lemma {:induction false} SortDescStable<T>(s: seq<T>, key: T -> real, v: real)
    ensures WithKey(SortDesc(s, key), key, v) == WithKey(s, key, v)
  {
    if s != [] {
      SortDescStable(s[1..], key, v);
      WithKeyInsert(s[0], SortDesc(s[1..], key), key, v);
      WithKeyCons(s[0], s[1..], key, v);
      assert s == [s[0]] + s[1..];
    }
  }

  lemma {:induction false} SortDescOfSorted<T>(s: seq<T>, key: T -> real)
    requires SortedDesc(s, key)
    ensures SortDesc(s, key) == s
  {
    if s != [] {
      var t := s[1..];
      assert SortedDesc(t, key);
      SortDescOfSorted(t, key);
      assert SortDesc(s, key) == InsertDesc(s[0], t, key);
      if t != [] {
        assert key(t[0]) <= key(s[0]);
      }
      assert InsertDesc(s[0], t, key) == [s[0]] + t;
      assert s == [s[0]] + t;
    }
  }

  /** Elements with equal keys appear in increasing `rank`. */
  predicate TiesByRank<T>(s: seq<T>, key: T -> real, rank: T -> int) {
    forall i, j | 0 <= i < j < |s| && key(s[i]) == key(s[j]) :: rank(s[i]) < rank(s[j])
  }

  lemma {:induction false} InsertDescTies<T>(x: T, t: seq<T>, key: T -> real, rank: T -> int)
    requires TiesByRank(t, key, rank)
    requires forall k | 0 <= k < |t| :: rank(x) < rank(t[k])
    ensures TiesByRank(InsertDesc(x, t, key), key, rank)
  {
    if t != [] && key(t[0]) > key(x) {
      var u := InsertDesc(x, t[1..], key);
      assert TiesByRank(t[1..], key, rank);
      InsertDescTies(x, t[1..], key, rank);
      InsertDescMultiset(x, t[1..], key);
      var r := [t[0]] + u;
      forall j | 0 < j < |r| && key(r[0]) == key(r[j]) ensures rank(r[0]) < rank(r[j]) {
        assert r[j] in multiset(u);
        if r[j] != x {
          assert r[j] in multiset(t[1..]);
          var m :| 0 <= m < |t[1..]| && t[1..][m] == r[j];
          assert t[m + 1] == r[j];
        }
      }
    }
  }

  /** Stability stated through ranks: a list in increasing rank sorts into one
      whose equal keys are still in increasing rank. */
  lemma {:induction false} SortDescTies<T>(s: seq<T>, key: T -> real, rank: T -> int)
    requires forall i, j | 0 <= i < j < |s| :: rank(s[i]) < rank(s[j])
    ensures TiesByRank(SortDesc(s, key), key, rank)
  {
    if s != [] {
      var t := SortDesc(s[1..], key);
      SortDescTies(s[1..], key, rank);
      forall k | 0 <= k < |t| ensures rank(s[0]) < rank(t[k]) {
        assert t[k] in multiset(s[1..]);
        var m :| 0 <= m < |s[1..]| && s[1..][m] == t[k];
        assert s[m + 1] == t[k];
      }
      InsertDescTies(s[0], t, key, rank);
    }
  }

  /** In a descending list, what a prefix keeps outranks what it drops. */
  lemma PrefixOutranks<T>(s: seq<T>, key: T -> real, k: int, i: nat, j: nat)
    requires SortedDesc(s, key)
    requires i < SliceStop(|s|, k) <= j < |s|
    ensures key(PyPrefix(s, k)[i]) >= key(s[j])
  {
  }

  // ---------------------------------------------------------- string order

  /** `a < b` for Python strings: code-point lexicographic order. */
  predicate StrLt(a: string, b: string) {
    if a == [] then b != []
    else if b == [] then false
    else if a[0] != b[0] then a[0] < b[0]
    else StrLt(a[1..], b[1..])
  }

  lemma {:induction false} StrLtIrreflexive(a: string)
    ensures !StrLt(a, a)
  {
    if a != [] {
      StrLtIrreflexive(a[1..]);
    }
  }

  lemma {:induction false} StrLtTransitive(a: string, b: string, c: string)
    requires StrLt(a, b) && StrLt(b, c)
    ensures StrLt(a, c)
  {
    if a != [] && b != [] && c != [] && a[0] == b[0] && b[0] == c[0] {
      StrLtTransitive(a[1..], b[1..], c[1..]);
    }
  }

  lemma {:induction false} StrLtTotal(a: string, b: string)
    ensures a == b || StrLt(a, b) || StrLt(b, a)
  {
    if a != [] && b != [] && a[0] == b[0] {
      StrLtTotal(a[1..], b[1..]);
      if a[1..] == b[1..] {
        assert a == [a[0]] + a[1..] && b == [b[0]] + b[1..];
      }
    }
  }

  lemma StrLtAsymmetric(a: string, b: string)
    requires StrLt(a, b)
    ensures !StrLt(b, a)
  {
    if StrLt(b, a) {
      StrLtTransitive(a, b, a);
      StrLtIrreflexive(a);
    }
  }

  predicate StrLe(a: string, b: string) {
    a == b || StrLt(a, b)
  }

  predicate SortedStrs(s: seq<string>) {
    forall i, j | 0 <= i < j < |s| :: StrLe(s[i], s[j])
  }

  predicate StrictlySortedStrs(s: seq<string>) {
    forall i, j | 0 <= i < j < |s| :: StrLt(s[i], s[j])
  }

  predicate Distinct<T(==)>(s: seq<T>) {
    forall i, j | 0 <= i < j < |s| :: s[i] != s[j]
  }

  function InsertStr(x: string, s: seq<string>): (r: seq<string>)
    ensures |r| == |s| + 1 && multiset(r) == multiset(s) + multiset{x}
  {
    if s == [] then [x]
    else if !StrLt(s[0], x) then [x] + s
    else
      assert s == [s[0]] + s[1..];
      [s[0]] + InsertStr(x, s[1..])
  }

  lemma {:induction false} InsertStrSorted(x: string, s: seq<string>)
    requires SortedStrs(s)
    ensures SortedStrs(InsertStr(x, s))
  {
    if s != [] {
      if !StrLt(s[0], x) {
        InsertStrFront(x, s);
      } else {
        InsertStrSorted(x, s[1..]);
        InsertStrBehind(x, s, InsertStr(x, s[1..]));
      }
    }
  }

  /** `x` not after the head of a sorted list may lead it. */
  lemma InsertStrFront(x: string, s: seq<string>)
    requires SortedStrs(s) && s != [] && !StrLt(s[0], x)
    ensures SortedStrs([x] + s)
  {
    var r := [x] + s;
    StrLtTotal(x, s[0]);
    forall j | 1 <= j < |r| ensures StrLe(x, r[j]) {
      if j > 1 && x != s[0] && s[0] != s[j - 1] {
        StrLtTransitive(x, s[0], s[j - 1]);
      }
    }
  }

  /** The head of a sorted list, below `x`, may lead the sorted insertion into its tail. */
  lemma InsertStrBehind(x: string, s: seq<string>, t: seq<string>)
    requires SortedStrs(s) && s != [] && StrLt(s[0], x)
    requires SortedStrs(t) && multiset(t) == multiset(s[1..]) + multiset{x}
    ensures SortedStrs([s[0]] + t)
  {
    var r := [s[0]] + t;
    forall j | 1 <= j < |r| ensures StrLe(s[0], r[j]) {
      assert r[j] == t[j - 1];
      assert r[j] in multiset(t);
      if r[j] != x {
        assert r[j] in multiset(s[1..]);
        assert r[j] in s[1..];
      }
    }
  }

  /** `sorted(s)` for a list of strings. */
  function SortStrs(s: seq<string>): (r: seq<string>)
    ensures |r| == |s| && multiset(r) == multiset(s)
    ensures SortedStrs(r)
  {
    if s == [] then []
    else
      assert s == [s[0]] + s[1..];
      InsertStrSorted(s[0], SortStrs(s[1..]));
      InsertStr(s[0], SortStrs(s[1..]))
  }

  lemma {:induction false} DistinctMultiplicity<T>(a: seq<T>, x: T)
    requires Distinct(a)
    ensures multiset(a)[x] <= 1
  {
    if a != [] {
      assert a == [a[0]] + a[1..];
      DistinctMultiplicity(a[1..], x);
      if a[0] == x {
        assert x !in a[1..];
      }
    }
  }

  /** A permutation of a list without repeats has no repeats. */
  lemma PermutationDistinct<T>(a: seq<T>, b: seq<T>)
    requires Distinct(a) && multiset(a) == multiset(b)
    ensures Distinct(b)
  {
    forall i, j | 0 <= i < j < |b| ensures b[i] != b[j] {
      if b[i] == b[j] {
        assert b == b[..j] + [b[j]] + b[j + 1..];
        assert b[i] in multiset(b[..j]);
        assert multiset(b)[b[j]] >= 2;
        DistinctMultiplicity(a, b[j]);
      }
    }
  }

  /** Sorting distinct strings yields a strictly increasing list of the same strings. */
  lemma SortStrsDistinct(s: seq<string>)
    requires Distinct(s)
    ensures StrictlySortedStrs(SortStrs(s))
    ensures forall x :: x in SortStrs(s) <==> x in s
  {
    var r := SortStrs(s);
    assert forall x :: x in r <==> x in multiset(r);
    PermutationDistinct(s, r);
  }

  lemma StrLtNotBoth(a: string, b: string)
    ensures !(StrLt(a, b) && StrLt(b, a))
  {
    if StrLt(a, b) {
      StrLtAsymmetric(a, b);
    }
  }

  lemma HeadLeast(a: seq<string>, x: string)
    requires StrictlySortedStrs(a) && x in a
    ensures x == a[0] || StrLt(a[0], x)
  {
  }

  /** A strictly increasing list is determined by its elements, so `sorted(set)`
      does not depend on the order in which the set was filled. */
  lemma {:induction false} StrictlySortedUnique(a: seq<string>, b: seq<string>)
    requires StrictlySortedStrs(a) && StrictlySortedStrs(b)
    requires forall x :: x in a <==> x in b
    ensures a == b
  {
    if a != [] { assert a[0] in a; }
    if b != [] { assert b[0] in b; }
    if a != [] && b != [] {
      HeadLeast(a, b[0]);
      HeadLeast(b, a[0]);
      StrLtNotBoth(a[0], b[0]);
      StrLtIrreflexive(a[0]);
      assert a[0] == b[0];
      assert a == [a[0]] + a[1..] && b == [b[0]] + b[1..];
      forall x ensures x in a[1..] <==> x in b[1..] {
        if x in a[1..] {
          var k :| 0 <= k < |a[1..]| && a[1..][k] == x;
          assert StrLt(a[0], a[k + 1]);
          assert x in b;
        }
        if x in b[1..] {
          var k :| 0 <= k < |b[1..]| && b[1..][k] == x;
          assert StrLt(b[0], b[k + 1]);
          assert x in a;
        }
      }
      StrictlySortedUnique(a[1..], b[1..]);
    }
  }

  /** Where the chunk after the one starting at `i` starts: `i + n`, capped at the length. */
  function NextStart(len: nat, i: nat, n: int): (j: nat)
    requires n > 0 && i < len
    ensures i < j <= len
  {
    if i + n < len then i + n else len
  }

  /** `xs[i:i + n]`. */
  function ChunkAt<T>(xs: seq<T>, i: nat, n: int): seq<T>
    requires n > 0 && i < |xs|
  {
    xs[i..NextStart(|xs|, i, n)]
  }

  /** `[xs[i:i + n] for i in range(start, len(xs), n)]` from `start` on. */
  function ChunksFrom<T>(xs: seq<T>, i: nat, n: int): seq<seq<T>>
    requires n > 0 && i <= |xs|
    decreases |xs| - i
  {
    if i == |xs| then [] else [ChunkAt(xs, i, n)] + ChunksFrom(xs, NextStart(|xs|, i, n), n)
  }

  function Flatten<T>(xss: seq<seq<T>>): seq<T> {
    if xss == [] then [] else xss[0] + Flatten(xss[1..])
  }

  /** The chunks concatenate back to the list, and all but the last have
      exactly `n` elements (the last has between 1 and `n`). */
  lemma {:induction false} ChunksCover<T>(xs: seq<T>, i: nat, n: int)
    requires n > 0 && i <= |xs|
    ensures Flatten(ChunksFrom(xs, i, n)) == xs[i..]
    ensures forall j | 0 <= j < |ChunksFrom(xs, i, n)| - 1 :: |ChunksFrom(xs, i, n)[j]| == n
    ensures forall j | 0 <= j < |ChunksFrom(xs, i, n)| :: 0 < |ChunksFrom(xs, i, n)[j]| <= n
    decreases |xs| - i
  {
    if i < |xs| {
      var next := NextStart(|xs|, i, n);
      ChunksCover(xs, next, n);
      var cs := ChunksFrom(xs, i, n);
      assert cs[1..] == ChunksFrom(xs, next, n);
      assert xs[i..next] + xs[next..] == xs[i..];
      forall j | 0 <= j < |cs| ensures 0 < |cs[j]| <= n && (j < |cs| - 1 ==> |cs[j]| == n) {
        if j > 0 {
          assert cs[j] == ChunksFrom(xs, next, n)[j - 1];
        } else if j < |cs| - 1 {
          assert next < |xs|;
        }
      }
    }
  }

  /** `[y for x in xs for y in f(x)]`: what each element contributes, in order. */
  function Collect<T, U>(xs: seq<T>, f: T -> seq<U>): seq<U> {
    if xs == [] then [] else Collect(xs[..|xs| - 1], f) + f(xs[|xs| - 1])
  }

  lemma CollectStep<T, U>(xs: seq<T>, f: T -> seq<U>, i: nat)
    requires i < |xs|
    ensures Collect(xs[..i + 1], f) == Collect(xs[..i], f) + f(xs[i])
  {
    assert xs[..i + 1][..i] == xs[..i];
  }

  lemma {:induction false} CollectAppend<T, U>(a: seq<T>, b: seq<T>, f: T -> seq<U>)
    ensures Collect(a + b, f) == Collect(a, f) + Collect(b, f)
  {
    if b == [] {
      assert a + b == a;
    } else {
      var b' := b[..|b| - 1];
      CollectAppend(a, b', f);
      assert (a + b)[..|a + b| - 1] == a + b';
      assert (a + b)[|a + b| - 1] == b[|b| - 1];
    }
  }

  lemma {:induction false} CollectMembers<T, U>(xs: seq<T>, f: T -> seq<U>, y: U)
    ensures y in Collect(xs, f) <==> exists i | 0 <= i < |xs| :: y in f(xs[i])
  {
    if xs != [] {
      var init := xs[..|xs| - 1];
      CollectMembers(init, f, y);
      if exists i | 0 <= i < |xs| :: y in f(xs[i]) {
        var i :| 0 <= i < |xs| && y in f(xs[i]);
        if i < |xs| - 1 {
          assert init[i] == xs[i];
        }
      }
      if y in Collect(init, f) {
        var i :| 0 <= i < |init| && y in f(init[i]);
        assert xs[i] == init[i];
      }
    }
  }
}
