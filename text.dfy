/** The Python `str` operations the core relies on, over `seq<char>`:
    `strip`, `startswith`, `in`, `split` on one character, `replace` of one
    character, ASCII `lower`/`upper`, `str(int)` and `int(str)`. */
module Text {
  import opened Wrappers
  import opened Lists

  /** The code-point ranges of Python's `str.isspace()`, which is also what
      the regex class `\s` matches. */
  const SpaceRanges: seq<(int, int)> := [
    (9, 13), (28, 32), (0x85, 0x85), (0xA0, 0xA0), (0x1680, 0x1680),
    (0x2000, 0x200A), (0x2028, 0x2029), (0x202F, 0x202F), (0x205F, 0x205F), (0x3000, 0x3000)]

  predicate InRanges(k: int, rs: seq<(int, int)>) {
    rs != [] && ((rs[0].0 <= k <= rs[0].1) || InRanges(k, rs[1..]))
  }

  predicate IsSpace(c: char) {
    InRanges(c as int, SpaceRanges)
  }

  lemma {:induction false} OutsideRanges(k: int, rs: seq<(int, int)>)
    requires forall i | 0 <= i < |rs| :: !(rs[i].0 <= k <= rs[i].1)
    ensures !InRanges(k, rs)
  {
    if rs != [] {
      OutsideRanges(k, rs[1..]);
    }
  }

  /** Every character below the first whitespace range or between the
      first two and the third is not whitespace; digits and ASCII letters are among them. */
  lemma NotSpace(c: char)
    requires c as int < 9 || 13 < c as int < 28 || 32 < c as int < 0x85
    ensures !IsSpace(c)
  {
    OutsideRanges(c as int, SpaceRanges);
  }

  /** `not s.strip()`: the string holds nothing but whitespace. */
  predicate IsBlank(s: string) {
    forall i | 0 <= i < |s| :: IsSpace(s[i])
  }

  /** `s.lstrip()`: the longest suffix that does not start with whitespace. */
  function LStrip(s: string): (r: string)
    ensures |r| <= |s| && r == s[|s| - |r|..]
    ensures r == [] || !IsSpace(r[0])
    ensures forall i | 0 <= i < |s| - |r| :: IsSpace(s[i])
  {
    if s != [] && IsSpace(s[0]) then LStrip(s[1..]) else s
  }

  /** `s.rstrip()`: the longest prefix that does not end with whitespace. */
  function RStrip(s: string): (r: string)
    ensures |r| <= |s| && r == s[..|r|]
    ensures r == [] || !IsSpace(r[|r| - 1])
    ensures forall i | |r| <= i < |s| :: IsSpace(s[i])
  {
    if s != [] && IsSpace(s[|s| - 1]) then RStrip(s[..|s| - 1]) else s
  }

  /** `s.strip()`. */
  function Strip(s: string): (r: string)
    ensures r == [] <==> IsBlank(s)
    ensures r != [] ==> !IsSpace(r[0]) && !IsSpace(r[|r| - 1])
    ensures forall c | c in r :: c in s
  {
    var l := LStrip(s);
    LStripBlank(s);
    RStripBlank(l);
    StripEnds(l);
    StripChars(s, l, RStrip(l));
    RStrip(l)
  }

  lemma StripEnds(l: string)
    requires l == [] || !IsSpace(l[0])
    ensures var r := RStrip(l); r != [] ==> !IsSpace(r[0]) && !IsSpace(r[|r| - 1])
  {
    var r := RStrip(l);
    if r != [] {
      assert r[0] == l[0];
    }
  }

  lemma StripChars(s: string, l: string, r: string)
    requires |l| <= |s| && l == s[|s| - |l|..]
    requires |r| <= |l| && r == l[..|r|]
    ensures forall c | c in r :: c in s
  {
    forall c | c in r ensures c in s {
      var i :| 0 <= i < |r| && r[i] == c;
      assert l[i] == c;
      assert s[|s| - |l| + i] == c;
    }
  }

  lemma LStripBlank(s: string)
    ensures IsBlank(LStrip(s)) <==> IsBlank(s)
  {
    var l := LStrip(s);
    if l != [] {
      assert l[0] == s[|s| - |l|];
    }
  }

  lemma RStripBlank(l: string)
    ensures RStrip(l) == [] <==> IsBlank(l)
  {
    var r := RStrip(l);
    if r != [] {
      assert l[|r| - 1] == r[|r| - 1];
    }
  }

  lemma StripOfPlain(s: string)
    requires s == [] || (!IsSpace(s[0]) && !IsSpace(s[|s| - 1]))
    ensures Strip(s) == s
  {
  }

  predicate StartsWith(s: string, p: string) {
    |p| <= |s| && s[..|p|] == p
  }

  predicate EndsWith(s: string, p: string) {
    |p| <= |s| && s[|s| - |p|..] == p
  }

  predicate OccursAt(s: string, p: string, j: int) {
    0 <= j && j + |p| <= |s| && s[j..j + |p|] == p
  }

  /** `s.find(p, from)`: the first position at or after `from` where `p` occurs. */
  function FindFrom(s: string, p: string, from: nat): (r: Option<nat>)
    requires from <= |s|
    decreases |s| - from
    ensures r.Some? ==> from <= r.value && OccursAt(s, p, r.value)
    ensures r.Some? ==> forall j | from <= j < r.value :: !OccursAt(s, p, j)
    ensures r.None? ==> forall j | from <= j :: !OccursAt(s, p, j)
  {
    if from + |p| > |s| then None
    else if s[from..from + |p|] == p then Some(from)
    else FindFrom(s, p, from + 1)
  }

  /** `p in s` for strings. */
  predicate Contains(s: string, p: string) {
    FindFrom(s, p, 0).Some?
  }

  /** A needle whose first character is absent does not occur. */
  lemma NotContainsFirstAbsent(s: string, p: string)
    requires p != [] && p[0] !in s
    ensures !Contains(s, p)
  {
    forall j | 0 <= j ensures !OccursAt(s, p, j) {
      if j + |p| <= |s| {
        assert s[j..j + |p|][0] == s[j];
      }
    }
  }

  /** `s.split(p, 1)[1]` when `p in s`: the text after the first occurrence of `p`. */
  function AfterFirst(s: string, p: string): (r: string)
    requires Contains(s, p)
    ensures exists j :: OccursAt(s, p, j) && (forall k | 0 <= k < j :: !OccursAt(s, p, k)) && r == s[j + |p|..]
  {
    s[FindFrom(s, p, 0).value + |p|..]
  }

  /** `s.replace(a, b)` for one-character `a` and `b`. */
  function ReplaceChar(s: string, a: char, b: char): (r: string)
    ensures |r| == |s|
    ensures forall i | 0 <= i < |s| :: r[i] == if s[i] == a then b else s[i]
  {
    seq(|s|, i requires 0 <= i < |s| => if s[i] == a then b else s[i])
  }

  lemma ReplaceCharAbsent(s: string, a: char, b: char)
    requires a !in s
    ensures ReplaceChar(s, a, b) == s
  {
  }

  /** `s.split(c)` for a one-character separator. */
  function Split(s: string, c: char): (parts: seq<string>)
    decreases |s|
    ensures |parts| >= 1
    ensures forall i | 0 <= i < |parts| :: c !in parts[i]
  {
    match FindFrom(s, [c], 0)
    case None =>
      assert forall j | 0 <= j < |s| :: s[j] != c by {
        forall j | 0 <= j < |s| ensures s[j] != c {
          assert !OccursAt(s, [c], j);
          assert s[j..j + 1] == [s[j]];
        }
      }
      [s]
    case Some(i) =>
      assert forall j | 0 <= j < i :: s[j] != c by {
        forall j | 0 <= j < i ensures s[j] != c {
          assert !OccursAt(s, [c], j);
          assert s[j..j + 1] == [s[j]];
        }
      }
      [s[..i]] + Split(s[i + 1..], c)
  }

  /** `sep.join(parts)`. */
  function Join(parts: seq<string>, sep: string): string {
    if |parts| == 0 then ""
    else if |parts| == 1 then parts[0]
    else parts[0] + sep + Join(parts[1..], sep)
  }

  lemma {:induction false} SplitNoSeparator(s: string, c: char)
    requires c !in s
    ensures Split(s, c) == [s]
  {
    forall j | 0 <= j < |s| ensures !OccursAt(s, [c], j) {
      assert s[j..j + 1] == [s[j]];
    }
  }

  /** Splitting `a + [c] + b` where `a` holds no `c` yields `a` and then the parts of `b`. */
  lemma {:induction false} SplitCons(a: string, c: char, b: string)
    requires c !in a
    ensures Split(a + [c] + b, c) == [a] + Split(b, c)
  {
    var s := a + [c] + b;
    var f := FindFrom(s, [c], 0);
    assert OccursAt(s, [c], |a|) by {
      assert s[|a|..|a| + 1] == [c];
    }
    forall j | 0 <= j < |a| ensures !OccursAt(s, [c], j) {
      assert s[j..j + 1] == [a[j]];
    }
    assert f.value == |a|;
    assert s[..|a|] == a;
    assert s[|a| + 1..] == b;
  }

  /** `sep.join(s.split(sep)) == s`. */
  lemma {:induction false} JoinSplit(s: string, c: char)
    decreases |s|
    ensures Join(Split(s, c), [c]) == s
  {
    match FindFrom(s, [c], 0)
    case None =>
    case Some(i) =>
      JoinSplit(s[i + 1..], c);
      assert s[i..i + 1] == [c];
      assert s == s[..i] + [c] + s[i + 1..];
  }

  /** Splitting undoes joining when no part holds the separator. */
  lemma {:induction false} SplitJoin(parts: seq<string>, c: char)
    requires |parts| >= 1
    requires forall i | 0 <= i < |parts| :: c !in parts[i]
    ensures Split(Join(parts, [c]), c) == parts
  {
    if |parts| == 1 {
      SplitNoSeparator(parts[0], c);
    } else {
      SplitJoin(parts[1..], c);
      SplitCons(parts[0], c, Join(parts[1..], [c]));
      assert [parts[0]] + parts[1..] == parts;
    }
  }

  /** `[x.strip() for x in s.split(",") if x.strip()]` applied part by part. */
  function NonBlankStripped(parts: seq<string>): (r: seq<string>)
    ensures |r| <= |parts|
  {
    if parts == [] then []
    else
      var t := Strip(parts[0]);
      (if t == [] then [] else [t]) + NonBlankStripped(parts[1..])
  }

  lemma {:induction false} NonBlankStrippedMembers(parts: seq<string>, x: string)
    ensures x in NonBlankStripped(parts) <==> x != [] && exists p | p in parts :: Strip(p) == x
  {
    if parts != [] {
      NonBlankStrippedMembers(parts[1..], x);
      assert parts == [parts[0]] + parts[1..];
      if x != [] && Strip(parts[0]) != x && (exists p | p in parts :: Strip(p) == x) {
        var p :| p in parts && Strip(p) == x;
        assert p in parts[1..];
      }
    }
  }

  /** Parts that are non-empty and not surrounded by whitespace all survive. */
  lemma {:induction false} NonBlankStrippedOfPlain(parts: seq<string>)
    requires forall i | 0 <= i < |parts| :: parts[i] != [] && !IsSpace(parts[i][0]) && !IsSpace(parts[i][|parts[i]| - 1])
    ensures NonBlankStripped(parts) == parts
  {
    if parts != [] {
      StripOfPlain(parts[0]);
      NonBlankStrippedOfPlain(parts[1..]);
      assert [parts[0]] + parts[1..] == parts;
    }
  }

  /** A comma-separated setting: parts split on ',', trimmed, empty ones dropped. */
  function CommaList(s: string): seq<string> {
    NonBlankStripped(Split(s, ','))
  }

  lemma StripIdempotent(s: string)
    ensures Strip(Strip(s)) == Strip(s)
  {
    StripOfPlain(Strip(s));
  }

  /** A stripped part keeps only characters of the part it came from. */
  lemma StripKeepsAbsent(p: string, c: char)
    requires c !in p
    ensures c !in Strip(p)
  {
  }

  lemma CommaListMembers(s: string, x: string)
    ensures x in CommaList(s) <==> x != [] && exists p | p in Split(s, ',') :: Strip(p) == x
    ensures x in CommaList(s) ==> ',' !in x && Strip(x) == x
  {
    NonBlankStrippedMembers(Split(s, ','), x);
    if x in CommaList(s) {
      var p :| p in Split(s, ',') && Strip(p) == x;
      StripKeepsAbsent(p, ',');
      StripIdempotent(p);
    }
  }

  /** ASCII case mapping; the model's `lower()` / `upper()`. */
  function LowerChar(c: char): (r: char)
    ensures 'A' <= c <= 'Z' ==> 'a' <= r <= 'z' && r as int == c as int + 32
    ensures !('A' <= c <= 'Z') ==> r == c
  {
    if 'A' <= c <= 'Z' then (c as int + 32) as char else c
  }

  function UpperChar(c: char): (r: char)
    ensures 'a' <= c <= 'z' ==> 'A' <= r <= 'Z' && r as int + 32 == c as int
    ensures !('a' <= c <= 'z') ==> r == c
  {
    if 'a' <= c <= 'z' then (c as int - 32) as char else c
  }

  function Lower(s: string): (r: string)
    ensures |r| == |s| && forall i | 0 <= i < |s| :: r[i] == LowerChar(s[i])
  {
    seq(|s|, i requires 0 <= i < |s| => LowerChar(s[i]))
  }

  function Upper(s: string): (r: string)
    ensures |r| == |s| && forall i | 0 <= i < |s| :: r[i] == UpperChar(s[i])
  {
    seq(|s|, i requires 0 <= i < |s| => UpperChar(s[i]))
  }

  /** Removes every character for which `drop` holds (`re.sub("[...]", "", s)`). */
  function RemoveWhere(s: string, drop: char -> bool): (r: string)
    ensures |r| <= |s|
    ensures forall i | 0 <= i < |r| :: !drop(r[i]) && r[i] in s
    ensures (forall i | 0 <= i < |s| :: !drop(s[i])) ==> r == s
  {
    if s == [] then []
    else (if drop(s[0]) then [] else [s[0]]) + RemoveWhere(s[1..], drop)
  }

  // ---------------------------------------------------------------- integers

  predicate IsDigit(c: char) {
    '0' <= c <= '9'
  }

  predicate AllDigits(s: string) {
    forall i | 0 <= i < |s| :: IsDigit(s[i])
  }

  function DigitChar(d: nat): (c: char)
    requires d < 10
    ensures IsDigit(c) && c as int - '0' as int == d
  {
    ('0' as int + d) as char
  }

  /** The value of a run of ASCII digits, most significant first. */
  function DigitsValue(s: string): nat
    requires AllDigits(s)
  {
    if s == [] then 0 else DigitsValue(s[..|s| - 1]) * 10 + (s[|s| - 1] as int - '0' as int)
  }

  /** The canonical decimal digits of `n` (no leading zero except for 0 itself). */
  function NatDigits(n: nat): (s: string)
    ensures s != [] && AllDigits(s)
    ensures DigitsValue(s) == n
    ensures |s| > 1 ==> s[0] != '0'
  {
    if n < 10 then [DigitChar(n)]
    else
      var init := NatDigits(n / 10);
      var s := init + [DigitChar(n % 10)];
      assert s[..|s| - 1] == init;
      s
  }

  /** `str(n)` for a Python `int`. */
  function IntToStr(n: int): (s: string)
    ensures s != []
    ensures n >= 0 <==> s[0] != '-'
  {
    if n < 0 then "-" + NatDigits(-n) else NatDigits(n)
  }

  /** Digits in which single underscores may separate digits, as Python's `int()` accepts. */
  predicate IsDigitGroups(t: string) {
    |t| > 0 && IsDigit(t[0]) && IsDigit(t[|t| - 1])
    && (forall i | 0 <= i < |t| :: IsDigit(t[i]) || t[i] == '_')
    && (forall i | 0 <= i < |t| - 1 :: !(t[i] == '_' && t[i + 1] == '_'))
  }

  function GroupsValue(t: string): nat
    requires IsDigitGroups(t)
  {
    var d := RemoveWhere(t, c => c == '_');
    assert forall i | 0 <= i < |d| :: d[i] != '_' && d[i] in t;
    DigitsValue(d)
  }

  /** Python's `int(s)` for a `str` argument in base 10; `None` is the `ValueError`.
      Surrounding whitespace is ignored and a single sign may lead. */
  function PyInt(s: string): Option<int> {
    var t := Strip(s);
    var signed := t != [] && (t[0] == '+' || t[0] == '-');
    var body := if signed then t[1..] else t;
    if !IsDigitGroups(body) then None
    else
      var v: int := GroupsValue(body);
      Some(if signed && t[0] == '-' then -v else v)
  }

  lemma DigitsAreGroups(s: string)
    requires s != [] && AllDigits(s)
    ensures IsDigitGroups(s) && GroupsValue(s) == DigitsValue(s)
  {
  }

  /** `int(str(n)) == n`. */
  lemma PyIntOfIntToStr(n: int)
    ensures PyInt(IntToStr(n)) == Some(n)
  {
    if n < 0 {
      PyIntOfNegDigits(NatDigits(-n));
    } else {
      PyIntOfDigits(NatDigits(n));
    }
  }

  lemma PyIntOfDigits(d: string)
    requires d != [] && AllDigits(d)
    ensures PyInt(d) == Some(DigitsValue(d) as int)
  {
    DigitsAreGroups(d);
    assert IsDigit(d[0]) && IsDigit(d[|d| - 1]);
    NotSpace(d[0]);
    NotSpace(d[|d| - 1]);
    StripOfPlain(d);
    assert Strip(d) == d;
    assert d[0] != '+' && d[0] != '-';
  }

  lemma PyIntOfNegDigits(d: string)
    requires d != [] && AllDigits(d)
    ensures PyInt("-" + d) == Some(-(DigitsValue(d) as int))
  {
    PyIntOfNegDigitsAt(d, "-" + d);
  }

  lemma PyIntOfNegDigitsAt(d: string, s: string)
    requires d != [] && AllDigits(d)
    requires |s| == |d| + 1 && s[0] == '-' && s[1..] == d
    ensures PyInt(s) == Some(-(DigitsValue(d) as int))
  {
    assert s[|s| - 1] == d[|d| - 1];
    assert IsDigit(d[|d| - 1]);
    NotSpace(s[0]);
    NotSpace(s[|s| - 1]);
    StripOfPlain(s);
    DigitsAreGroups(d);
    PyIntNegative(s);
  }

  lemma PyIntNegative(t: string)
    requires Strip(t) == t && t != [] && t[0] == '-' && IsDigitGroups(t[1..])
    ensures PyInt(t) == Some(-(GroupsValue(t[1..]) as int))
  {
  }

  /** A line of a key file that holds a key: not blank once trimmed, and
      not a '#' comment. */
  predicate IsContentLine(l: string) {
    var t := Strip(l); t != [] && t[0] != '#'
  }

  /** What a content line contributes: its trimmed text, or nothing. */
  function LineContent(l: string): seq<string> {
    if IsContentLine(l) then [Strip(l)] else []
  }

  /** The trimmed content lines, in order, duplicates kept. */
  function ContentLines(lines: seq<string>): seq<string> {
    Collect(lines, LineContent)
  }

  lemma ContentLinesStep(lines: seq<string>, i: nat)
    requires i < |lines|
    ensures ContentLines(lines[..i + 1]) == ContentLines(lines[..i]) + LineContent(lines[i])
  {
    CollectStep(lines, LineContent, i);
  }

  /** The filter works line by line: the lines of two pieces are the lines of
      the first followed by the lines of the second, so order and
      duplicates are kept. */
  lemma ContentLinesAppend(a: seq<string>, b: seq<string>)
    ensures ContentLines(a + b) == ContentLines(a) + ContentLines(b)
  {
    CollectAppend(a, b, LineContent);
  }

  /** Every result is the trimmed text of a content line of the file, and
      every content line gives one. */
  lemma ContentLinesMembers(lines: seq<string>, x: string)
    ensures x in ContentLines(lines) <==> exists i | 0 <= i < |lines| :: IsContentLine(lines[i]) && Strip(lines[i]) == x
  {
    CollectMembers(lines, LineContent, x);
    if x in ContentLines(lines) {
      var i :| 0 <= i < |lines| && x in LineContent(lines[i]);
    }
    if exists i | 0 <= i < |lines| :: IsContentLine(lines[i]) && Strip(lines[i]) == x {
      var i :| 0 <= i < |lines| && IsContentLine(lines[i]) && Strip(lines[i]) == x;
      assert x in LineContent(lines[i]);
    }
  }

  /** Lines that are already trimmed keys come back unchanged. */
  lemma {:induction false} ContentLinesOfKeys(keys: seq<string>)
    requires forall i | 0 <= i < |keys| :: Strip(keys[i]) == keys[i] && keys[i] != [] && keys[i][0] != '#'
    ensures ContentLines(keys) == keys
  {
    if keys != [] {
      var init := keys[..|keys| - 1];
      var last := keys[|keys| - 1];
      forall i | 0 <= i < |init| ensures Strip(init[i]) == init[i] && init[i] != [] && init[i][0] != '#' {
        assert init[i] == keys[i];
      }
      ContentLinesOfKeys(init);
      assert keys == init + [last];
      ContentLinesAppend(init, [last]);
      ContentLineOfKey(last);
    }
  }

  lemma ContentLineOfKey(k: string)
    requires Strip(k) == k && k != [] && k[0] != '#'
    ensures ContentLines([k]) == [k]
  {
    assert ContentLines([k]) == Collect([], LineContent) + LineContent(k);
  }
}
