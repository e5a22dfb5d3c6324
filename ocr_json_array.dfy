/** `parse_json_array`: reading the JSON array out of a model's raw answer.
    Code fences are removed, the whole text is tried first, and then every
    '[' in turn starts a scan for its matching ']' that skips brackets inside
    string literals. `json.loads` is the parameter `loads` (`None` when it
    raises). */
module OcrJsonArray {
  import opened Wrappers
  import opened Text
  import opened Json

  // ------------------------------------------------------------ code fences

  predicate FenceAt(s: string, i: nat) {
    i + 3 <= |s| && s[i] == '`' && s[i + 1] == '`' && s[i + 2] == '`'
  }

  /** "json" in any letter case right after a fence at `i`. */
  predicate JsonTagAt(s: string, i: nat) {
    i + 7 <= |s| && LowerChar(s[i + 3]) == 'j' && LowerChar(s[i + 4]) == 's'
    && LowerChar(s[i + 5]) == 'o' && LowerChar(s[i + 6]) == 'n'
  }

  /** `re.compile(r"```(?:json)?|```", re.I).sub("", s)`: scanning from the
      left, each "```" is deleted together with a "json" tag that follows it. */
  function StripFences(s: string): (r: string)
    ensures |r| <= |s|
    ensures forall k | 0 <= k < |r| :: r[k] in s
    decreases |s|
  {
    if |s| < 3 then s
    else if FenceAt(s, 0) then
      var rest := if JsonTagAt(s, 0) then s[7..] else s[3..];
      var r := StripFences(rest);
      assert forall k | 0 <= k < |r| :: r[k] in rest;
      r
    else
      var r := StripFences(s[1..]);
      assert forall k | 0 <= k < |r| :: r[k] in s[1..];
      [s[0]] + r
  }

  /** Text without a backtick passes through unchanged. */
  lemma {:induction false} StripFencesNoBacktick(s: string)
    requires '`' !in s
    ensures StripFences(s) == s
    decreases |s|
  {
    if |s| >= 3 {
      assert s[0] in s;
      assert '`' !in s[1..];
      StripFencesNoBacktick(s[1..]);
      assert [s[0]] + s[1..] == s;
    }
  }

  /** The text the parser works on. */
  function Cleaned(text: string): string {
    Strip(StripFences(text))
  }

  // ------------------------------------------------------------ the scanner

  /** The scan's variables: bracket depth, inside a string literal, and
      right after a backslash inside one. */
  datatype ScanState = ScanState(depth: int, inStr: bool, esc: bool)

  const Fresh := ScanState(0, false, false)

  /** One character of the scan. Inside a string only the escape and the
      closing quote matter; outside, a quote opens a string and brackets
      move the depth. */
  function Step(st: ScanState, ch: char): ScanState {
    if st.inStr then
      if st.esc then st.(esc := false)
      else if ch == '\\' then st.(esc := true)
      else if ch == '"' then st.(inStr := false)
      else st
    else if ch == '"' then st.(inStr := true)
    else if ch == '[' then st.(depth := st.depth + 1)
    else if ch == ']' then st.(depth := st.depth - 1)
    else st
  }

  /** The character ends a candidate: a ']' outside any string literal that
      brings the depth back to 0. */
  predicate Closes(st: ScanState, ch: char) {
    !st.inStr && ch == ']' && st.depth == 1
  }

  /** The state after scanning `t` from `st`. */
  function RunFrom(st: ScanState, t: string): ScanState {
    if t == [] then st else Step(RunFrom(st, t[..|t| - 1]), t[|t| - 1])
  }

  /** The scan of one start: from position `i` in state `st`, the first
      candidate that decodes to an array gives its items; a candidate that
      does not decode at all ends this start (`break`); one that decodes to
      something else lets the scan go on. */
  function ScanFrom(s: string, start: nat, i: nat, st: ScanState, loads: string -> Option<Json>): Option<seq<Json>>
    requires start <= i <= |s|
    decreases |s| - i
  {
    if i == |s| then None
    else if Closes(st, s[i]) then
      var obj := loads(s[start..i + 1]);
      if obj.None? then None
      else if obj.value.JArr? then Some(obj.value.items)
      else ScanFrom(s, start, i + 1, Step(st, s[i]), loads)
    else ScanFrom(s, start, i + 1, Step(st, s[i]), loads)
  }

  /** The starts from `from` on: each '[' (`s.find("[", ...)`) in turn. */
  function TryFrom(s: string, from: nat, loads: string -> Option<Json>): Option<seq<Json>>
    requires from <= |s|
    decreases |s| - from
  {
    var start := FindFrom(s, "[", from);
    if start.None? then None
    else
      var found := ScanFrom(s, start.value, start.value, Fresh, loads);
      if found.Some? then found else TryFrom(s, start.value + 1, loads)
  }

  /** `parse_json_array`: `None` for an empty answer; the whole cleaned
      text when it decodes to an array; otherwise the first candidate found
      by the scan that decodes to one. */
  function ParseJsonArray(text: Option<string>, loads: string -> Option<Json>): (r: Option<seq<Json>>)
    ensures text.None? || text == Some([]) ==> r.None?
  {
    if text.None? || text.value == [] then None
    else
      var s := Cleaned(text.value);
      var whole := loads(s);
      if whole.Some? && whole.value.JArr? then Some(whole.value.items)
      else TryFrom(s, 0, loads)
  }

  // -------------------------------------------------------- the imperative scan

  /** The inner `for` loop of one start. */
  method ScanCandidate(s: string, start: nat, loads: string -> Option<Json>) returns (found: Option<seq<Json>>)
    requires start <= |s|
    ensures found == ScanFrom(s, start, start, Fresh, loads)
  {
    var depth := 0;
    var inStr := false;
    var esc := false;
    var i := start;
    while i < |s|
      invariant start <= i <= |s|
      invariant ScanFrom(s, start, i, ScanState(depth, inStr, esc), loads) == ScanFrom(s, start, start, Fresh, loads)
    {
      var ch := s[i];
      if inStr {
        if esc {
          esc := false;
        } else if ch == '\\' {
          esc := true;
        } else if ch == '"' {
          inStr := false;
        }
      } else {
        if ch == '"' {
          inStr := true;
        } else if ch == '[' {
          depth := depth + 1;
        } else if ch == ']' {
          depth := depth - 1;
          if depth == 0 {
            var obj := loads(s[start..i + 1]);
            if obj.None? {
              // the `break` out of this start's loop
              return None;
            }
            if obj.value.JArr? {
              return Some(obj.value.items);
            }
          }
        }
      }
      i := i + 1;
    }
    return None;
  }

  /** `parse_json_array` with its two loops. */
  method ParseJsonArrayScan(text: Option<string>, loads: string -> Option<Json>) returns (r: Option<seq<Json>>)
    ensures r == ParseJsonArray(text, loads)
  {
    if text.None? || text.value == [] {
      return None;
    }
    var s := Strip(StripFences(text.value));
    var whole := loads(s);
    if whole.Some? && whole.value.JArr? {
      return Some(whole.value.items);
    }
    ghost var from: nat := 0;
    var start := FindFrom(s, "[", 0);
    while start.Some?
      invariant from <= |s|
      invariant start == FindFrom(s, "[", from)
      invariant TryFrom(s, from, loads) == TryFrom(s, 0, loads)
      decreases |s| - from
    {
      var found := ScanCandidate(s, start.value, loads);
      if found.Some? {
        return found;
      }
      from := start.value + 1;
      start := FindFrom(s, "[", start.value + 1);
    }
    return None;
  }

  // ------------------------------------------------------------ properties

  /** A candidate the scan decodes: it starts at a '[' and ends at the ']'
      where the depth, counted outside string literals, comes back to 0
      for the first time since the start or again later. */
  predicate Candidate(s: string, start: nat, j: nat) {
    start <= j < |s| && s[start] == '[' && Closes(RunFrom(Fresh, s[start..j]), s[j])
  }

  lemma RunFromStep(s: string, start: nat, i: nat)
    requires start <= i < |s|
    ensures RunFrom(Fresh, s[start..i + 1]) == Step(RunFrom(Fresh, s[start..i]), s[i])
  {
    assert s[start..i + 1][..i - start] == s[start..i];
  }

  /** What a scan of one start returns is the decoded array of a candidate
      at or after the position it has reached. */
  lemma {:induction false} ScanFromFound(s: string, start: nat, i: nat, loads: string -> Option<Json>, items: seq<Json>)
    requires start <= i <= |s| && start < |s| && s[start] == '['
    requires ScanFrom(s, start, i, RunFrom(Fresh, s[start..i]), loads) == Some(items)
    ensures exists j | i <= j < |s| :: Candidate(s, start, j) && loads(s[start..j + 1]) == Some(JArr(items))
    decreases |s| - i
  {
    var st := RunFrom(Fresh, s[start..i]);
    if i < |s| {
      RunFromStep(s, start, i);
      if Closes(st, s[i]) && loads(s[start..i + 1]) == Some(JArr(items)) {
        assert Candidate(s, start, i);
      } else {
        ScanFromFound(s, start, i + 1, loads, items);
      }
    }
  }

  /** What the starts from `from` on return is the decoded array of a
      candidate whose start is a '[' at or after `from`. */
  lemma {:induction false} TryFromFound(s: string, from: nat, loads: string -> Option<Json>, items: seq<Json>)
    requires from <= |s| && TryFrom(s, from, loads) == Some(items)
    ensures exists start, j | from <= start <= j < |s| :: Candidate(s, start, j) && loads(s[start..j + 1]) == Some(JArr(items))
    decreases |s| - from
  {
    var start := FindFrom(s, "[", from);
    var b := start.value;
    assert s[b..b + 1] == "[";
    assert s[b] == '[';
    if ScanFrom(s, b, b, Fresh, loads).Some? {
      assert s[b..b] == [];
      ScanFromFound(s, b, b, loads, items);
    } else {
      TryFromFound(s, b + 1, loads, items);
    }
  }

  /** An array that `parse_json_array` returns is what `json.loads` made of
      the whole cleaned text or of a candidate of it. */
  lemma ParseJsonArrayFound(text: Option<string>, loads: string -> Option<Json>, items: seq<Json>)
    requires ParseJsonArray(text, loads) == Some(items)
    ensures text.Some? && text.value != []
    ensures loads(Cleaned(text.value)) == Some(JArr(items))
      || exists start, j | 0 <= start <= j < |Cleaned(text.value)| ::
           Candidate(Cleaned(text.value), start, j) && loads(Cleaned(text.value)[start..j + 1]) == Some(JArr(items))
  {
    var s := Cleaned(text.value);
    if !(loads(s).Some? && loads(s).value.JArr?) {
      TryFromFound(s, 0, loads, items);
    }
  }

  lemma {:induction false} RunFromAppend(st: ScanState, a: string, b: string)
    ensures RunFrom(st, a + b) == RunFrom(RunFrom(st, a), b)
  {
    if b == [] {
      assert a + b == a;
    } else {
      var b' := b[..|b| - 1];
      RunFromAppend(st, a, b');
      assert (a + b)[..|a + b| - 1] == a + b';
      assert (a + b)[|a + b| - 1] == b[|b| - 1];
    }
  }

  /** Inside a string literal, characters other than the backslash and the
      quote change nothing, brackets included. */
  lemma {:induction false} StringBodyIgnored(st: ScanState, t: string)
    requires st.inStr && !st.esc
    requires forall k | 0 <= k < |t| :: t[k] != '"' && t[k] != '\\'
    ensures RunFrom(st, t) == st
  {
    if t != [] {
      StringBodyIgnored(st, t[..|t| - 1]);
    }
  }

  /** An escaped character inside a string literal, a quote included,
      neither ends the string nor counts as a bracket. */
  lemma EscapeSkipsNext(st: ScanState, ch: char)
    requires st.inStr && !st.esc
    ensures RunFrom(st, ['\\', ch]) == st
  {
    var t := ['\\', ch];
    assert t[..1] == ['\\'] && t[..1][..0] == [];
    assert RunFrom(st, t[..1]) == Step(st, '\\');
    assert RunFrom(st, t) == Step(Step(st, '\\'), ch);
  }

  /** A complete string literal outside any other, whatever brackets it
      holds, leaves the depth as it was. */
  lemma StringLiteralIgnored(st: ScanState, t: string)
    requires !st.inStr && !st.esc
    requires forall k | 0 <= k < |t| :: t[k] != '"' && t[k] != '\\'
    ensures RunFrom(st, ['"'] + t + ['"']) == st
  {
    var inside := Step(st, '"');
    assert RunFrom(st, ['"']) == inside by {
      assert ['"'][..0] == [];
    }
    RunFromAppend(st, ['"'], t);
    StringBodyIgnored(inside, t);
    RunFromAppend(st, ['"'] + t, ['"']);
    assert ['"'][..0] == [];
  }
}
