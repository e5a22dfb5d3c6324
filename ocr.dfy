/** The batch OCR script's bookkeeping: integer-like ids, the id-range filter
    over the index's (id, path) pairs, batching, the key file and its line
    range, and the rule that decides which items of a model response are
    written. Paths are an opaque type parameter `P`; the image files, the
    model and the output files are left out. */
module Ocr {
  import opened Wrappers
  import opened Text
  import opened Json
  import opened Lists

  // ------------------------------------------------------------ _parse_int_like

  /** The characters `re.sub(r"[_\s]", "", ...)` deletes. */
  predicate Ignorable(c: char) {
    c == '_' || IsSpace(c)
  }

  /** `_parse_int_like`: every underscore and whitespace character is
      deleted, then the rest is read as a Python `int`; `None` when that fails. */
  function ParseIntLike(x: string): Option<int> {
    PyInt(Strip(RemoveWhere(x, Ignorable)))
  }

  /** The same rule applied to a decoded JSON value, through `str(x)`;
      `repr` stands for Python's text of the values that are not scalars. */
  function ParseIntLikeValue(v: Json, repr: Json -> string): Option<int> {
    ParseIntLike(PyStr(v, repr))
  }

  lemma {:induction false} RemoveWhereAppend(a: string, b: string, drop: char -> bool)
    ensures RemoveWhere(a + b, drop) == RemoveWhere(a, drop) + RemoveWhere(b, drop)
  {
    if a != [] {
      var head: string := if drop(a[0]) then [] else [a[0]];
      assert (a + b)[0] == a[0] && (a + b)[1..] == a[1..] + b;
      assert RemoveWhere(a + b, drop) == head + RemoveWhere(a[1..] + b, drop);
      RemoveWhereAppend(a[1..], b, drop);
      assert RemoveWhere(a, drop) == head + RemoveWhere(a[1..], drop);
    } else {
      assert a + b == b;
    }
  }

  lemma RemoveOneDropped(a: string, c: char, b: string, drop: char -> bool)
    requires drop(c)
    ensures RemoveWhere(a + [c] + b, drop) == RemoveWhere(a + b, drop)
  {
    var ac := a + [c];
    RemoveWhereAppend(ac, b, drop);
    RemoveWhereAppend(a, [c], drop);
    RemoveWhereAppend(a, b, drop);
    assert [c][1..] == [];
    assert RemoveWhere([c], drop) == [] + RemoveWhere([], drop);
    assert RemoveWhere(ac, drop) == RemoveWhere(a, drop);
  }

  /** Underscores and blanks anywhere in the text make no difference: one
      more of them, at any position, gives the same result. */
  lemma IgnorableAnywhere(a: string, c: char, b: string)
    requires Ignorable(c)
    ensures ParseIntLike(a + [c] + b) == ParseIntLike(a + b)
  {
    RemoveOneDropped(a, c, b, Ignorable);
  }

  /** The characters of `str(v)` for an int are digits and a leading '-'. */
  lemma IntToStrChars(v: int)
    ensures forall k | 0 <= k < |IntToStr(v)| :: IsDigit(IntToStr(v)[k]) || (k == 0 && IntToStr(v)[k] == '-')
  {
    if v < 0 {
      var d := NatDigits(-v);
      assert IntToStr(v) == "-" + d;
      forall k | 1 <= k < |IntToStr(v)| ensures IsDigit(IntToStr(v)[k]) {
        assert IntToStr(v)[k] == d[k - 1];
      }
    }
  }

  /** The id `str(v)` that the filter writes reads back as `v`. */
  lemma ParseIntLikeOfIntToStr(v: int)
    ensures ParseIntLike(IntToStr(v)) == Some(v)
  {
    var s := IntToStr(v);
    IntToStrChars(v);
    forall k | 0 <= k < |s| ensures !Ignorable(s[k]) {
      NotSpace(s[k]);
    }
    assert RemoveWhere(s, Ignorable) == s;
    NotSpace(s[0]);
    NotSpace(s[|s| - 1]);
    StripOfPlain(s);
    PyIntOfIntToStr(v);
  }

  // ------------------------------------------------------ filter_pairs_by_id_range

  /** The two exits of `filter_pairs_by_id_range`. */
  datatype RangeError = StartIndexNegative | EndIndexBeforeStart

  /** The id parses to a value in `start..end` (both inclusive). */
  predicate IdInRange(id: string, start: int, end: int) {
    ParseIntLike(id).Some? && start <= ParseIntLike(id).value <= end
  }

  /** What one pair contributes: itself with the id rewritten as `str(v)`
      when its id parses to `v` in range, nothing otherwise. */
  function KeepInRange<P>(start: int, end: int, pair: (string, P)): seq<(string, P)> {
    if IdInRange(pair.0, start, end) then [(IntToStr(ParseIntLike(pair.0).value), pair.1)] else []
  }

  function InRangeRule<P>(start: int, end: int): ((string, P)) -> seq<(string, P)> {
    pair => KeepInRange(start, end, pair)
  }

  /** The pairs the filter keeps, in index order. */
  function InRange<P>(pairs: seq<(string, P)>, start: int, end: int): seq<(string, P)> {
    Collect(pairs, InRangeRule(start, end))
  }

  /** What one pair adds to the count of non-numeric ids. */
  function NonNumericOf<P>(pair: (string, P)): seq<string> {
    if ParseIntLike(pair.0).None? then [pair.0] else []
  }

  lemma InRangeStep<P>(pairs: seq<(string, P)>, start: int, end: int, i: nat)
    requires i < |pairs|
    ensures InRange(pairs[..i + 1], start, end) == InRange(pairs[..i], start, end) + KeepInRange(start, end, pairs[i])
  {
    CollectStep(pairs, InRangeRule(start, end), i);
  }

  /** The ids that do not parse, in index order. */
  function NonNumeric<P>(pairs: seq<(string, P)>): seq<string> {
    Collect(pairs, NonNumericOf)
  }

  lemma NonNumericStep<P>(pairs: seq<(string, P)>, i: nat)
    requires i < |pairs|
    ensures NonNumeric(pairs[..i + 1]) == NonNumeric(pairs[..i]) + NonNumericOf(pairs[i])
  {
    CollectStep(pairs, NonNumericOf, i);
  }

  /** `filter_pairs_by_id_range`: both bounds are checked first; then the
      pairs whose id parses to a value in `start..end` are kept, in order,
      each with its id rewritten as `str(v)`, and the ids that do not parse
      are counted. */
  method FilterPairsByIdRange<P>(pairs: seq<(string, P)>, start: int, end: int)
    returns (r: Result<seq<(string, P)>, RangeError>, skipped: nat)
    ensures start < 0 ==> r == Failure(StartIndexNegative)
    ensures 0 <= start && end < start ==> r == Failure(EndIndexBeforeStart)
    ensures 0 <= start <= end ==> r == Success(InRange(pairs, start, end)) && skipped == |NonNumeric(pairs)|
  {
    if start < 0 {
      return Failure(StartIndexNegative), 0;
    }
    if end < start {
      return Failure(EndIndexBeforeStart), 0;
    }
    var out: seq<(string, P)> := [];
    skipped := 0;
    ghost var bad: seq<string> := [];
    var i := 0;
    while i < |pairs|
      invariant 0 <= i <= |pairs|
      invariant out == InRange(pairs[..i], start, end)
      invariant bad == NonNumeric(pairs[..i]) && skipped == |bad|
    {
      var (sid, p) := pairs[i];
      InRangeStep(pairs, start, end, i);
      NonNumericStep(pairs, i);
      var v := ParseIntLike(sid);
      if v.None? {
        skipped := skipped + 1;
        bad := bad + [sid];
        i := i + 1;
        continue;
      }
      if start <= v.value <= end {
        out := out + [(IntToStr(v.value), p)];
      }
      i := i + 1;
    }
    assert pairs[..i] == pairs;
    return Success(out), skipped;
  }

  /** A kept pair is an index pair whose id parses to a value in range,
      with that value as its id and the path unchanged, and every such
      index pair is kept. */
  lemma InRangeMembers<P>(pairs: seq<(string, P)>, start: int, end: int, id: string, path: P)
    ensures (id, path) in InRange(pairs, start, end) <==>
      exists i | 0 <= i < |pairs| :: IdInRange(pairs[i].0, start, end)
        && id == IntToStr(ParseIntLike(pairs[i].0).value) && path == pairs[i].1
  {
    var f := InRangeRule<P>(start, end);
    CollectMembers(pairs, f, (id, path));
    if (id, path) in InRange(pairs, start, end) {
      var i :| 0 <= i < |pairs| && (id, path) in f(pairs[i]);
      assert IdInRange(pairs[i].0, start, end);
    }
    if exists i | 0 <= i < |pairs| :: IdInRange(pairs[i].0, start, end)
        && id == IntToStr(ParseIntLike(pairs[i].0).value) && path == pairs[i].1 {
      var i :| 0 <= i < |pairs| && IdInRange(pairs[i].0, start, end)
        && id == IntToStr(ParseIntLike(pairs[i].0).value) && path == pairs[i].1;
      assert (id, path) in f(pairs[i]);
    }
  }

  /** `str(v)` of a value in range is a canonical id in range. */
  lemma CanonicalInRange(v: int, start: int, end: int)
    requires start <= v <= end
    ensures IdInRange(IntToStr(v), start, end) && IntToStr(v) == IntToStr(ParseIntLike(IntToStr(v)).value)
  {
    ParseIntLikeOfIntToStr(v);
  }

  /** Every id the filter writes is in canonical form and reads back as a
      value in range. */
  lemma {:induction false} InRangeReparses<P>(pairs: seq<(string, P)>, start: int, end: int)
    ensures forall k | 0 <= k < |InRange(pairs, start, end)| ::
      IdInRange(InRange(pairs, start, end)[k].0, start, end)
      && InRange(pairs, start, end)[k].0 == IntToStr(ParseIntLike(InRange(pairs, start, end)[k].0).value)
  {
    if pairs != [] {
      var init := pairs[..|pairs| - 1];
      var last := pairs[|pairs| - 1];
      InRangeReparses(init, start, end);
      var out := InRange(pairs, start, end);
      var a, b := InRange(init, start, end), KeepInRange(start, end, last);
      assert out == a + b;
      if IdInRange(last.0, start, end) {
        CanonicalInRange(ParseIntLike(last.0).value, start, end);
      } else {
        assert b == [];
      }
      forall k | 0 <= k < |out|
        ensures IdInRange(out[k].0, start, end) && out[k].0 == IntToStr(ParseIntLike(out[k].0).value)
      {
        if k < |a| {
          assert out[k] == a[k];
        } else {
          assert out[k] == b[k - |a|];
        }
      }
    }
  }

  /** The filter keeps index order: filtering two pieces gives the kept
      pairs of the first followed by those of the second. */
  lemma InRangeAppend<P>(a: seq<(string, P)>, b: seq<(string, P)>, start: int, end: int)
    ensures InRange(a + b, start, end) == InRange(a, start, end) + InRange(b, start, end)
  {
    CollectAppend(a, b, InRangeRule(start, end));
  }

  /** Each pair is kept, counted as non-numeric, or out of range, and never
      two of these: the kept and the skipped add up to at most the index. */
  lemma {:induction false} InRangeCount<P>(pairs: seq<(string, P)>, start: int, end: int)
    ensures |InRange(pairs, start, end)| + |NonNumeric(pairs)| <= |pairs|
    ensures (forall i | 0 <= i < |pairs| :: ParseIntLike(pairs[i].0).Some? ==> IdInRange(pairs[i].0, start, end))
      ==> |InRange(pairs, start, end)| + |NonNumeric(pairs)| == |pairs|
  {
    if pairs != [] {
      var init := pairs[..|pairs| - 1];
      var last := pairs[|pairs| - 1];
      InRangeCount(init, start, end);
      assert InRange(pairs, start, end) == InRange(init, start, end) + KeepInRange(start, end, last);
      assert NonNumeric(pairs) == NonNumeric(init) + NonNumericOf(last);
      if forall i | 0 <= i < |pairs| :: ParseIntLike(pairs[i].0).Some? ==> IdInRange(pairs[i].0, start, end) {
        forall i | 0 <= i < |init| ensures ParseIntLike(init[i].0).Some? ==> IdInRange(init[i].0, start, end) {
          assert init[i] == pairs[i];
        }
      }
    }
  }

  // ------------------------------------------------------------------ chunked

  /** `range(0, len(xs), 0)` raises `ValueError`. */
  datatype ChunkError = ZeroStep

  /** `chunked(xs, n)`: consecutive slices of `n` items; a step of 0 raises,
      and a negative step gives no batch at all. */
  function Chunked<T>(xs: seq<T>, n: int): (r: Result<seq<seq<T>>, ChunkError>)
    ensures r.Failure? <==> n == 0
    ensures n < 0 ==> r == Success([])
    ensures n > 0 ==> r.Success? && Flatten(r.value) == xs
    ensures n > 0 ==> forall j | 0 <= j < |r.value| :: 0 < |r.value[j]| <= n
    ensures n > 0 ==> forall j | 0 <= j < |r.value| - 1 :: |r.value[j]| == n
  {
    if n == 0 then Failure(ZeroStep)
    else if n < 0 then Success([])
    else
      ChunksCover(xs, 0, n);
      assert xs[0..] == xs;
      Success(ChunksFrom(xs, 0, n))
  }

  // ------------------------------------------------------- read_key_lines and slice

  /** The two exits of `read_key_lines`. */
  datatype KeyFileError = KeyFileNotFound | NoApiKeys

  /** `read_key_lines`, with the file given as its lines (`None` when it does
      not exist): trimmed lines, blank and '#' lines skipped, order and
      duplicates kept; no key at all is an error. */
  method ReadKeyLines(file: Option<seq<string>>) returns (r: Result<seq<string>, KeyFileError>)
    ensures file.None? ==> r == Failure(KeyFileNotFound)
    ensures file.Some? && ContentLines(file.value) == [] ==> r == Failure(NoApiKeys)
    ensures file.Some? && ContentLines(file.value) != [] ==> r == Success(ContentLines(file.value))
  {
    if file.None? {
      return Failure(KeyFileNotFound);
    }
    var raws := file.value;
    var lines: seq<string> := [];
    var i := 0;
    while i < |raws|
      invariant 0 <= i <= |raws|
      invariant lines == ContentLines(raws[..i])
    {
      ContentLinesStep(raws, i);
      var s := Strip(raws[i]);
      i := i + 1;
      if s == [] || s[0] == '#' {
        continue;
      }
      lines := lines + [s];
    }
    assert raws[..i] == raws;
    if lines == [] {
      return Failure(NoApiKeys);
    }
    return Success(lines);
  }

  /** The exits of `slice_keys_by_range`. Its last one, an empty slice, cannot
      happen once the first three have passed, so the model has no case for it. */
  datatype SliceError = StartApiBelowOne | EndApiBeforeStart | StartApiPastEnd(total: nat)

  /** `slice_keys_by_range`: the keys on lines `startLine..endLine` (1-based,
      inclusive), the end capped at the number of keys. */
  function SliceKeysByRange(keys: seq<string>, startLine: int, endLine: int): (r: Result<seq<string>, SliceError>)
    ensures r.Success? <==> 1 <= startLine <= endLine && startLine <= |keys|
    ensures startLine < 1 ==> r == Failure(StartApiBelowOne)
    ensures 1 <= startLine && endLine < startLine ==> r == Failure(EndApiBeforeStart)
    ensures 1 <= startLine <= endLine && |keys| < startLine ==> r == Failure(StartApiPastEnd(|keys|))
    ensures r.Success? ==> 0 < |r.value| == (if endLine < |keys| then endLine else |keys|) - startLine + 1
    ensures r.Success? ==> forall k | 0 <= k < |r.value| :: r.value[k] == keys[startLine - 1 + k]
  {
    if startLine < 1 then Failure(StartApiBelowOne)
    else if endLine < startLine then Failure(EndApiBeforeStart)
    else if startLine > |keys| then Failure(StartApiPastEnd(|keys|))
    else
      var end := if endLine < |keys| then endLine else |keys|;
      Success(keys[startLine - 1..end])
  }

  // ------------------------------------------------------- per-item validation

  /** A line of the output file: `{"id": v, "ocr": text}`. */
  datatype Row = Row(id: int, ocr: string)

  /** What happens to one item of a response: it is written, or it is bad,
      and then its expected id is logged when that id is int-like. */
  datatype ItemOutcome = Written(row: Row) | Bad(expected: Option<int>)

  /** `isinstance(ocr, (str, int, float))`; a `bool` is an `int` in Python. */
  predicate IsScalar(v: Json) {
    v.JStr? || v.JInt? || v.JFloat? || v.JBool?
  }

  /** The checks of the loop over `zip(batch, results)`, for one item: it
      must be an object with "id" and "ocr", the id must be int-like and the
      text a scalar, which is then written through `str`. The written id is
      the one in the item; it is not compared with the expected one. */
  function CheckItem(expectedSid: string, item: Json, repr: Json -> string): (o: ItemOutcome)
    ensures o.Bad? ==> o.expected == ParseIntLike(expectedSid)
    ensures o.Written? <==> (item.JObj? && Lookup(item.fields, "id").Some? && Lookup(item.fields, "ocr").Some?
      && ParseIntLikeValue(Lookup(item.fields, "id").value, repr).Some? && IsScalar(Lookup(item.fields, "ocr").value))
    ensures o.Written? ==> (Some(o.row.id) == ParseIntLikeValue(Lookup(item.fields, "id").value, repr)
      && o.row.ocr == PyStr(Lookup(item.fields, "ocr").value, repr))
    ensures o.Written? && Lookup(item.fields, "ocr").value.JStr? ==> o.row.ocr == Lookup(item.fields, "ocr").value.s
  {
    var bad := Bad(ParseIntLike(expectedSid));
    if !item.JObj? then bad
    else
      var id := Lookup(item.fields, "id");
      var ocr := Lookup(item.fields, "ocr");
      if id.None? || ocr.None? then bad
      else
        var v := ParseIntLikeValue(id.value, repr);
        if v.None? then bad
        else if !IsScalar(ocr.value) then bad
        else Written(Row(v.value, PyStr(ocr.value, repr)))
  }

  /** The outcome of every item, paired with the batch entry at the same position. */
  function Outcomes<P>(batch: seq<(string, P)>, results: seq<Json>, repr: Json -> string): (os: seq<ItemOutcome>)
    requires |results| == |batch|
    ensures |os| == |batch| && forall k | 0 <= k < |os| :: os[k] == CheckItem(batch[k].0, results[k], repr)
  {
    seq(|batch|, k requires 0 <= k < |batch| => CheckItem(batch[k].0, results[k], repr))
  }

  function WrittenRow(o: ItemOutcome): seq<Row> {
    if o.Written? then [o.row] else []
  }

  function LoggedId(o: ItemOutcome): seq<int> {
    if o.Bad? && o.expected.Some? then [o.expected.value] else []
  }

  /** The rows written and the ids logged as bad, in batch order. */
  function Rows(os: seq<ItemOutcome>): seq<Row> {
    Collect(os, WrittenRow)
  }

  function BadIds(os: seq<ItemOutcome>): seq<int> {
    Collect(os, LoggedId)
  }

  /** The `ValueError` raised for a response that is not an array of the batch's length. */
  datatype BatchError = InvalidArray

  /** The body of one attempt after the model has answered: the response is
      accepted only as an array of exactly the batch's length, and then each
      item is written or its expected id is logged as bad. */
  method ValidateBatch<P>(batch: seq<(string, P)>, results: Option<seq<Json>>, repr: Json -> string)
    returns (r: Result<(seq<Row>, seq<int>), BatchError>)
    ensures r.Failure? <==> results.None? || |results.value| != |batch|
    ensures r.Success? ==> (r.value.0 == Rows(Outcomes(batch, results.value, repr))
      && r.value.1 == BadIds(Outcomes(batch, results.value, repr)))
  {
    if results.None? || |results.value| != |batch| {
      return Failure(InvalidArray);
    }
    var items := results.value;
    ghost var os := Outcomes(batch, items, repr);
    var rows: seq<Row> := [];
    var badIds: seq<int> := [];
    var k := 0;
    while k < |batch|
      invariant 0 <= k <= |batch|
      invariant rows == Rows(os[..k]) && badIds == BadIds(os[..k])
    {
      CollectStep(os, WrittenRow, k);
      CollectStep(os, LoggedId, k);
      var expected := ParseIntLike(batch[k].0);
      var item := items[k];
      k := k + 1;
      if !item.JObj? {
        if expected.Some? { badIds := badIds + [expected.value]; }
        continue;
      }
      var id := Lookup(item.fields, "id");
      var ocr := Lookup(item.fields, "ocr");
      if id.None? || ocr.None? {
        if expected.Some? { badIds := badIds + [expected.value]; }
        continue;
      }
      var v := ParseIntLikeValue(id.value, repr);
      if v.None? {
        if expected.Some? { badIds := badIds + [expected.value]; }
        continue;
      }
      if !IsScalar(ocr.value) {
        if expected.Some? { badIds := badIds + [expected.value]; }
        continue;
      }
      rows := rows + [Row(v.value, PyStr(ocr.value, repr))];
    }
    assert os[..k] == os;
    return Success((rows, badIds));
  }

  /** Every item is written or logged at most once: rows and bad ids add up
      to at most the batch, and to exactly the batch when every expected id
      is int-like. */
  lemma {:induction false} OutcomesCount(os: seq<ItemOutcome>)
    ensures |Rows(os)| + |BadIds(os)| <= |os|
    ensures (forall k | 0 <= k < |os| :: os[k].Bad? ==> os[k].expected.Some?) ==> |Rows(os)| + |BadIds(os)| == |os|
  {
    if os != [] {
      var init := os[..|os| - 1];
      OutcomesCount(init);
      assert Rows(os) == Rows(init) + WrittenRow(os[|os| - 1]);
      assert BadIds(os) == BadIds(init) + LoggedId(os[|os| - 1]);
      if forall k | 0 <= k < |os| :: os[k].Bad? ==> os[k].expected.Some? {
        forall k | 0 <= k < |init| ensures init[k].Bad? ==> init[k].expected.Some? {
          assert init[k] == os[k];
        }
      }
    }
  }

  /** A written row is the row of an item that passed every check (with
      `Outcomes`, the item at that position of the response), and every such
      item gives one. */
  lemma RowsMembers(os: seq<ItemOutcome>, row: Row)
    ensures row in Rows(os) <==> exists k | 0 <= k < |os| :: os[k] == Written(row)
  {
    CollectMembers(os, WrittenRow, row);
    if row in Rows(os) {
      var k :| 0 <= k < |os| && row in WrittenRow(os[k]);
      assert os[k] == Written(row);
    }
    if exists k | 0 <= k < |os| :: os[k] == Written(row) {
      var k :| 0 <= k < |os| && os[k] == Written(row);
      assert row in WrittenRow(os[k]);
    }
  }

  /** A logged id is the int-like expected id of an item that failed a
      check, and every such item has its id logged. */
  lemma BadIdsMembers(os: seq<ItemOutcome>, bad: int)
    ensures bad in BadIds(os) <==> exists k | 0 <= k < |os| :: os[k] == Bad(Some(bad))
  {
    CollectMembers(os, LoggedId, bad);
    if bad in BadIds(os) {
      var k :| 0 <= k < |os| && bad in LoggedId(os[k]);
      assert os[k] == Bad(Some(bad));
    }
    if exists k | 0 <= k < |os| :: os[k] == Bad(Some(bad)) {
      var k :| 0 <= k < |os| && os[k] == Bad(Some(bad));
      assert bad in LoggedId(os[k]);
    }
  }
}
