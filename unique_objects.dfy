/** The object vocabulary of an `OBJECT.json` file: every object name that
    occurs in some frame's list, trimmed, once each, in sorted order. The
    file is given as its decoded contents, a sequence of (frame id, value)
    pairs in file order. */
module UniqueObjects {
  import opened Text
  import opened Json
  import opened Lists

  /** What one list element contributes: its trimmed text, when it is a
      non-blank string, and nothing otherwise. */
  function ElemObject(e: Json): (r: seq<string>)
    ensures forall x :: x in r <==> x != [] && Names(e, x)
  {
    if e.JStr? && Strip(e.s) != [] then [Strip(e.s)] else []
  }

  /** The element is a string whose trimmed text is `x`. */
  predicate Names(e: Json, x: string) {
    e.JStr? && Strip(e.s) == x
  }

  /** The contributions of a list's elements, in order. */
  function ListObjects(items: seq<Json>): seq<string> {
    if items == [] then [] else ListObjects(items[..|items| - 1]) + ElemObject(items[|items| - 1])
  }

  /** What one value contributes: its elements when it is a list, nothing otherwise. */
  function ValueObjects(v: Json): seq<string> {
    if v.JArr? then ListObjects(v.items) else []
  }

  /** Every contribution of every value, in file order. */
  function AllObjects(data: seq<(string, Json)>): seq<string> {
    if data == [] then [] else AllObjects(data[..|data| - 1]) + ValueObjects(data[|data| - 1].1)
  }

  /** A list contributes exactly the trimmed texts of its non-blank string elements. */
  lemma {:induction false} ListObjectsMembers(items: seq<Json>, x: string)
    ensures x in ListObjects(items) <==> x != [] && exists j | 0 <= j < |items| :: Names(items[j], x)
  {
    if items != [] {
      var init := items[..|items| - 1];
      ListObjectsMembers(init, x);
      assert ListObjects(items) == ListObjects(init) + ElemObject(items[|items| - 1]);
      if x != [] && exists j | 0 <= j < |items| :: Names(items[j], x) {
        var j :| 0 <= j < |items| && Names(items[j], x);
        if j < |items| - 1 {
          assert init[j] == items[j];
        }
      }
      if x in ListObjects(init) {
        var j :| 0 <= j < |init| && Names(init[j], x);
        assert items[j] == init[j];
      }
    }
  }

  /** The contributions are those of some value of the file. */
  lemma {:induction false} AllObjectsMembers(data: seq<(string, Json)>, x: string)
    ensures x in AllObjects(data) <==> exists i | 0 <= i < |data| :: x in ValueObjects(data[i].1)
  {
    if data != [] {
      var init := data[..|data| - 1];
      AllObjectsMembers(init, x);
      var last := ValueObjects(data[|data| - 1].1);
      assert AllObjects(data) == AllObjects(init) + last;
      assert x in AllObjects(data) <==> x in AllObjects(init) || x in last;
      if exists i | 0 <= i < |data| :: x in ValueObjects(data[i].1) {
        var i :| 0 <= i < |data| && x in ValueObjects(data[i].1);
        if i < |data| - 1 {
          assert init[i] == data[i];
        }
      }
      if x in AllObjects(init) {
        var i :| 0 <= i < |init| && x in ValueObjects(init[i].1);
        assert data[i] == init[i];
      }
    }
  }

  /** An object name of the file: the trimmed text of a non-blank string
      element of a list value; other values and other elements are ignored. */
  predicate IsObjectOf(data: seq<(string, Json)>, x: string) {
    exists i | 0 <= i < |data| :: data[i].1.JArr? && x in ListObjects(data[i].1.items)
  }

  lemma ObjectsAreNames(data: seq<(string, Json)>, x: string)
    ensures x in AllObjects(data) <==> IsObjectOf(data, x)
    ensures x in AllObjects(data) ==> x != [] && Strip(x) == x
  {
    AllObjectsMembers(data, x);
    if x in AllObjects(data) {
      var i :| 0 <= i < |data| && x in ValueObjects(data[i].1);
      ListObjectsMembers(data[i].1.items, x);
      var j :| 0 <= j < |data[i].1.items| && Names(data[i].1.items[j], x);
      StripIdempotent(data[i].1.items[j].s);
    }
  }

  lemma ListObjectsStep(items: seq<Json>, j: nat)
    requires j < |items|
    ensures ListObjects(items[..j + 1]) == ListObjects(items[..j]) + ElemObject(items[j])
  {
    assert items[..j + 1][..j] == items[..j];
  }

  lemma AllObjectsStep(data: seq<(string, Json)>, i: nat)
    requires i < |data|
    ensures AllObjects(data[..i + 1]) == AllObjects(data[..i]) + ValueObjects(data[i].1)
  {
    assert data[..i + 1][..i] == data[..i];
  }

  /** `sorted(s)` of a set of strings: its elements in increasing order. */
  method SortedSet(s: set<string>) returns (r: seq<string>)
    ensures StrictlySortedStrs(r)
    ensures forall x :: x in r <==> x in s
  {
    var rest := s;
    var listed: seq<string> := [];
    while rest != {}
      invariant Distinct(listed)
      invariant forall x :: x in s <==> x in listed || x in rest
      invariant forall x | x in listed :: x !in rest
      decreases |rest|
    {
      var x :| x in rest;
      listed := listed + [x];
      rest := rest - {x};
    }
    SortStrsDistinct(listed);
    r := SortStrs(listed);
  }

  /** `load_unique_objects`: the distinct object names of the file, sorted. */
  method LoadUniqueObjects(data: seq<(string, Json)>) returns (r: seq<string>)
    ensures StrictlySortedStrs(r)
    ensures forall x :: x in r <==> x in AllObjects(data)
    ensures forall x :: x in r <==> IsObjectOf(data, x)
    ensures forall x | x in r :: x != [] && Strip(x) == x
  {
    var all: set<string> := {};
    ghost var seen: seq<string> := [];
    var i := 0;
    while i < |data|
      invariant 0 <= i <= |data|
      invariant seen == AllObjects(data[..i])
      invariant forall x :: x in all <==> x in seen
    {
      var value := data[i].1;
      ghost var fromValue: seq<string> := [];
      if value.JArr? {
        var j := 0;
        while j < |value.items|
          invariant 0 <= j <= |value.items|
          invariant fromValue == ListObjects(value.items[..j])
          invariant forall x :: x in all <==> x in seen || x in fromValue
        {
          var obj := value.items[j];
          ListObjectsStep(value.items, j);
          if obj.JStr? && Strip(obj.s) != [] {
            all := all + {Strip(obj.s)};
          }
          fromValue := fromValue + ElemObject(obj);
          j := j + 1;
        }
        assert value.items[..j] == value.items;
      }
      AllObjectsStep(data, i);
      seen := seen + fromValue;
      i := i + 1;
    }
    assert data[..i] == data;
    r := SortedSet(all);
    forall x ensures x in AllObjects(data) <==> IsObjectOf(data, x) {
      ObjectsAreNames(data, x);
    }
    forall x | x in r ensures x != [] && Strip(x) == x {
      ObjectsAreNames(data, x);
    }
  }
}
