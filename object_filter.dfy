/** The object filter: the ids of the given results whose keyframe shows
    every selected object, asked of the `object` index. The index search is
    a parameter that may raise. */
module ObjectFilter {
  import opened Wrappers

  /** The index search for `ids` restricted to documents holding every
      selected object: the ids of its hits, in the index's hit order. */
  type IndexSearch = (seq<string>, seq<string>) -> Result<seq<string>, Raised>

  /** `ObjectFilterSearch.filter(ids, selected_objects)`. */
  function Filter(ids: seq<string>, selected: seq<string>, search: IndexSearch): seq<string> {
    if selected == [] then ids
    else if ids == [] then ids
    else match search(ids, selected)
      case Success(hits) => hits
      case Failure(_) => ids
  }

  /** No objects, no ids, or a failing search pass the ids through. */
  lemma FilterPassThrough(ids: seq<string>, selected: seq<string>, search: IndexSearch)
    requires selected == [] || ids == [] || search(ids, selected).Failure?
    ensures Filter(ids, selected, search) == ids
  {
  }

  /** Since the search is restricted to the given ids, the filter never
      invents an id: its output is among its input. */
  lemma FilterSubset(ids: seq<string>, selected: seq<string>, search: IndexSearch)
    requires search(ids, selected).Success? ==> forall x | x in search(ids, selected).value :: x in ids
    ensures forall x | x in Filter(ids, selected, search) :: x in ids
  {
  }
}
