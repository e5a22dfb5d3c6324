/** The vector store client's translation of a front-end filter dict into a
    store filter. Building the store's filter object is a parameter (`build`)
    that may reject the dict. */
module Qdrant {
  import opened Wrappers
  import opened Json

  type FilterDict = map<string, Json>

  /** The keys only the text index understands. */
  const TextOnlyKeys: set<string> := {"objectFilter", "selectedObjects"}

  /** The keys that mark a dict as already in the store's own format. */
  const StoreKeys: set<string> := {"must", "should", "must_not"}

  /** The store's filter object, built from a dict. */
  datatype StoreFilter = StoreFilter(conditions: FilterDict)

  predicate HasStoreKey(d: FilterDict) {
    exists k | k in StoreKeys :: k in d
  }

  /** The dict without the text-index keys. */
  function WithoutTextKeys(d: FilterDict): (r: FilterDict)
    ensures forall k :: k in r <==> k in d && k !in TextOnlyKeys
    ensures forall k | k in r :: r[k] == d[k]
  {
    map k | k in d && k !in TextOnlyKeys :: d[k]
  }

  /** `_convert_filter(filter_dict)`. */
  function ConvertFilter(f: Option<FilterDict>, build: FilterDict -> Result<StoreFilter, Raised>)
    : Option<StoreFilter>
  {
    if f.None? || f.value == map[] then None
    else
      var d := if "objectFilter" in f.value || "selectedObjects" in f.value then WithoutTextKeys(f.value) else f.value;
      if d == map[] then None
      else if "must" in d || "should" in d || "must_not" in d then
        match build(d)
        case Success(filter) => Some(filter)
        case Failure(_) => None
      else None
  }

  /** A filter results exactly when some store key survives the removal of
      the text-index keys and the store accepts what is left; it is then the
      store's filter for that dict. */
  lemma ConvertFilterSpec(f: Option<FilterDict>, build: FilterDict -> Result<StoreFilter, Raised>)
    ensures ConvertFilter(f, build).Some? <==>
      f.Some? && HasStoreKey(WithoutTextKeys(f.value)) && build(WithoutTextKeys(f.value)).Success?
    ensures ConvertFilter(f, build).Some? ==> ConvertFilter(f, build) == Some(build(WithoutTextKeys(f.value)).value)
  {
    if f.Some? && !("objectFilter" in f.value || "selectedObjects" in f.value) {
      assert WithoutTextKeys(f.value) == f.value;
    }
  }

  /** None and {} give no filter. */
  lemma FalsyFilter(f: Option<FilterDict>, build: FilterDict -> Result<StoreFilter, Raised>)
    requires f.None? || f.value == map[]
    ensures ConvertFilter(f, build).None?
  {
  }

  /** The text-index keys have no effect on the store filter. */
  lemma TextKeysIgnored(d: FilterDict, build: FilterDict -> Result<StoreFilter, Raised>)
    ensures ConvertFilter(Some(d), build) == ConvertFilter(Some(WithoutTextKeys(d)), build)
  {
    ConvertFilterSpec(Some(d), build);
    ConvertFilterSpec(Some(WithoutTextKeys(d)), build);
    assert WithoutTextKeys(WithoutTextKeys(d)) == WithoutTextKeys(d);
  }

  /** A dict holding nothing but text-index keys gives no filter. */
  lemma OnlyTextKeys(d: FilterDict, build: FilterDict -> Result<StoreFilter, Raised>)
    requires forall k | k in d :: k in TextOnlyKeys
    ensures ConvertFilter(Some(d), build).None?
  {
    ConvertFilterSpec(Some(d), build);
  }

  /** A dict without any store key gives no filter, whatever else it holds. */
  lemma NoStoreKey(d: FilterDict, build: FilterDict -> Result<StoreFilter, Raised>)
    requires "must" !in d && "should" !in d && "must_not" !in d
    ensures ConvertFilter(Some(d), build).None?
  {
    ConvertFilterSpec(Some(d), build);
  }

  /** A dict the store rejects gives no filter. */
  lemma RejectedFilter(d: FilterDict, build: FilterDict -> Result<StoreFilter, Raised>)
    requires build(WithoutTextKeys(d)).Failure?
    ensures ConvertFilter(Some(d), build).None?
  {
    ConvertFilterSpec(Some(d), build);
  }
}
