/** Loading the keyframe text files into Elasticsearch: one index per JSON
    file, named after the file, with a mapping chosen from the first value,
    one document per key, sent in bulk batches whose successes and
    failures are counted. The client is a parameter: the existence check,
    index creation and bulk helper are functions that may raise. Reading
    the directory and the files is left out; a file is given as its name
    and its loaded contents. */
module EsIngest {
  import opened Wrappers
  import opened Text
  import opened Json
  import opened Lists

  // ---------------------------------------------------------- mapping

  /** The three shapes `create_index_mapping` distinguishes by the first value. */
  datatype MappingKind = TextContent | ObjectList | PlainContent

  function KindOf(v: Json): MappingKind {
    if v.JStr? then TextContent else if v.JArr? then ObjectList else PlainContent
  }

  /** `{"type": t}`, with an analyzer when given. */
  function FieldType(t: string, analyzer: Option<string>): Json {
    JObj([("type", JStr(t))] + (if analyzer.Some? then [("analyzer", JStr(analyzer.value))] else []))
  }

  /** The `properties` of a mapping kind: a keyword `id`, and the content field. */
  function Properties(k: MappingKind): seq<(string, Json)> {
    match k
    case TextContent => [("id", FieldType("keyword", None)), ("content", FieldType("text", Some("standard")))]
    case ObjectList => [("id", FieldType("keyword", None)), ("objects", FieldType("keyword", None))]
    case PlainContent => [("id", FieldType("keyword", None)), ("content", FieldType("text", None))]
  }

  /** `create_index_mapping(index_name, data_sample)`; an empty sample makes
      `next(iter(...))` raise, which is None here. */
  function CreateIndexMapping(data: seq<(string, Json)>): Option<Json> {
    if data == [] then None
    else Some(JObj([("mappings", JObj([("properties", JObj(Properties(KindOf(data[0].1))))]))]))
  }

  /** The mapping always has a keyword `id`; its second field is a keyword
      `objects` exactly when the first value is a list, and otherwise a
      text `content`, analysed with "standard" exactly when the first value
      is a string. */
  lemma MappingByFirstValue(data: seq<(string, Json)>)
    requires data != []
    ensures var props := Properties(KindOf(data[0].1));
      && CreateIndexMapping(data) == Some(JObj([("mappings", JObj([("properties", JObj(props))]))]))
      && |props| == 2 && props[0] == ("id", FieldType("keyword", None))
      && (props[1].0 == "objects" <==> data[0].1.JArr?)
      && (data[0].1.JArr? ==> props[1].1 == FieldType("keyword", None))
      && (!data[0].1.JArr? ==> props[1].0 == "content")
      && (props[1].1 == FieldType("text", Some("standard")) <==> data[0].1.JStr?)
  {
    assert "objects" != "content";
    assert FieldType("keyword", None) != FieldType("text", Some("standard"));
    assert FieldType("text", None) != FieldType("text", Some("standard"));
  }

  // -------------------------------------------------------- documents

  /** The `_source` of a document: text content or a list of objects. */
  datatype Source = Content(id: string, content: string) | Objects(id: string, objects: seq<Json>)

  /** A bulk action: `_index`, `_id` and `_source`. */
  datatype Doc = Doc(index: string, id: string, source: Source)

  /** The document of one key; `repr` stands for `str()` of floats, lists and dicts. */
  function PrepareDocument(key: string, value: Json, index: string, repr: Json -> string): Doc {
    Doc(index, key,
        if value.JStr? then Content(key, value.s)
        else if value.JArr? then Objects(key, value.items)
        else Content(key, PyStr(value, repr)))
  }

  /** `prepare_documents(data, index_name)`: one document per key, in order. */
  function PrepareDocuments(data: seq<(string, Json)>, index: string, repr: Json -> string): (r: seq<Doc>)
    ensures |r| == |data|
    ensures forall i | 0 <= i < |data| :: r[i] == PrepareDocument(data[i].0, data[i].1, index, repr)
  {
    seq(|data|, i requires 0 <= i < |data| => PrepareDocument(data[i].0, data[i].1, index, repr))
  }

  /** Every document carries the index name and its key as `_id` and as
      `_source.id`; a string value becomes the content, a list the
      objects, and anything else its `str()` as content. */
  lemma DocumentsFacts(data: seq<(string, Json)>, index: string, repr: Json -> string, i: nat)
    requires i < |data|
    ensures var d := PrepareDocuments(data, index, repr)[i];
      && d.index == index && d.id == data[i].0 && d.source.id == data[i].0
      && (data[i].1.JStr? ==> d.source == Content(data[i].0, data[i].1.s))
      && (data[i].1.JArr? ==> d.source == Objects(data[i].0, data[i].1.items))
      && (data[i].1.JInt? ==> d.source.Content? && PyInt(d.source.content) == Some(data[i].1.i))
      && (d.source.Objects? <==> data[i].1.JArr?)
  {
  }

  /** The loop appending one document per item. */
  method PrepareDocumentsLoop(data: seq<(string, Json)>, index: string, repr: Json -> string) returns (docs: seq<Doc>)
    ensures docs == PrepareDocuments(data, index, repr)
  {
    docs := [];
    var i := 0;
    while i < |data|
      invariant 0 <= i <= |data|
      invariant docs == PrepareDocuments(data, index, repr)[..i]
    {
      var (key, value) := data[i];
      var source: Source;
      if value.JStr? {
        source := Content(key, value.s);
      } else if value.JArr? {
        source := Objects(key, value.items);
      } else {
        source := Content(key, PyStr(value, repr));
      }
      docs := docs + [Doc(index, key, source)];
      i := i + 1;
    }
  }

  // ---------------------------------------------------------- batches

  /** What the bulk helper returns for a batch: `(success, failed_items)`. */
  type BulkHelper = seq<Doc> -> Result<(int, seq<Json>), Raised>

  /** What one batch adds to `(success_count, failed_count)`: the helper's
      figures, or the whole batch as failed when it raises. */
  function BatchCount(outcome: Result<(int, seq<Json>), Raised>, batch: seq<Doc>): (int, int) {
    match outcome
    case Success((success, failedItems)) => (success, |failedItems|)
    case Failure(_) => (0, |batch|)
  }

  /** The counters after the batches from position `i` on. */
  function Tally(docs: seq<Doc>, i: nat, b: int, bulk: BulkHelper): (int, int)
    requires b > 0 && i <= |docs|
    decreases |docs| - i
  {
    if i == |docs| then (0, 0)
    else
      var c := BatchCount(bulk(ChunkAt(docs, i, b)), ChunkAt(docs, i, b));
      var rest := Tally(docs, NextStart(|docs|, i, b), b, bulk);
      (c.0 + rest.0, c.1 + rest.1)
  }

  /** A helper that accounts for every document of a batch, as a success or
      as a failed item. */
  predicate Accounts(bulk: BulkHelper, batch: seq<Doc>) {
    bulk(batch).Success? ==> bulk(batch).value.0 + |bulk(batch).value.1| == |batch|
  }

  /** When the helper accounts for each batch, every document is counted
      once, as a success or a failure; a batch that raises counts all its
      documents as failed. */
  lemma {:induction false} TallyAccounts(docs: seq<Doc>, i: nat, b: int, bulk: BulkHelper)
    requires b > 0 && i <= |docs|
    requires forall batch | batch in ChunksFrom(docs, i, b) :: Accounts(bulk, batch)
    ensures Tally(docs, i, b, bulk).0 + Tally(docs, i, b, bulk).1 == |docs| - i
    decreases |docs| - i
  {
    if i < |docs| {
      var next := NextStart(|docs|, i, b);
      var bs := ChunksFrom(docs, i, b);
      assert bs[0] == ChunkAt(docs, i, b) && bs[0] in bs;
      assert Accounts(bulk, ChunkAt(docs, i, b));
      assert forall batch | batch in ChunksFrom(docs, next, b) :: batch in bs;
      TallyAccounts(docs, next, b, bulk);
    }
  }

  /** When every bulk call raises, nothing succeeds and every document fails. */
  lemma {:induction false} TallyAllRaise(docs: seq<Doc>, i: nat, b: int, bulk: BulkHelper)
    requires b > 0 && i <= |docs|
    requires forall batch | batch in ChunksFrom(docs, i, b) :: bulk(batch).Failure?
    ensures Tally(docs, i, b, bulk) == (0, |docs| - i)
    decreases |docs| - i
  {
    if i < |docs| {
      var next := NextStart(|docs|, i, b);
      var bs := ChunksFrom(docs, i, b);
      assert bs[0] == ChunkAt(docs, i, b);
      assert forall batch | batch in ChunksFrom(docs, next, b) :: batch in bs;
      TallyAllRaise(docs, next, b, bulk);
    }
  }

  /** The batch loop of `ingest_file`. */
  method SendBatches(docs: seq<Doc>, batchSize: int, bulk: BulkHelper) returns (successCount: int, failedCount: int)
    requires batchSize > 0
    ensures (successCount, failedCount) == Tally(docs, 0, batchSize, bulk)
  {
    successCount, failedCount := 0, 0;
    var i := 0;
    while i < |docs|
      invariant 0 <= i <= |docs|
      invariant successCount + Tally(docs, i, batchSize, bulk).0 == Tally(docs, 0, batchSize, bulk).0
      invariant failedCount + Tally(docs, i, batchSize, bulk).1 == Tally(docs, 0, batchSize, bulk).1
      decreases |docs| - i
    {
      var batch := docs[i..NextStart(|docs|, i, batchSize)];
      var outcome := bulk(batch);
      if outcome.Success? {
        var (success, failedItems) := outcome.value;
        successCount := successCount + success;
        failedCount := failedCount + |failedItems|;
      } else {
        failedCount := failedCount + |batch|;
      }
      i := NextStart(|docs|, i, batchSize);
    }
  }

  // ------------------------------------------------------------- files

  /** The Elasticsearch calls `ingest_file` makes. */
  datatype Client = Client(exists_: string -> Result<bool, Raised>, create: (string, Json) -> Result<bool, Raised>,
                           bulk: BulkHelper)

  /** How a file's ingestion ends when nothing raises. */
  datatype FileOutcome =
    | Skipped(index: string)
    | Ingested(index: string, created: Option<Json>, successCount: int, failedCount: int)

  /** `file_path.stem` of a name matched by `*.json`: the name without its
      suffix, except that a name that is only ".json" has no suffix. */
  function Stem(name: string): string {
    if EndsWith(name, ".json") && |name| > 5 then name[..|name| - 5] else name
  }

  /** `file_path.stem.lower()`. */
  function IndexName(name: string): string {
    Lower(Stem(name))
  }

  /** `ingest_file`: an empty file is skipped; otherwise the index is
      created with the mapping of the first value unless it exists, and the
      documents are sent in batches. `range` with a zero step raises, and a
      negative one sends nothing. */
  function IngestFile(name: string, loaded: Result<seq<(string, Json)>, Raised>, client: Client, batchSize: int,
                      repr: Json -> string): Result<FileOutcome, Raised>
  {
    var index := IndexName(name);
    match loaded
    case Failure(e) => Failure(e)
    case Success(data) =>
      if data == [] then Success(Skipped(index))
      else match client.exists_(index)
        case Failure(e) => Failure(e)
        case Success(present) =>
          var mapping := CreateIndexMapping(data).value;
          var created := if present then Success(false) else client.create(index, mapping);
          if created.Failure? then Failure(created.error)
          else if batchSize == 0 then Failure(Raised)
          else
            var docs := PrepareDocuments(data, index, repr);
            var counts := if batchSize < 0 then (0, 0) else Tally(docs, 0, batchSize, client.bulk);
            Success(Ingested(index, if present then None else Some(mapping), counts.0, counts.1))
  }

  /** A file with contents is ingested into the lower-cased stem's index,
      creating it with the first value's mapping only when it is missing,
      and counting every document once when the helper accounts for each
      batch. An empty file is skipped without a call. */
  lemma IngestFileFacts(name: string, data: seq<(string, Json)>, client: Client, batchSize: int, repr: Json -> string)
    ensures data == [] ==> IngestFile(name, Success(data), client, batchSize, repr) == Success(Skipped(IndexName(name)))
    ensures var r := IngestFile(name, Success(data), client, batchSize, repr);
      r.Success? && r.value.Ingested? ==>
        && data != [] && r.value.index == IndexName(name)
        && client.exists_(IndexName(name)).Success?
        && (r.value.created.Some? <==> !client.exists_(IndexName(name)).value)
        && (r.value.created.Some? ==> r.value.created == CreateIndexMapping(data))
        && ((batchSize > 0 && forall batch :: Accounts(client.bulk, batch)) ==>
              r.value.successCount + r.value.failedCount == |data|)
  {
    var r := IngestFile(name, Success(data), client, batchSize, repr);
    if r.Success? && r.value.Ingested? && batchSize > 0 && forall batch :: Accounts(client.bulk, batch) {
      var docs := PrepareDocuments(data, IndexName(name), repr);
      TallyAccounts(docs, 0, batchSize, client.bulk);
    }
  }

  /** `ingest_file`, with the document loop and the batch loop. */
  method IngestOneFile(name: string, loaded: Result<seq<(string, Json)>, Raised>, client: Client, batchSize: int,
                       repr: Json -> string) returns (r: Result<FileOutcome, Raised>)
    ensures r == IngestFile(name, loaded, client, batchSize, repr)
  {
    var index := Lower(Stem(name));
    if loaded.Failure? {
      return Failure(loaded.error);
    }
    var data := loaded.value;
    if data == [] {
      return Success(Skipped(index));
    }
    var present := client.exists_(index);
    if present.Failure? {
      return Failure(present.error);
    }
    var created: Option<Json> := None;
    if !present.value {
      var mapping := CreateIndexMapping(data).value;
      var made := client.create(index, mapping);
      if made.Failure? {
        return Failure(made.error);
      }
      created := Some(mapping);
    }
    var docs := PrepareDocumentsLoop(data, index, repr);
    if batchSize == 0 {
      return Failure(Raised);
    }
    var successCount, failedCount := 0, 0;
    if batchSize > 0 {
      successCount, failedCount := SendBatches(docs, batchSize, client.bulk);
    }
    return Success(Ingested(index, created, successCount, failedCount));
  }

  // ------------------------------------------------------- directories

  datatype DirError = DirectoryNotFound

  /** `ingest_all_files`: the files in sorted order, each ingested whatever
      happened to the ones before it. */
  function IngestAll(dirExists: bool, files: seq<string>, ingest: string -> Result<FileOutcome, Raised>)
    : Result<seq<(string, Result<FileOutcome, Raised>)>, DirError>
  {
    if !dirExists then Failure(DirectoryNotFound)
    else
      var order := SortStrs(files);
      Success(seq(|order|, i requires 0 <= i < |order| => (order[i], ingest(order[i]))))
  }

  /** Every file is attempted exactly once, in sorted order, however the
      others end; a missing directory raises before any file. */
  lemma IngestAllFacts(dirExists: bool, files: seq<string>, ingest: string -> Result<FileOutcome, Raised>)
    ensures IngestAll(dirExists, files, ingest).Failure? <==> !dirExists
    ensures dirExists ==>
      var r := IngestAll(dirExists, files, ingest).value;
      && |r| == |files|
      && multiset(seq(|r|, i requires 0 <= i < |r| => r[i].0)) == multiset(files)
      && (forall i, j | 0 <= i < j < |r| :: StrLe(r[i].0, r[j].0))
      && (forall i | 0 <= i < |r| :: r[i].1 == ingest(r[i].0))
  {
    if dirExists {
      var r := IngestAll(dirExists, files, ingest).value;
      assert seq(|r|, i requires 0 <= i < |r| => r[i].0) == SortStrs(files);
    }
  }

  /** The loop over the sorted files, catching each file's error. */
  method IngestAllFiles(dirExists: bool, files: seq<string>, ingest: string -> Result<FileOutcome, Raised>)
    returns (r: Result<seq<(string, Result<FileOutcome, Raised>)>, DirError>)
    ensures r == IngestAll(dirExists, files, ingest)
  {
    if !dirExists {
      return Failure(DirectoryNotFound);
    }
    var order := SortStrs(files);
    var done: seq<(string, Result<FileOutcome, Raised>)> := [];
    var i := 0;
    while i < |order|
      invariant 0 <= i <= |order|
      invariant |done| == i && forall j | 0 <= j < i :: done[j] == (order[j], ingest(order[j]))
    {
      var outcome := ingest(order[i]);
      done := done + [(order[i], outcome)];
      i := i + 1;
    }
    assert done == seq(|order|, i requires 0 <= i < |order| => (order[i], ingest(order[i])));
    return Success(done);
  }
}
