/** Loading embedding files into Qdrant collections: the shape of a flat
    vector file, the batches a faiss index is uploaded in, and the vector
    size detected for a file when none is configured. Reading files, the
    faiss library and the Qdrant client are left out; an index is given as
    its dimension and its vectors, and the upload as the calls it makes. */
module VectorIngest {
  import opened Wrappers

  // ----------------------------------------------------------- shapes

  datatype ShapeError = ZeroSize | Indivisible(total: int, size: int)

  /** `get_vector_shape(data, vector_size)` for a file of `total` elements.
      On success the element count divides exactly, so Python's floor
      division and Dafny's agree. */
  function VectorShape(total: nat, vectorSize: int): (r: Result<(int, int), ShapeError>)
    ensures vectorSize == 0 <==> r == Failure(ZeroSize)
    ensures r.Success? <==> vectorSize != 0 && total % vectorSize == 0
    ensures r.Success? ==> r.value.1 == vectorSize && r.value.0 * vectorSize == total
    ensures r.Failure? && vectorSize != 0 ==> r == Failure(Indivisible(total, vectorSize))
  {
    if vectorSize == 0 then Failure(ZeroSize)
    else if total % vectorSize != 0 then Failure(Indivisible(total, vectorSize))
    else Success((total / vectorSize, vectorSize))
  }

  /** Vectors of a positive size make a file whose shape reads back as them. */
  lemma VectorShapeRoundTrip(count: nat, size: int)
    requires size > 0
    ensures VectorShape(count * size, size) == Success((count, size))
  {
    assert (count * size) % size == 0 && (count * size) / size == count by {
      DivExact(count, size);
    }
  }

  lemma DivExact(count: nat, size: int)
    requires size > 0
    ensures (count * size) % size == 0 && (count * size) / size == count
  {
    var t := count * size;
    var q, r := t / size, t % size;
    assert t == q * size + r && 0 <= r < size;
    if count > q {
      MulAtLeast(count - q, size);
      Distribute(count, q, size);
    } else if count < q {
      MulAtLeast(q - count, size);
      Distribute(q, count, size);
    }
  }

  lemma {:induction false} MulAtLeast(x: int, y: int)
    requires x >= 1 && y > 0
    ensures x * y >= y
    decreases x
  {
    if x > 1 {
      MulAtLeast(x - 1, y);
      assert x * y == (x - 1) * y + y;
    }
  }

  lemma Distribute(x: int, z: int, y: int)
    ensures (x - z) * y == x * y - z * y
  {
  }

  // --------------------------------------------------------- batches

  /** A Qdrant point: a sequential id and the vector stored at that index. */
  datatype Point = Point(id: int, vector: seq<real>)

  /** A call the ingestion makes on the Qdrant client. */
  datatype Call = CreateCollection(name: string, size: int) | Upsert(name: string, points: seq<Point>)

  /** A faiss index: `index.d` and the vectors `reconstruct_n(0, ntotal)` returns. */
  datatype FaissIndex = FaissIndex(d: int, vectors: seq<seq<real>>)

  /** `total_batches = (num_vectors + batch_size - 1) // batch_size`. */
  function TotalBatches(n: nat, b: int): nat
    requires b > 0
  {
    (n + b - 1) / b
  }

  /** The batch count is the ceiling of n / b: enough batches to hold every
      vector, and no batch beyond those. */
  lemma TotalBatchesCeiling(n: nat, b: int)
    requires b > 0
    ensures TotalBatches(n, b) * b >= n
    ensures n > 0 ==> (TotalBatches(n, b) - 1) * b < n
    ensures n == 0 ==> TotalBatches(n, b) == 0
  {
    var t := TotalBatches(n, b);
    var r := (n + b - 1) % b;
    assert n + b - 1 == t * b + r && 0 <= r < b;
  }

  /** The first index of batch `k`: `start_idx = batch_idx * batch_size`. */
  function Start(k: nat, b: int): int
    requires b > 0
  {
    k * b
  }

  /** `end_idx = min(start_idx + batch_size, num_vectors)`. */
  function End(k: nat, b: int, n: nat): int
    requires b > 0
  {
    if Start(k, b) + b < n then Start(k, b) + b else n
  }

  /** The points of batch `k`: each id from `start_idx` to `end_idx` with its vector. */
  function BatchPoints(vectors: seq<seq<real>>, k: nat, b: int): seq<Point>
    requires b > 0 && Start(k, b) <= |vectors|
  {
    var s := Start(k, b);
    var e := End(k, b, |vectors|);
    seq(e - s, i requires 0 <= i < e - s => Point(s + i, vectors[s + i]))
  }

  /** Every point with its index as id: `ids = list(range(num_vectors))`. */
  function AllPoints(vectors: seq<seq<real>>): (r: seq<Point>)
    ensures |r| == |vectors| && forall i | 0 <= i < |vectors| :: r[i] == Point(i, vectors[i])
  {
    seq(|vectors|, i requires 0 <= i < |vectors| => Point(i, vectors[i]))
  }

  /** The upserts of the first `k` batches. */
  function Upserts(name: string, vectors: seq<seq<real>>, k: nat, b: int): seq<Call>
    requires b > 0 && k <= TotalBatches(|vectors|, b)
    decreases k
  {
    if k == 0 then []
    else
      BatchStartInRange(|vectors|, b, k - 1);
      Upserts(name, vectors, k - 1, b) + [Upsert(name, BatchPoints(vectors, k - 1, b))]
  }

  /** Batches before the last start inside the vectors. */
  lemma BatchStartInRange(n: nat, b: int, k: nat)
    requires b > 0 && k < TotalBatches(n, b)
    ensures Start(k, b) < n
  {
    TotalBatchesCeiling(n, b);
    assert k <= TotalBatches(n, b) - 1;
    assert k * b <= (TotalBatches(n, b) - 1) * b;
  }

  /** The points of the upserts, one after the other. */
  function UploadedPoints(calls: seq<Call>): seq<Point>
    decreases |calls|
  {
    if calls == [] then []
    else UploadedPoints(calls[..|calls| - 1]) + (if calls[|calls| - 1].Upsert? then calls[|calls| - 1].points else [])
  }

  /** `min(k * batch_size, n)`: how many points the first `k` batches hold. */
  function Covered(k: nat, b: int, n: nat): nat
    requires b > 0
  {
    if Start(k, b) <= n then Start(k, b) else n
  }

  /** Batch `k - 1` ends where the first `k` batches do. */
  lemma CoveredStep(k: nat, b: int, n: nat)
    requires b > 0 && k > 0 && Start(k - 1, b) < n
    ensures Covered(k - 1, b, n) == Start(k - 1, b)
    ensures End(k - 1, b, n) == Covered(k, b, n)
  {
    Distribute(k, 1, b);
  }

  /** The first `k` batches upload exactly the points with ids below
      `min(k * batch_size, n)`, in id order. */
  lemma {:induction false} UpsertsPrefix(name: string, vectors: seq<seq<real>>, k: nat, b: int)
    requires b > 0 && k <= TotalBatches(|vectors|, b)
    ensures UploadedPoints(Upserts(name, vectors, k, b)) == AllPoints(vectors)[..Covered(k, b, |vectors|)]
    decreases k
  {
    if k > 0 {
      UpsertsPrefix(name, vectors, k - 1, b);
      BatchStartInRange(|vectors|, b, k - 1);
      CoveredStep(k, b, |vectors|);
      var calls := Upserts(name, vectors, k, b);
      assert calls[..|calls| - 1] == Upserts(name, vectors, k - 1, b);
      var s := Start(k - 1, b);
      var e := End(k - 1, b, |vectors|);
      var all := AllPoints(vectors);
      BatchIsSlice(vectors, k - 1, b);
      assert UploadedPoints(calls) == all[..s] + all[s..e];
      assert all[..s] + all[s..e] == all[..e];
    } else {
      assert Start(0, b) == 0;
    }
  }

  /** A batch is the slice `[start_idx:end_idx]` of all the points. */
  lemma BatchIsSlice(vectors: seq<seq<real>>, k: nat, b: int)
    requires b > 0 && Start(k, b) <= |vectors|
    ensures Start(k, b) <= End(k, b, |vectors|) <= |vectors|
    ensures BatchPoints(vectors, k, b) == AllPoints(vectors)[Start(k, b)..End(k, b, |vectors|)]
  {
  }

  /** All batches together upload every vector exactly once, with ids
      0..n-1 in order. */
  lemma AllBatchesCover(name: string, vectors: seq<seq<real>>, b: int)
    requires b > 0
    ensures UploadedPoints(Upserts(name, vectors, TotalBatches(|vectors|, b), b)) == AllPoints(vectors)
  {
    var n := |vectors|;
    var t := TotalBatches(n, b);
    TotalBatchesCeiling(n, b);
    UpsertsPrefix(name, vectors, t, b);
    assert Covered(t, b, n) == n;
    assert AllPoints(vectors)[..n] == AllPoints(vectors);
  }

  /** Every batch but the last holds `batch_size` points. */
  lemma FullBatches(vectors: seq<seq<real>>, b: int, k: nat)
    requires b > 0 && k + 1 < TotalBatches(|vectors|, b)
    ensures Start(k, b) <= |vectors| && |BatchPoints(vectors, k, b)| == b
  {
    BatchStartInRange(|vectors|, b, k + 1);
    Distribute(k + 1, 1, b);
  }

  /** What `ingest_collection` does when `create_collection` and every
      upsert succeed: the index's dimension replaces the requested size,
      the collection is created with it unless the listing shows it exists
      (a listing that raises counts as absent), then the batches follow. */
  function IngestCalls(name: string, index: FaissIndex, requestedSize: int, batchSize: int,
                       listing: Result<seq<string>, Raised>): seq<Call>
    requires batchSize > 0
  {
    var present := listing.Success? && name in listing.value;
    (if present then [] else [CreateCollection(name, index.d)])
    + Upserts(name, index.vectors, TotalBatches(|index.vectors|, batchSize), batchSize)
  }

  /** A new collection always gets the index's own dimension, whatever size
      was asked for, and the points uploaded are every vector once. */
  lemma IngestUsesIndexSize(name: string, index: FaissIndex, requestedSize: int, batchSize: int,
                            listing: Result<seq<string>, Raised>)
    requires batchSize > 0
    requires !(listing.Success? && name in listing.value)
    ensures var calls := IngestCalls(name, index, requestedSize, batchSize, listing);
      calls[0] == CreateCollection(name, index.d)
      && UploadedPoints(calls) == AllPoints(index.vectors)
  {
    var up := Upserts(name, index.vectors, TotalBatches(|index.vectors|, batchSize), batchSize);
    AllBatchesCover(name, index.vectors, batchSize);
    UploadedAppend([CreateCollection(name, index.d)], up);
  }

  /** Creation calls upload nothing. */
  lemma {:induction false} UploadedAppend(a: seq<Call>, c: seq<Call>)
    requires forall i | 0 <= i < |a| :: a[i].CreateCollection?
    ensures UploadedPoints(a + c) == UploadedPoints(c)
    decreases |c|
  {
    if c == [] {
      assert a + c == a;
      UploadedNone(a);
    } else {
      var init := c[..|c| - 1];
      assert (a + c)[..|a + c| - 1] == a + init;
      UploadedAppend(a, init);
    }
  }

  lemma {:induction false} UploadedNone(a: seq<Call>)
    requires forall i | 0 <= i < |a| :: a[i].CreateCollection?
    ensures UploadedPoints(a) == []
    decreases |a|
  {
    if a != [] {
      UploadedNone(a[..|a| - 1]);
    }
  }

  /** The batch loop: for each batch, the points built one by one from the ids and vectors. */
  method UploadBatches(name: string, vectors: seq<seq<real>>, batchSize: int) returns (calls: seq<Call>)
    requires batchSize > 0
    ensures calls == Upserts(name, vectors, TotalBatches(|vectors|, batchSize), batchSize)
  {
    var n := |vectors|;
    var totalBatches := (n + batchSize - 1) / batchSize;
    calls := [];
    var k := 0;
    while k < totalBatches
      invariant 0 <= k <= totalBatches
      invariant calls == Upserts(name, vectors, k, batchSize)
    {
      BatchStartInRange(n, batchSize, k);
      var startIdx := k * batchSize;
      var endIdx := if startIdx + batchSize < n then startIdx + batchSize else n;
      var points: seq<Point> := [];
      var j := startIdx;
      while j < endIdx
        invariant startIdx <= j <= endIdx
        invariant points == BatchPoints(vectors, k, batchSize)[..j - startIdx]
      {
        points := points + [Point(j, vectors[j])];
        j := j + 1;
      }
      assert points == BatchPoints(vectors, k, batchSize);
      calls := calls + [Upsert(name, points)];
      k := k + 1;
    }
  }

  /** `ingest_collection`. */
  method IngestCollection(name: string, index: FaissIndex, requestedSize: int, batchSize: int,
                          listing: Result<seq<string>, Raised>) returns (calls: seq<Call>)
    requires batchSize > 0
    ensures calls == IngestCalls(name, index, requestedSize, batchSize, listing)
  {
    var vectorSize := requestedSize;
    if vectorSize != index.d {
      vectorSize := index.d;
    }
    var collectionExists := listing.Success? && name in listing.value;
    calls := [];
    if !collectionExists {
      calls := [CreateCollection(name, vectorSize)];
    }
    var upserts := UploadBatches(name, index.vectors, batchSize);
    calls := calls + upserts;
  }

  // -------------------------------------------------------- detection

  /** The vector sizes tried, in order, when a file is not a faiss index. */
  const CommonSizes: seq<int> := [768, 1024, 1536, 2048, 384, 512, 256, 128, 4096, 5120, 6400]

  /** The vector-count bound of the fallback detection. */
  const MaxVectors: int := 10000000

  /** A size the fallback accepts for `total` elements. */
  predicate Fits(total: nat, size: int)
    requires size > 0
  {
    total % size == 0 && 0 < total / size < MaxVectors
  }

  /** The first of `sizes` that fits. */
  function FirstFit(total: nat, sizes: seq<int>): (r: Option<int>)
    requires forall i | 0 <= i < |sizes| :: sizes[i] > 0
    ensures r.Some? ==> r.value in sizes && r.value > 0 && Fits(total, r.value)
  {
    if sizes == [] then None
    else if Fits(total, sizes[0]) then Some(sizes[0])
    else FirstFit(total, sizes[1..])
  }

  /** The size found is the first that fits; none fits exactly when there is none. */
  lemma {:induction false} FirstFitFacts(total: nat, sizes: seq<int>)
    requires forall i | 0 <= i < |sizes| :: sizes[i] > 0
    ensures FirstFit(total, sizes).None? <==> forall i | 0 <= i < |sizes| :: !Fits(total, sizes[i])
    ensures FirstFit(total, sizes).Some? ==>
      exists i | 0 <= i < |sizes| :: sizes[i] == FirstFit(total, sizes).value
        && forall j | 0 <= j < i :: !Fits(total, sizes[j])
    decreases |sizes|
  {
    if sizes != [] && !Fits(total, sizes[0]) {
      var rest := sizes[1..];
      FirstFitFacts(total, rest);
      assert forall i | 0 <= i < |rest| :: rest[i] == sizes[i + 1];
      if FirstFit(total, rest).Some? {
        var i :| 0 <= i < |rest| && rest[i] == FirstFit(total, rest).value && forall j | 0 <= j < i :: !Fits(total, rest[j]);
        forall j | 0 <= j < i + 1 ensures !Fits(total, sizes[j]) {
          if j > 0 {
            assert sizes[j] == rest[j - 1];
          }
        }
        assert sizes[i + 1] == FirstFit(total, sizes).value;
      } else {
        forall i | 0 <= i < |sizes| ensures !Fits(total, sizes[i]) {
          if i > 0 {
            assert sizes[i] == rest[i - 1];
          }
        }
      }
    } else if sizes != [] {
      assert sizes[0] == FirstFit(total, sizes).value;
    }
  }

  datatype DetectError = LoadFailed | Undetermined(total: nat)

  /** The vector size a file is ingested with: the configured one, else the
      faiss index's dimension, else the first common size that fits the raw
      file's element count; reading the raw file may raise too. */
  function FileVectorSize(setting: Option<int>, faissDim: Result<int, Raised>, elements: Result<nat, Raised>)
    : Result<int, DetectError>
  {
    if setting.Some? then Success(setting.value)
    else if faissDim.Success? then Success(faissDim.value)
    else match elements
      case Failure(_) => Failure(LoadFailed)
      case Success(total) =>
        match FirstFit(total, CommonSizes)
        case None => Failure(Undetermined(total))
        case Some(size) => Success(size)
  }

  /** The fallback either finds a listed size that divides the file into
      fewer than ten million vectors, all earlier sizes failing, or raises. */
  lemma FallbackDetection(total: nat)
    ensures FileVectorSize(None, Failure(Raised), Success(total)).Success? ==>
      var s := FileVectorSize(None, Failure(Raised), Success(total)).value;
      exists i | 0 <= i < |CommonSizes| :: CommonSizes[i] == s && Fits(total, s)
        && forall j | 0 <= j < i :: !Fits(total, CommonSizes[j])
    ensures FileVectorSize(None, Failure(Raised), Success(total)).Failure? <==>
      forall i | 0 <= i < |CommonSizes| :: !Fits(total, CommonSizes[i])
  {
    FirstFitFacts(total, CommonSizes);
  }

  /** The detection loop over the common sizes, stopping at the first that fits. */
  method DetectVectorSize(setting: Option<int>, faissDim: Result<int, Raised>, elements: Result<nat, Raised>)
    returns (r: Result<int, DetectError>)
    ensures r == FileVectorSize(setting, faissDim, elements)
  {
    if setting.Some? {
      return Success(setting.value);
    }
    if faissDim.Success? {
      return Success(faissDim.value);
    }
    if elements.Failure? {
      return Failure(LoadFailed);
    }
    var total := elements.value;
    var i := 0;
    while i < |CommonSizes|
      invariant 0 <= i <= |CommonSizes|
      invariant FirstFit(total, CommonSizes) == FirstFit(total, CommonSizes[i..])
    {
      assert CommonSizes[i..][1..] == CommonSizes[i + 1..];
      var size := CommonSizes[i];
      if total % size == 0 {
        var numVectors := total / size;
        if numVectors > 0 && numVectors < MaxVectors {
          return Success(size);
        }
      }
      i := i + 1;
    }
    return Failure(Undetermined(total));
  }
}
