/**
 * The in-process reference store `BasicVectorDB`: parallel lists of vectors and
 * chunk metadata, appended in batches, searched by similarity, filtered by
 * document id, and persisted as one snapshot file per (storage directory, kb id).
 */
module ReferenceStore {
  import opened VectorTypes
  import opened Similarity
  import opened Ranking
  import opened StoragePaths
  import opened Descriptors

  const AddVectorsMismatchMessage: string :=
    "Error in add_vectors: the number of vectors and metadata items must be the same."

  /** The content of a persisted file: the row lists, in order. */
  datatype Snapshot = Snapshot(vectors: seq<Vector>, metadata: seq<ChunkMetadata>)
  {
    predicate Valid()
    {
      |vectors| == |metadata|
    }
  }

  /** The file system as the store sees it: which paths hold which snapshot. */
  class Disk {
    var files: map<string, Snapshot>

    /** Every file was written by a store's `save`. */
    ghost predicate Valid()
      reads this
    {
      forall p :: p in files ==> files[p].Valid()
    }

    constructor ()
      ensures Valid() && files == map[]
    {
      files := map[];
    }
  }

  // ---------------------------------------------------------------------------
  // remove_document on values: keep the rows whose doc id differs, in order

  /** The metadata records whose doc id is not `docId`, in their original order. */
  function KeepMetadata(ms: seq<ChunkMetadata>, docId: string): (r: seq<ChunkMetadata>)
    ensures |r| <= |ms|
  {
    if ms == [] then []
    else
      var last := ms[|ms| - 1];
      KeepMetadata(ms[..|ms| - 1], docId) + (if last.docId == docId then [] else [last])
  }

  /** The vectors of those same rows, in the same order. */
  function KeepVectors(vs: seq<Vector>, ms: seq<ChunkMetadata>, docId: string): (r: seq<Vector>)
    requires |vs| == |ms|
    ensures |r| == |KeepMetadata(ms, docId)|
  {
    if ms == [] then []
    else
      var n := |ms| - 1;
      KeepVectors(vs[..n], ms[..n], docId) + (if ms[n].docId == docId then [] else [vs[n]])
  }

  /** Removal over one more row of a prefix. */
  lemma KeepStep(vs: seq<Vector>, ms: seq<ChunkMetadata>, docId: string, j: nat)
    requires |vs| == |ms| && j < |ms|
    ensures KeepMetadata(ms[..j + 1], docId)
         == KeepMetadata(ms[..j], docId) + (if ms[j].docId == docId then [] else [ms[j]])
    ensures KeepVectors(vs[..j + 1], ms[..j + 1], docId)
         == KeepVectors(vs[..j], ms[..j], docId) + (if ms[j].docId == docId then [] else [vs[j]])
  {
    assert ms[..j + 1][..j] == ms[..j] && vs[..j + 1][..j] == vs[..j];
  }

  /** After removal no row carries the id, and every other record is still there. */
  lemma {:induction false} KeepMetadataMembers(ms: seq<ChunkMetadata>, docId: string)
    ensures forall m :: m in KeepMetadata(ms, docId) <==> m in ms && m.docId != docId
  {
    if ms != [] {
      var n := |ms| - 1;
      KeepMetadataMembers(ms[..n], docId);
      assert ms == ms[..n] + [ms[n]];
    }
  }

  /** Removal pairs every kept vector with the metadata record it was stored with. */
  lemma {:induction false} KeepRowsPaired(vs: seq<Vector>, ms: seq<ChunkMetadata>, docId: string)
    requires |vs| == |ms|
    ensures forall t :: 0 <= t < |KeepMetadata(ms, docId)| ==>
      exists j :: 0 <= j < |ms| && KeepMetadata(ms, docId)[t] == ms[j] && KeepVectors(vs, ms, docId)[t] == vs[j]
  {
    if ms != [] {
      var n := |ms| - 1;
      KeepRowsPaired(vs[..n], ms[..n], docId);
      var km, kv := KeepMetadata(ms, docId), KeepVectors(vs, ms, docId);
      var km', kv' := KeepMetadata(ms[..n], docId), KeepVectors(vs[..n], ms[..n], docId);
      forall t | 0 <= t < |km|
        ensures exists j :: 0 <= j < |ms| && km[t] == ms[j] && kv[t] == vs[j]
      {
        if t < |km'| {
          assert km[t] == km'[t] && kv[t] == kv'[t];
          var j :| 0 <= j < n && km'[t] == ms[..n][j] && kv'[t] == vs[..n][j];
          assert km[t] == ms[j] && kv[t] == vs[j];
        } else {
          assert km[t] == ms[n] && kv[t] == vs[n];
        }
      }
      assert forall t :: 0 <= t < |km| ==> exists j :: 0 <= j < |ms| && km[t] == ms[j] && kv[t] == vs[j];
    } else {
      assert KeepMetadata(ms, docId) == [];
    }
  }

  /** Removal keeps the order: it distributes over concatenation of batches. */
  lemma {:induction false} KeepMetadataConcat(a: seq<ChunkMetadata>, b: seq<ChunkMetadata>, docId: string)
    ensures KeepMetadata(a + b, docId) == KeepMetadata(a, docId) + KeepMetadata(b, docId)
  {
    if b != [] {
      var n := |b| - 1;
      KeepMetadataConcat(a, b[..n], docId);
      assert (a + b)[..|a + b| - 1] == a + b[..n];
    } else {
      assert a + b == a;
    }
  }

  /** Removing an id no row carries changes nothing. */
  lemma {:induction false} KeepAbsentIsNoop(vs: seq<Vector>, ms: seq<ChunkMetadata>, docId: string)
    requires |vs| == |ms|
    requires forall j :: 0 <= j < |ms| ==> ms[j].docId != docId
    ensures KeepMetadata(ms, docId) == ms
    ensures KeepVectors(vs, ms, docId) == vs
  {
    if ms != [] {
      var n := |ms| - 1;
      KeepAbsentIsNoop(vs[..n], ms[..n], docId);
      assert ms == ms[..n] + [ms[n]];
      assert vs == vs[..n] + [vs[n]];
    }
  }

  /** Removing the same id twice is removing it once. */
  lemma {:induction false} KeepIdempotent(vs: seq<Vector>, ms: seq<ChunkMetadata>, docId: string)
    requires |vs| == |ms|
    ensures KeepMetadata(KeepMetadata(ms, docId), docId) == KeepMetadata(ms, docId)
    ensures KeepVectors(KeepVectors(vs, ms, docId), KeepMetadata(ms, docId), docId)
         == KeepVectors(vs, ms, docId)
  {
    var km := KeepMetadata(ms, docId);
    KeepMetadataMembers(ms, docId);
    forall j | 0 <= j < |km| ensures km[j].docId != docId {
      assert km[j] in km;
    }
    KeepAbsentIsNoop(KeepVectors(vs, ms, docId), km, docId);
  }

  /**
   * Where the in-place removal loop stands: the first j original rows have
   * been filtered into the first i current rows, and the rest are untouched.
   */
  ghost predicate RemovalProgress(vs0: seq<Vector>, ms0: seq<ChunkMetadata>, docId: string, j: nat,
                                  vs: seq<Vector>, ms: seq<ChunkMetadata>, i: nat)
  {
    && |vs0| == |ms0| && |vs| == |ms|
    && j <= |ms0|
    && i == |KeepMetadata(ms0[..j], docId)|
    && ms == KeepMetadata(ms0[..j], docId) + ms0[j..]
    && vs == KeepVectors(vs0[..j], ms0[..j], docId) + vs0[j..]
  }

  lemma RemovalDropStep(vs0: seq<Vector>, ms0: seq<ChunkMetadata>, docId: string, j: nat,
                        vs: seq<Vector>, ms: seq<ChunkMetadata>, i: nat)
    requires RemovalProgress(vs0, ms0, docId, j, vs, ms, i)
    requires i < |ms| && ms[i].docId == docId
    ensures RemovalProgress(vs0, ms0, docId, j + 1, vs[..i] + vs[i + 1..], ms[..i] + ms[i + 1..], i)
  {
    KeepStep(vs0, ms0, docId, j);
    assert ms[i] == ms0[j];
    assert ms[..i] == KeepMetadata(ms0[..j], docId) && ms[i + 1..] == ms0[j + 1..];
    assert vs[..i] == KeepVectors(vs0[..j], ms0[..j], docId) && vs[i + 1..] == vs0[j + 1..];
  }

  lemma RemovalKeepStep(vs0: seq<Vector>, ms0: seq<ChunkMetadata>, docId: string, j: nat,
                        vs: seq<Vector>, ms: seq<ChunkMetadata>, i: nat)
    requires RemovalProgress(vs0, ms0, docId, j, vs, ms, i)
    requires i < |ms| && ms[i].docId != docId
    ensures RemovalProgress(vs0, ms0, docId, j + 1, vs, ms, i + 1)
  {
    KeepStep(vs0, ms0, docId, j);
    assert ms[i] == ms0[j] && vs[i] == vs0[j];
    assert ms0[j..] == [ms0[j]] + ms0[j + 1..] && vs0[j..] == [vs0[j]] + vs0[j + 1..];
    assert ms == (KeepMetadata(ms0[..j], docId) + [ms0[j]]) + ms0[j + 1..];
    assert vs == (KeepVectors(vs0[..j], ms0[..j], docId) + [vs0[j]]) + vs0[j + 1..];
  }

  lemma RemovalDone(vs0: seq<Vector>, ms0: seq<ChunkMetadata>, docId: string, j: nat,
                    vs: seq<Vector>, ms: seq<ChunkMetadata>, i: nat)
    requires RemovalProgress(vs0, ms0, docId, j, vs, ms, i)
    requires i >= |ms|
    ensures ms == KeepMetadata(ms0, docId) && vs == KeepVectors(vs0, ms0, docId)
  {
    assert j == |ms0|;
    assert ms0[..j] == ms0 && vs0[..j] == vs0;
  }

  // ---------------------------------------------------------------------------
  // search on values

  /** The store's answer to a query: the top-k rows, each with its similarity. */
  function SearchResults(vs: seq<Vector>, ms: seq<ChunkMetadata>, query: Vector, topK: nat)
    : (results: seq<SearchResult>)
    requires |vs| == |ms|
    ensures |results| == Min(topK, |vs|)
  {
    var keys := Keys(query, vs);
    ResultsOf(ms, keys, TopK(keys, topK))
  }

  /** The result records of the chosen rows, in the chosen order. */
  function ResultsOf(ms: seq<ChunkMetadata>, keys: seq<real>, idx: seq<nat>): (results: seq<SearchResult>)
    requires |keys| == |ms| && InRange(keys, idx)
    ensures |results| == |idx|
    ensures forall t :: 0 <= t < |idx| ==> results[t] == SearchResult(ms[idx[t]], keys[idx[t]])
  {
    seq(|idx|, t requires 0 <= t < |idx| => SearchResult(ms[idx[t]], keys[idx[t]]))
  }

  /**
   * Search results are distinct stored rows, best first, and every row left
   * out is no more similar to the query than any row returned.
   */
  lemma SearchBestFirst(vs: seq<Vector>, ms: seq<ChunkMetadata>, query: Vector, topK: nat)
    requires |vs| == |ms|
    ensures var results := SearchResults(vs, ms, query, topK);
      exists idx: seq<nat> ::
        && IsTopK(Keys(query, vs), topK, idx)
        && |idx| == |results|
        && (forall t :: 0 <= t < |idx| ==>
              results[t] == SearchResult(ms[idx[t]], CosineKey(query, vs[idx[t]])))
        && (forall s, t :: 0 <= s < t < |results| ==> results[s].similarity >= results[t].similarity)
        && (forall i, t :: 0 <= i < |vs| && i !in idx && 0 <= t < |results| ==>
              CosineKey(query, vs[i]) <= results[t].similarity)
  {
    var keys := Keys(query, vs);
    var idx := TopK(keys, topK);
    var results := SearchResults(vs, ms, query, topK);
    forall s, t | 0 <= s < t < |results| ensures results[s].similarity >= results[t].similarity {
      assert Before(keys, idx[s], idx[t]);
    }
    forall i, t | 0 <= i < |vs| && i !in idx && 0 <= t < |results|
      ensures CosineKey(query, vs[i]) <= results[t].similarity
    {
      assert Before(keys, idx[t], i);
    }
  }

  // ---------------------------------------------------------------------------

  class BasicVectorDB {
    const kbId: string
    const storageDirectory: string
    const vectorStoragePath: string
    var useFaiss: bool
    var vectors: seq<Vector>
    var metadata: seq<ChunkMetadata>

    /** One metadata record per vector; the file path follows from the identity. */
    ghost predicate Valid()
      reads this
    {
      && |vectors| == |metadata|
      && vectorStoragePath == StoragePath(storageDirectory, kbId)
    }

    /**
     * A store over (kb id, storage directory): it starts from the file at its
     * path when one exists, and empty otherwise.
     */
    constructor (kbId: string, storageDirectory: string, useFaiss: bool, disk: Disk)
      requires disk.Valid()
      ensures Valid()
      ensures this.kbId == kbId && this.storageDirectory == storageDirectory
      ensures this.useFaiss == useFaiss
      ensures vectorStoragePath == StoragePath(storageDirectory, kbId)
      ensures vectorStoragePath in disk.files ==>
        Snapshot(vectors, metadata) == disk.files[vectorStoragePath]
      ensures vectorStoragePath !in disk.files ==> vectors == [] && metadata == []
    {
      this.kbId := kbId;
      this.storageDirectory := storageDirectory;
      this.useFaiss := useFaiss;
      var path := StoragePath(storageDirectory, kbId);
      this.vectorStoragePath := path;
      if path in disk.files {
        var snapshot := disk.files[path];
        vectors := snapshot.vectors;
        metadata := snapshot.metadata;
      } else {
        vectors := [];
        metadata := [];
      }
    }

    /**
     * Appends a batch and saves; a batch whose two lists differ in length is
     * refused whole with a `ValueError`, and nothing changes.
     */
    method AddVectors(vs: seq<Vector>, ms: seq<ChunkMetadata>, disk: Disk)
      returns (outcome: Outcome<StoreError>)
      requires Valid() && disk.Valid()
      modifies this`vectors, this`metadata, disk
      ensures Valid() && disk.Valid()
      ensures |vs| != |ms| ==>
        && outcome == Fail(ValueError(AddVectorsMismatchMessage))
        && vectors == old(vectors) && metadata == old(metadata)
        && disk.files == old(disk.files)
      ensures |vs| == |ms| ==>
        && outcome == Pass
        && vectors == old(vectors) + vs && metadata == old(metadata) + ms
        && disk.files == old(disk.files)[vectorStoragePath := Snapshot(vectors, metadata)]
    {
      if |vs| != |ms| {
        return Fail(ValueError(AddVectorsMismatchMessage));
      }
      vectors := vectors + vs;
      metadata := metadata + ms;
      Save(disk);
      outcome := Pass;
    }

    /**
     * The best `topK` rows for the query, best first; the brute-force sort and
     * the accelerated scan return the same list, so `useFaiss` does not matter.
     */
    method Search(query: Vector, topK: nat) returns (results: seq<SearchResult>)
      requires Valid()
      ensures results == SearchResults(vectors, metadata, query, topK)
    {
      if |vectors| == 0 {
        return [];
      }
      var keys := Keys(query, vectors);
      var idx: seq<nat>;
      if useFaiss {
        idx := ScanTopK(keys, topK);
      } else {
        idx := TopK(keys, topK);
      }
      results := ResultsOf(metadata, keys, idx);
    }

    /** Deletes, in place, every row whose metadata carries `docId`. */
    method RemoveDocument(docId: string)
      requires Valid()
      modifies this`vectors, this`metadata
      ensures Valid()
      ensures metadata == KeepMetadata(old(metadata), docId)
      ensures vectors == KeepVectors(old(vectors), old(metadata), docId)
    {
      ghost var ms0, vs0 := metadata, vectors;
      var i := 0;
      ghost var j := 0;
      while i < |metadata|
        invariant RemovalProgress(vs0, ms0, docId, j, vectors, metadata, i)
        decreases |metadata| - i
      {
        if metadata[i].docId == docId {
          RemovalDropStep(vs0, ms0, docId, j, vectors, metadata, i);
          vectors := vectors[..i] + vectors[i + 1..];
          metadata := metadata[..i] + metadata[i + 1..];
        } else {
          RemovalKeepStep(vs0, ms0, docId, j, vectors, metadata, i);
          i := i + 1;
        }
        j := j + 1;
      }
      RemovalDone(vs0, ms0, docId, j, vectors, metadata, i);
    }

    /** Writes the rows to this store's file, replacing whatever it held. */
    method Save(disk: Disk)
      requires Valid() && disk.Valid()
      modifies disk
      ensures disk.Valid()
      ensures disk.files == old(disk.files)[vectorStoragePath := Snapshot(vectors, metadata)]
    {
      disk.files := disk.files[vectorStoragePath := Snapshot(vectors, metadata)];
    }

    /** Replaces the rows by the file's; without a file the rows stay as they are. */
    method Load(disk: Disk)
      requires Valid() && disk.Valid()
      modifies this`vectors, this`metadata
      ensures Valid()
      ensures vectorStoragePath in disk.files ==>
        Snapshot(vectors, metadata) == disk.files[vectorStoragePath]
      ensures vectorStoragePath !in disk.files ==>
        vectors == old(vectors) && metadata == old(metadata)
    {
      if vectorStoragePath in disk.files {
        var snapshot := disk.files[vectorStoragePath];
        vectors := snapshot.vectors;
        metadata := snapshot.metadata;
      }
    }

    /** Removes this store's file, if any; the rows in memory stay. */
    method Delete(disk: Disk)
      requires disk.Valid()
      modifies disk
      ensures disk.Valid()
      ensures disk.files == old(disk.files) - {vectorStoragePath}
    {
      disk.files := disk.files - {vectorStoragePath};
    }

    /** The identity and configuration `to_dict` describes. */
    function Config(): (c: StoreConfig)
      reads this
    {
      BasicConfig(kbId, storageDirectory, useFaiss)
    }

    /** `to_dict`: a descriptor from which `from_dict` rebuilds this store's configuration. */
    function ToDict(): (d: Descriptor)
      reads this
      ensures FromDict(d) == Ok(BasicConfig(kbId, storageDirectory, useFaiss))
      ensures d[SubclassKey] == Str(BasicName) && d[KbIdKey] == Str(kbId)
    {
      RoundTrip(Config());
      Descriptors.ToDict(Config())
    }
  }
}
