/**
 * The reference store's unit scenarios, replayed against the model: each
 * method below is a client that uses only the store's contracts, and its
 * postcondition is what the scenario checks.
 */
module StoreScenarios {
  import opened VectorTypes
  import opened Similarity
  import opened Ranking
  import opened StoragePaths
  import opened Descriptors
  import opened ReferenceStore

  const TestKbId: string := "test_db"
  const TestStorageDirectory: string := "~/test__vector_db_dsRAG"

  /** The tests' file; tearDown removes it, so every scenario starts without it. */
  const TestFile: string := StoragePath(TestStorageDirectory, TestKbId)

  const Row1: ChunkMetadata := ChunkMetadata("1", 0, "Header1", "Text1")
  const Row2: ChunkMetadata := ChunkMetadata("2", 1, "Header2", "Text2")
  const TwoVectors: seq<Vector> := [[1, 0], [0, 1]]
  const TwoRows: seq<ChunkMetadata> := [Row1, Row2]
  const Query: Vector := [1, 0]

  /** Querying [1, 0] against rows [1, 0] (doc "1") and [0, 1] (doc "2"): doc "1" first. */
  lemma TwoRowSearch(topK: nat)
    ensures SearchResults(TwoVectors, TwoRows, Query, topK)
         == [SearchResult(Row1, 1.0), SearchResult(Row2, 0.0)][..Min(topK, 2)]
  {
    var keys := Keys(Query, TwoVectors);
    UnitVectorKeys();
    assert keys == [1.0, 0.0];
    assert Rank(keys, 1) == [0];
    assert Rank(keys, 2) == Insert(keys, 1, [0]) == [0, 1];
  }

  method AddVectorsAndSearch(disk: Disk) returns (results: seq<SearchResult>)
    requires disk.Valid() && TestFile !in disk.files
    modifies disk
    ensures |results| == 1
    ensures results[0].metadata.docId == "1" && results[0].similarity >= 0.9801
  {
    var db := new BasicVectorDB(TestKbId, TestStorageDirectory, DefaultUseFaiss, disk);
    var _ := db.AddVectors(TwoVectors, TwoRows, disk);
    results := db.Search(Query, 1);
    assert db.vectors == TwoVectors && db.metadata == TwoRows;
    TwoRowSearch(1);
    assert results == [SearchResult(Row1, 1.0)];
  }

  method RemoveDocumentScenario(disk: Disk) returns (remaining: seq<ChunkMetadata>)
    requires disk.Valid() && TestFile !in disk.files
    modifies disk
    ensures remaining == [Row2]
  {
    var db := new BasicVectorDB(TestKbId, TestStorageDirectory, DefaultUseFaiss, disk);
    var _ := db.AddVectors(TwoVectors, TwoRows, disk);
    db.RemoveDocument("1");
    remaining := db.metadata;
    assert TwoRows[..1] == [Row1] && TwoRows[..0] == [];
  }

  method EmptySearch(disk: Disk) returns (results: seq<SearchResult>)
    requires disk.Valid() && TestFile !in disk.files
    ensures results == []
  {
    var db := new BasicVectorDB(TestKbId, TestStorageDirectory, DefaultUseFaiss, disk);
    results := db.Search(Query, 10);
  }

  /** A fresh store over the same identity loads exactly what another one saved. */
  method SaveThenLoad(db: BasicVectorDB, disk: Disk) returns (loaded: BasicVectorDB)
    requires db.Valid() && disk.Valid()
    modifies disk
    ensures loaded.Valid() && loaded.kbId == db.kbId && loaded.storageDirectory == db.storageDirectory
    ensures loaded.vectors == db.vectors && loaded.metadata == db.metadata
  {
    db.Save(disk);
    loaded := new BasicVectorDB(db.kbId, db.storageDirectory, db.useFaiss, disk);
    loaded.Load(disk);
  }

  /** A store built over a saved identity starts from the saved rows, without a `load`. */
  method ReopenAfterSave(db: BasicVectorDB, disk: Disk) returns (reopened: BasicVectorDB)
    requires db.Valid() && disk.Valid()
    modifies disk
    ensures reopened.Valid() && reopened.kbId == db.kbId && reopened.storageDirectory == db.storageDirectory
    ensures reopened.vectors == db.vectors && reopened.metadata == db.metadata
  {
    db.Save(disk);
    reopened := new BasicVectorDB(db.kbId, db.storageDirectory, db.useFaiss, disk);
  }

  method SaveAndLoad(disk: Disk) returns (loadedMetadata: seq<ChunkMetadata>)
    requires disk.Valid() && TestFile !in disk.files
    modifies disk
    ensures loadedMetadata == [Row1, Row2]
  {
    var db := new BasicVectorDB(TestKbId, TestStorageDirectory, DefaultUseFaiss, disk);
    var _ := db.AddVectors(TwoVectors, TwoRows, disk);
    var loaded := SaveThenLoad(db, disk);
    loadedMetadata := loaded.metadata;
  }

  method LoadFromDict(disk: Disk) returns (db: BasicVectorDB)
    requires disk.Valid()
    ensures db.kbId == "test_db"
  {
    var config := FromDict(map[SubclassKey := Str(BasicName), KbIdKey := Str("test_db"),
                               StorageDirectoryKey := Str("/tmp")]);
    FromDictReferenceStore();
    db := new BasicVectorDB(config.value.kbId, config.value.storageDirectory, config.value.useFaiss, disk);
  }

  method SaveAndLoadFromDict(disk: Disk) returns (config: Result<StoreConfig, DescriptorError>)
    requires disk.Valid()
    ensures config.Ok? && config.value.BasicConfig? && config.value.kbId == TestKbId
  {
    var db := new BasicVectorDB(TestKbId, TestStorageDirectory, DefaultUseFaiss, disk);
    config := FromDict(db.ToDict());
  }

  method MismatchedInputLengths(disk: Disk) returns (outcome: Outcome<StoreError>, rowCount: nat)
    requires disk.Valid() && TestFile !in disk.files
    modifies disk
    ensures outcome == Fail(ValueError(AddVectorsMismatchMessage))
    ensures rowCount == 0
  {
    var db := new BasicVectorDB(TestKbId, TestStorageDirectory, DefaultUseFaiss, disk);
    outcome := db.AddVectors([[1, 0]], TwoRows, disk);
    rowCount := |db.metadata|;
  }

  method FaissSearch(disk: Disk) returns (faissResults: seq<SearchResult>, plainResults: seq<SearchResult>)
    requires disk.Valid() && TestFile !in disk.files
    modifies disk
    ensures faissResults == plainResults
  {
    var db := new BasicVectorDB(TestKbId, TestStorageDirectory, true, disk);
    var _ := db.AddVectors(TwoVectors, TwoRows, disk);
    faissResults := db.Search(Query, 1);
    db.useFaiss := false;
    plainResults := db.Search(Query, 1);
  }

  method DeleteScenario(disk: Disk) returns (existedBefore: bool, existsAfter: bool)
    requires disk.Valid() && TestFile !in disk.files
    modifies disk
    ensures existedBefore && !existsAfter
  {
    var db := new BasicVectorDB(TestKbId, TestStorageDirectory, true, disk);
    var _ := db.AddVectors(TwoVectors, TwoRows, disk);
    existedBefore := db.vectorStoragePath in disk.files;
    db.Delete(disk);
    existsAfter := db.vectorStoragePath in disk.files;
  }

  method TopKGreaterThanNumVectors(disk: Disk) returns (withFaiss: nat, withoutFaiss: nat)
    requires disk.Valid() && TestFile !in disk.files
    modifies disk
    ensures withFaiss == 2 && withoutFaiss == 2
  {
    var db := new BasicVectorDB(TestKbId, TestStorageDirectory, DefaultUseFaiss, disk);
    var _ := db.AddVectors(TwoVectors, TwoRows, disk);
    db.useFaiss := true;
    var results := db.Search(Query, 3);
    withFaiss := |results|;
    db.useFaiss := false;
    results := db.Search(Query, 3);
    withoutFaiss := |results|;
  }
}
