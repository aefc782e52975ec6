# dsRAG reference vector store, modelled in Dafny

This project models `BasicVectorDB`, the in-process reference vector store of
dsRAG, as its unit tests (`TestVectorDB` in `tests/unit/test_vector_db.py`)
pin it down.
- **Rows.** A store holds two parallel lists: embedding vectors and
  `ChunkMetadata` records (`doc_id`, `chunk_index`, `chunk_header`,
  `chunk_text`).
- **`add_vectors`** appends a batch and persists it. A batch whose two lists
  differ in length is refused whole with a `ValueError`.
- **`search`** returns the `top_k` rows most similar to a query, best first.
  Its `use_faiss` flag picks between a brute-force sort and an accelerated
  exhaustive k-nearest-neighbour scan.
- **`remove_document`** deletes, in place, every row of one document.
- **Persistence.** `save`, `load` and `delete` act on one file at
  `storage_directory/vector_storage/{kb_id}.pkl`.
- **Descriptor.** `to_dict` and `VectorDB.from_dict` rebuild a store's
  configuration from a descriptor that names its class in `subclass_name`.

Files:
- `types.dfy` (`VectorTypes`): vectors, metadata records, search results, errors.
- `similarity.dfy` (`Similarity`): the similarity key and the Cauchy–Schwarz bound.
- `cosine.dfy` (`CosineKeys`): the key as the signed square of the real cosine.
- `ranking.dfy` (`Ranking`): ranking, the top-k promise, both search strategies.
- `storage_path.dfy` (`StoragePaths`): the persisted file's path.
- `descriptor.dfy` (`Descriptors`): `to_dict` / `from_dict`.
- `basic_vector_db.dfy` (`ReferenceStore`): the `BasicVectorDB` class, the disk,
  and the value-level removal and search functions.
- `scenarios.dfy` (`StoreScenarios`): each unit scenario as a verified client of
  the class.

Modelling choices:
- **Disk.** The file system is a `Disk` object holding a map from path to
  snapshot. `save`, `load` and `delete` are updates of that map.
- **Similarity.** Cosine similarity `c` needs a square root. The model ranks
  and reports the exact key `sign(c)·c²`, computed on the integer vectors.
  This key is strictly increasing in `c`, so the ranking is the cosine ranking.
  A test's `similarity >= 0.99` reads `key >= 0.9801`. A zero-norm vector has
  key 0.
- **Ties.** The ranking code is not shown by the unit tests. The model assumes
  that rows with equal similarity keep their insertion order, under both
  strategies.
- **Persisting on add.** `add_vectors` saves the store: the delete scenario
  (lines 210-213) expects the file to exist right after `add_vectors`, with
  no `save` call in between.
- **Loading.** A new store starts from the file at its path when one exists,
  and empty otherwise. This is why tearDown (lines 28-34) removes the file
  after each test: otherwise the next store over `test_db` would start with
  the previous test's rows. Each scenario therefore starts from a disk without
  that file. An explicit `load` (line 116) with no file leaves the rows as
  they are.

## Model

| member | source | states |
|---|---|---|
| `ReferenceStore.BasicVectorDB.constructor` | tests/unit/test_vector_db.py:28-37 | A new store keeps its kb id, storage directory and `use_faiss` flag, and its `vectorStoragePath` is the path derived from directory and kb id. Its rows are those of the file at that path when one exists, and empty otherwise. |
| `ReferenceStore.BasicVectorDB.AddVectors` | tests/unit/test_vector_db.py:139-162 | A length mismatch fails with `ValueError("Error in add_vectors: the number of vectors and metadata items must be the same.")` and changes neither the rows nor the disk. Otherwise both lists grow by exactly the batch, in order, and the store's file then holds the new rows. |
| `ReferenceStore.BasicVectorDB.Search` | tests/unit/test_vector_db.py:164-190 | The result equals `SearchResults` of the current rows whether `useFaiss` is set or not, so the two strategies give identical results. |
| `ReferenceStore.SearchResults` | tests/unit/test_vector_db.py:218-245 | Exactly `min(top_k, row count)` results: none on an empty store, and all rows when `top_k` exceeds the row count. |
| `ReferenceStore.SearchBestFirst` | tests/unit/test_vector_db.py:55-60 | The results are distinct stored rows, each with its own metadata and similarity, in non-increasing similarity order. No row left out is more similar than any row returned. |
| `Ranking.TopK` | tests/unit/test_vector_db.py:55-60 | The brute-force strategy (stable sort, best first, keep `top_k`) meets the top-k promise `IsTopK`: `min(k, n)` distinct rows, strictly ranked, and every row left out ranks after every row returned. |
| `Ranking.ScanTopK` | tests/unit/test_vector_db.py:185-190 | The accelerated strategy, one pass with a bounded buffer of the best rows, returns exactly `TopK` and so meets `IsTopK`. |
| `Ranking.TopKUnique` | tests/unit/test_vector_db.py:185-190 | Any two results meeting the top-k promise for the same keys and `k` are equal row for row, so any conforming strategy agrees with brute force. |
| `Ranking.RankIsRanked` | tests/unit/test_vector_db.py:55-60 | The full sort of the rows is strictly ordered: higher similarity first, equal similarity in insertion order. |
| `Ranking.InsertRanked` | tests/unit/test_vector_db.py:55-60 | Inserting a new row into a ranked list keeps it ranked, adds exactly that row, and grows it by one. |
| `Ranking.InsertIntoPrefix` | tests/unit/test_vector_db.py:185-190 | Inserting into the best `p` rows and keeping `p` agrees with inserting into all rows, which is why a bounded buffer suffices. |
| `Similarity.CosineKey` | tests/unit/test_vector_db.py:60 | The similarity key lies in [-1, 1]. It is 0 when either vector has norm 0. It is positive exactly when the dot product is positive and both norms are non-zero. |
| `CosineKeys.CosineKeyIsSignedSquaredCosine` | tests/unit/test_vector_db.py:60 | For nonzero vectors, the key equals `sign(c)·c²` for the real cosine `c` of query and row. `c` is given by `c²·|q|²·|v|² = (q·v)²` together with the sign of `q·v`. |
| `CosineKeys.KeyValue` | tests/unit/test_vector_db.py:60 | The quotient `sign(d)·d² / (|q|²·|v|²)` that the key computes equals `sign(c)·c²` for that cosine `c`. |
| `Similarity.CauchySchwarz` | tests/unit/test_vector_db.py:60 | `(q·v)² <= |q|²·|v|²` for all integer vectors, which bounds the key like a cosine. |
| `Similarity.UnitVectorKeys` | tests/unit/test_vector_db.py:55-60 | Query `[1,0]` against `[1,0]` has key 1 and against `[0,1]` key 0. |
| `ReferenceStore.BasicVectorDB.RemoveDocument` | tests/unit/test_vector_db.py:80-85 | The in-place deletion loop leaves exactly `KeepMetadata` / `KeepVectors` of the old rows, with the two lists still of equal length. |
| `ReferenceStore.KeepMetadataMembers` | tests/unit/test_vector_db.py:80-85 | After removal, a record is present if and only if it was present before and its `doc_id` differs from the removed id. |
| `ReferenceStore.KeepRowsPaired` | tests/unit/test_vector_db.py:80-85 | Each kept vector stays paired with the metadata record it was stored with. |
| `ReferenceStore.KeepMetadataConcat` | tests/unit/test_vector_db.py:80-85 | Removal distributes over concatenation, so the remaining rows keep their relative order. |
| `ReferenceStore.KeepAbsentIsNoop` | tests/unit/test_vector_db.py:80-81 | Removing a `doc_id` that no row carries leaves both lists unchanged. |
| `ReferenceStore.KeepIdempotent` | tests/unit/test_vector_db.py:80-81 | Removing the same `doc_id` twice equals removing it once. |
| `ReferenceStore.KeepStep` | tests/unit/test_vector_db.py:80-85 | Filtering one more row of a prefix appends that row exactly when its `doc_id` differs, for the vectors and the metadata alike. |
| `ReferenceStore.RemovalDropStep` | tests/unit/test_vector_db.py:80-85 | Deleting the current row when it carries the id keeps the removal loop's invariant. |
| `ReferenceStore.RemovalKeepStep` | tests/unit/test_vector_db.py:80-85 | Stepping past a row with another id keeps the removal loop's invariant. |
| `ReferenceStore.RemovalDone` | tests/unit/test_vector_db.py:80-85 | When the loop ends, the lists are exactly the filtered old rows. |
| `ReferenceStore.BasicVectorDB.Save` | tests/unit/test_vector_db.py:112-113 | The store's file afterwards holds exactly the current rows. Other paths are unchanged. |
| `ReferenceStore.BasicVectorDB.Load` | tests/unit/test_vector_db.py:115-120 | With a file at the store's path, the rows become the file's rows, in order. Without one, the rows are unchanged. |
| `ReferenceStore.BasicVectorDB.Delete` | tests/unit/test_vector_db.py:214-216 | Afterwards no file exists at the store's path. Other paths are unchanged. |
| `ReferenceStore.BasicVectorDB.ToDict` | tests/unit/test_vector_db.py:132-137 | `from_dict(to_dict())` gives a `BasicVectorDB` configuration with the same kb id, storage directory and flag. |
| `StoragePaths.Join` | tests/unit/test_vector_db.py:29-31 | An absolute second component replaces the first. Otherwise the result starts with the first component and ends with the second. |
| `StoragePaths.StoragePathLayout` | tests/unit/test_vector_db.py:29-31 | For a relative kb id the path is `join(storage_directory, "vector_storage") + "/" + kb_id + ".pkl"`. |
| `StoragePaths.StoragePathInjective` | tests/unit/test_vector_db.py:29-31 | Over one directory, distinct relative kb ids get distinct files, so one store's save never overwrites another's file. |
| `StoragePaths.AbsoluteKbIdIgnoresDirectory` | tests/unit/test_vector_db.py:29-31 | An absolute kb id makes the path `kb_id + ".pkl"` whatever the directory, as `os.path.join` does. |
| `StoragePaths.TestStoragePath` | tests/unit/test_vector_db.py:24-31 | The tests' store lives at `~/test__vector_db_dsRAG/vector_storage/test_db.pkl`. |
| `Descriptors.FromDict` | tests/unit/test_vector_db.py:122-130 | Dispatches on `subclass_name`. A missing, non-string or unknown name fails with `UnknownSubclass`. `"BasicVectorDB"` succeeds if and only if `BasicFromArgs` accepts its arguments, and then yields a `BasicVectorDB` configuration carrying the descriptor's `kb_id` and `storage_directory`. A registered delegating name yields that backend with the remaining fields. |
| `Descriptors.BasicFromArgs` | tests/unit/test_vector_db.py:123-128 | `kb_id` and `storage_directory` are required and `use_faiss` is optional; a missing required argument or an extra field is refused. The model also refuses a wrongly typed field (see "## Left out"). Accepted arguments carry over unchanged, and an omitted `use_faiss` takes its default. |
| `Descriptors.BackendNamed` | tests/unit/test_vector_db.py:10-18 | The registry lookup finds a delegating class exactly when the name is one of the registered class names. |
| `Descriptors.RoundTrip` | tests/unit/test_vector_db.py:132-137 | `from_dict(to_dict(c)) == c` for every configuration, so the class and the kb id are preserved. |
| `Descriptors.FromDictReferenceStore` | tests/unit/test_vector_db.py:122-130 | The tests' descriptor yields a `BasicVectorDB` configuration with kb id `"test_db"`. |
| `StoreScenarios.TwoRowSearch` | tests/unit/test_vector_db.py:54-60 | Over rows `[1,0]`/doc "1" and `[0,1]`/doc "2", query `[1,0]` yields `[(doc 1, 1), (doc 2, 0)]` truncated to `min(top_k, 2)`. |
| `StoreScenarios.AddVectorsAndSearch` | tests/unit/test_vector_db.py:36-60 | One result, doc "1", similarity key ≥ 0.9801 (cosine ≥ 0.99). |
| `StoreScenarios.RemoveDocumentScenario` | tests/unit/test_vector_db.py:62-85 | After removing doc "1", the metadata is exactly the doc "2" record. |
| `StoreScenarios.EmptySearch` | tests/unit/test_vector_db.py:87-92 | Search on an empty store returns no results. |
| `StoreScenarios.SaveThenLoad` | tests/unit/test_vector_db.py:112-120 | A fresh store over the same identity loads exactly the vectors and metadata another store saved, in order. |
| `StoreScenarios.ReopenAfterSave` | tests/unit/test_vector_db.py:94-120 | A store built over a saved identity starts with exactly the saved vectors and metadata, in order, without calling `load`. |
| `StoreScenarios.SaveAndLoad` | tests/unit/test_vector_db.py:94-120 | After add, save and load into a new store, the metadata is the doc "1" record, then the doc "2" record. |
| `StoreScenarios.LoadFromDict` | tests/unit/test_vector_db.py:122-130 | A store built from the descriptor has kb id `"test_db"`. |
| `StoreScenarios.SaveAndLoadFromDict` | tests/unit/test_vector_db.py:132-137 | `from_dict(db.to_dict())` succeeds with a `BasicVectorDB` configuration with kb id `"test_db"`. |
| `StoreScenarios.MismatchedInputLengths` | tests/unit/test_vector_db.py:139-162 | One vector against two records fails with the mismatch `ValueError` and leaves the store with no rows. |
| `StoreScenarios.FaissSearch` | tests/unit/test_vector_db.py:164-190 | Search with `use_faiss` on and off returns equal results. |
| `StoreScenarios.DeleteScenario` | tests/unit/test_vector_db.py:192-216 | The file exists after `add_vectors` and is gone after `delete`. |
| `StoreScenarios.TopKGreaterThanNumVectors` | tests/unit/test_vector_db.py:218-245 | `top_k = 3` over two rows returns two results with either strategy. |

## Left out

- Delegating backends (ChromaDB, Weaviate, Qdrant, Postgres, Pinecone). They talk to external services, so their behaviour belongs to those services. Only their names in the `from_dict` registry are modelled.
- Metadata filters (`metadata_filter` of `search`): the reference store's filter semantics do not appear in its scenarios, so `search` takes no filter.
- The FAISS library: `ScanTopK` is an exact one-pass top-k scan that stands for it. Within exact ties FAISS may order rows differently; the model fixes insertion order for both strategies.
- A cached, lazily rebuilt index: the model keeps no index between searches, so no invalidation is modelled.
- Similarity.CosineKey: reports `sign(c)·c²` rather than the floating-point cosine `c`, because square roots and numpy floats are not modelled. `CosineKeys.CosineKeyIsSignedSquaredCosine` ties the key to `c`. That `sign(c)·c²` is strictly increasing in `c`, so the key orders rows as `c` does, is not proved: it is stated in the comments only. The 0.99 threshold becomes 0.9801.
- Similarity.Dot: pairs coordinates up to the shorter vector. Vectors of different dimensions make numpy raise; that error is not modelled.
- Vectors are integer sequences; floating-point vectors and their rounding are not modelled.
- A negative `top_k` (Python slice semantics from the end) is not modelled: `top_k` is a natural number.
- Pickle format, directory creation and I/O errors of `save`/`delete`: the disk is a map from path to snapshot and those operations always succeed.
- `remove_document` changes only the rows in memory. Whether the store writes its file afterwards is not pinned by the scenarios, so it is not modelled.
- `Descriptors.DefaultUseFaiss` (true) stands for the constructor's default `use_faiss`. That default is not visible in the unit tests, but `Search` gives the same results with either value.
- Descriptors.BasicFromArgs: refuses a `kb_id` or `storage_directory` that is not a string, and a `use_faiss` that is not a flag (`WrongFieldType`). A Python keyword call `BasicVectorDB(**args)` does not check types, so this rejection is the model's own. The model's values are only strings and flags, so it cannot carry a mistyped argument into a store.
- `Descriptors.FromDict` builds a configuration, not a live object of a delegating class; constructing those classes is not part of this model.
- `setUp`/`tearDown` and `print` calls are test plumbing. `get_num_vectors` does not appear in the scenarios.
