/**
 * Where a reference store persists its rows: a path that depends only on the
 * storage directory and the knowledge-base id,
 * `storage_directory/vector_storage/{kb_id}.pkl`, joined as POSIX
 * `os.path.join` joins two components.
 */
module StoragePaths {

  const VectorStorageDir: string := "vector_storage"
  const PickleSuffix: string := ".pkl"

  predicate IsAbsolute(p: string)
  {
    |p| > 0 && p[0] == '/'
  }

  /**
   * POSIX `os.path.join(a, b)`: an absolute b replaces a; otherwise a separator
   * is inserted unless a is empty or already ends in one.
   */
  function Join(a: string, b: string): (r: string)
    ensures IsAbsolute(b) ==> r == b
    ensures !IsAbsolute(b) ==> |r| >= |a| + |b| && r[..|a|] == a && r[|r| - |b|..] == b
  {
    if IsAbsolute(b) then b
    else if a == [] || a[|a| - 1] == '/' then a + b
    else a + "/" + b
  }

  /** `os.path.join(storage_directory, "vector_storage", f"{kb_id}.pkl")` */
  function StoragePath(storageDirectory: string, kbId: string): (path: string)
  {
    Join(Join(storageDirectory, VectorStorageDir), kbId + PickleSuffix)
  }

  /**
   * For a relative kb id the file sits in the directory's `vector_storage`
   * folder and is named after the kb id.
   */
  lemma StoragePathLayout(storageDirectory: string, kbId: string)
    requires !IsAbsolute(kbId)
    ensures StoragePath(storageDirectory, kbId)
         == Join(storageDirectory, VectorStorageDir) + "/" + kbId + PickleSuffix
  {
    var dir := Join(storageDirectory, VectorStorageDir);
    assert dir[|dir| - |VectorStorageDir|..] == VectorStorageDir;
    assert dir[|dir| - 1] == 'e';
    assert !IsAbsolute(kbId + PickleSuffix) by {
      if kbId == [] {
        assert (kbId + PickleSuffix)[0] == '.';
      } else {
        assert (kbId + PickleSuffix)[0] == kbId[0];
      }
    }
  }

  /**
   * Two stores over the same directory with different relative kb ids never
   * share a file, so saving one cannot overwrite the other.
   */
  lemma StoragePathInjective(storageDirectory: string, kb1: string, kb2: string)
    requires !IsAbsolute(kb1) && !IsAbsolute(kb2)
    requires StoragePath(storageDirectory, kb1) == StoragePath(storageDirectory, kb2)
    ensures kb1 == kb2
  {
    StoragePathLayout(storageDirectory, kb1);
    StoragePathLayout(storageDirectory, kb2);
    var prefix := Join(storageDirectory, VectorStorageDir) + "/";
    var p1, p2 := prefix + kb1 + PickleSuffix, prefix + kb2 + PickleSuffix;
    assert |kb1| == |kb2|;
    assert p1[|prefix|..|prefix| + |kb1|] == kb1;
    assert p2[|prefix|..|prefix| + |kb2|] == kb2;
  }

  /** An absolute kb id discards the storage directory, as `os.path.join` does. */
  lemma AbsoluteKbIdIgnoresDirectory(dir1: string, dir2: string, kbId: string)
    requires IsAbsolute(kbId)
    ensures StoragePath(dir1, kbId) == StoragePath(dir2, kbId) == kbId + PickleSuffix
  {
    assert (kbId + PickleSuffix)[0] == kbId[0];
  }

  /** The path of the store the tests use. */
  lemma TestStoragePath()
    ensures StoragePath("~/test__vector_db_dsRAG", "test_db")
         == "~/test__vector_db_dsRAG/vector_storage/test_db.pkl"
  {
    StoragePathLayout("~/test__vector_db_dsRAG", "test_db");
    assert "~/test__vector_db_dsRAG"[|"~/test__vector_db_dsRAG"| - 1] == 'G';
  }
}
