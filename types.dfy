/** Values shared by every part of the reference vector store. */
module VectorTypes {

  /** An embedding vector; the tests store small integer vectors such as [1, 0]. */
  type Vector = seq<int>

  /** One chunk's metadata record (a `ChunkMetadata` dictionary in the store). */
  datatype ChunkMetadata = ChunkMetadata(
    docId: string,
    chunkIndex: int,
    chunkHeader: string,
    chunkText: string)

  /** One search hit: the stored metadata and its similarity to the query. */
  datatype SearchResult = SearchResult(metadata: ChunkMetadata, similarity: real)

  /** The store's validation error (a Python `ValueError` with its message). */
  datatype StoreError = ValueError(message: string)

  /** Success or a failure value, for operations that return nothing on success. */
  datatype Outcome<E> = Pass | Fail(error: E)

  /** A value or a failure value. */
  datatype Result<T, E> = Ok(value: T) | Err(error: E)

  datatype Option<T> = None | Some(value: T)

  function Min(a: int, b: int): (m: int)
    ensures m <= a && m <= b && (m == a || m == b)
  {
    if a <= b then a else b
  }
}
