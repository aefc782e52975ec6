/**
 * The configuration descriptor of a vector store (`to_dict` / `VectorDB.from_dict`):
 * a flat mapping whose `subclass_name` field selects the concrete store class
 * from a closed registry, and whose other fields are that class's constructor
 * arguments.
 */
module Descriptors {
  import opened VectorTypes

  /** A descriptor field's value. */
  datatype Value = Str(s: string) | Flag(b: bool)

  type Descriptor = map<string, Value>

  /** The delegating store classes the registry knows besides the reference store. */
  datatype Backend = Weaviate | Chroma | Qdrant | Postgres | Pinecone

  /** What a descriptor reconstructs: which class, with which arguments. */
  datatype StoreConfig =
    | BasicConfig(kbId: string, storageDirectory: string, useFaiss: bool)
    | DelegatedConfig(backend: Backend, fields: Descriptor)

  datatype DescriptorError =
    | UnknownSubclass(name: Option<string>)
    | MissingField(field: string)
    | WrongFieldType(field: string)
    | UnexpectedField

  const SubclassKey: string := "subclass_name"
  const BasicName: string := "BasicVectorDB"
  const KbIdKey: string := "kb_id"
  const StorageDirectoryKey: string := "storage_directory"
  const UseFaissKey: string := "use_faiss"

  /** The `use_faiss` argument of a descriptor that omits it. */
  const DefaultUseFaiss: bool := true

  function BackendName(b: Backend): (name: string)
  {
    match b
    case Weaviate => "WeaviateVectorDB"
    case Chroma => "ChromaDB"
    case Qdrant => "QdrantVectorDB"
    case Postgres => "PostgresVectorDB"
    case Pinecone => "PineconeDB"
  }

  /** The registry lookup for the delegating classes. */
  function BackendNamed(name: string): (r: Option<Backend>)
    ensures r.Some? ==> BackendName(r.value) == name
    ensures r.None? ==> forall b: Backend :: BackendName(b) != name
  {
    if name == "WeaviateVectorDB" then Some(Weaviate)
    else if name == "ChromaDB" then Some(Chroma)
    else if name == "QdrantVectorDB" then Some(Qdrant)
    else if name == "PostgresVectorDB" then Some(Postgres)
    else if name == "PineconeDB" then Some(Pinecone)
    else None
  }

  /** `to_dict`: the class name plus the constructor arguments. */
  function ToDict(c: StoreConfig): (d: Descriptor)
  {
    match c
    case BasicConfig(kbId, dir, useFaiss) =>
      map[SubclassKey := Str(BasicName), KbIdKey := Str(kbId),
          StorageDirectoryKey := Str(dir), UseFaissKey := Flag(useFaiss)]
    case DelegatedConfig(b, fields) => fields[SubclassKey := Str(BackendName(b))]
  }

  /**
   * `VectorDB.from_dict`: remove `subclass_name`, look the class up, and call its
   * constructor with the remaining fields; an unknown or absent name fails.
   */
  function FromDict(d: Descriptor): (r: Result<StoreConfig, DescriptorError>)
    ensures r.Ok? ==> SubclassKey in d && d[SubclassKey].Str?
    ensures r.Ok? && r.value.BasicConfig? <==>
              r.Ok? && d[SubclassKey] == Str(BasicName)
    ensures r.Ok? && r.value.BasicConfig? ==>
              && KbIdKey in d && d[KbIdKey] == Str(r.value.kbId)
              && StorageDirectoryKey in d && d[StorageDirectoryKey] == Str(r.value.storageDirectory)
    ensures r.Ok? && r.value.DelegatedConfig? ==>
              d[SubclassKey] == Str(BackendName(r.value.backend)) && r.value.fields == d - {SubclassKey}
    ensures (SubclassKey !in d || !d[SubclassKey].Str?) ==> r == Err(UnknownSubclass(None))
    ensures SubclassKey in d && d[SubclassKey] == Str(BasicName) ==>
              (r.Ok? <==> WellTypedBasicArgs(d - {SubclassKey}))
    ensures (SubclassKey in d && d[SubclassKey].Str? && d[SubclassKey].s != BasicName &&
             forall b: Backend :: BackendName(b) != d[SubclassKey].s) ==>
              r == Err(UnknownSubclass(Some(d[SubclassKey].s)))
  {
    if SubclassKey !in d || !d[SubclassKey].Str? then Err(UnknownSubclass(None))
    else
      var name := d[SubclassKey].s;
      var args := d - {SubclassKey};
      if name == BasicName then BasicFromArgs(args)
      else match BackendNamed(name)
        case Some(b) => Ok(DelegatedConfig(b, args))
        case None => Err(UnknownSubclass(Some(name)))
  }

  /** The constructor arguments `BasicVectorDB` accepts, with the types it expects. */
  predicate WellTypedBasicArgs(args: Descriptor)
  {
    && args.Keys <= {KbIdKey, StorageDirectoryKey, UseFaissKey}
    && KbIdKey in args && args[KbIdKey].Str?
    && StorageDirectoryKey in args && args[StorageDirectoryKey].Str?
    && (UseFaissKey in args ==> args[UseFaissKey].Flag?)
  }

  /** `BasicVectorDB(**args)`: kb_id and storage_directory required, use_faiss optional. */
  function BasicFromArgs(args: Descriptor): (r: Result<StoreConfig, DescriptorError>)
    ensures r.Ok? <==> WellTypedBasicArgs(args)
    ensures r.Ok? ==>
      && r.value.BasicConfig?
      && args[KbIdKey] == Str(r.value.kbId)
      && args[StorageDirectoryKey] == Str(r.value.storageDirectory)
      && (UseFaissKey in args ==> args[UseFaissKey] == Flag(r.value.useFaiss))
      && (UseFaissKey !in args ==> r.value.useFaiss == DefaultUseFaiss)
  {
    if !(args.Keys <= {KbIdKey, StorageDirectoryKey, UseFaissKey}) then Err(UnexpectedField)
    else if KbIdKey !in args then Err(MissingField(KbIdKey))
    else if !args[KbIdKey].Str? then Err(WrongFieldType(KbIdKey))
    else if StorageDirectoryKey !in args then Err(MissingField(StorageDirectoryKey))
    else if !args[StorageDirectoryKey].Str? then Err(WrongFieldType(StorageDirectoryKey))
    else if UseFaissKey in args && !args[UseFaissKey].Flag? then Err(WrongFieldType(UseFaissKey))
    else
      var useFaiss := if UseFaissKey in args then args[UseFaissKey].b else DefaultUseFaiss;
      Ok(BasicConfig(args[KbIdKey].s, args[StorageDirectoryKey].s, useFaiss))
  }

  /** A delegated configuration cannot itself carry a `subclass_name` argument. */
  predicate WellFormed(c: StoreConfig)
  {
    c.DelegatedConfig? ==> SubclassKey !in c.fields
  }

  /** `from_dict(to_dict(db))` rebuilds the same class with the same arguments. */
  lemma RoundTrip(c: StoreConfig)
    requires WellFormed(c)
    ensures FromDict(ToDict(c)) == Ok(c)
  {
    match c
    case BasicConfig(kbId, dir, useFaiss) =>
      var args := ToDict(c) - {SubclassKey};
      assert args == map[KbIdKey := Str(kbId), StorageDirectoryKey := Str(dir), UseFaissKey := Flag(useFaiss)];
    case DelegatedConfig(b, fields) =>
      assert BackendName(b) != BasicName;
      assert ToDict(c) - {SubclassKey} == fields;
  }

  /** The descriptor of the tests names the reference store and keeps its kb id. */
  lemma FromDictReferenceStore()
    ensures FromDict(map[SubclassKey := Str(BasicName), KbIdKey := Str("test_db"),
                         StorageDirectoryKey := Str("/tmp")])
         == Ok(BasicConfig("test_db", "/tmp", DefaultUseFaiss))
  {
    var d := map[SubclassKey := Str(BasicName), KbIdKey := Str("test_db"),
                 StorageDirectoryKey := Str("/tmp")];
    assert d - {SubclassKey} == map[KbIdKey := Str("test_db"), StorageDirectoryKey := Str("/tmp")];
  }
}
