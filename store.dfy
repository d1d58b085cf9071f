/** The vector database as the core sees it: a map from collection name to a
    collection holding its field schema, its vector index and its records.
    The pymilvus calls become the methods of `VectorStore`; the network
    session and its failures are not part of this module (callers model a
    failing call as a fault oracle). */
module Store {
  import opened Results

  type Vector = seq<real>

  datatype DataType = Int64 | VarChar | FloatVector

  /** A field of a collection schema; `maxLength` is meaningful for VARCHAR
      fields and `dim` for vector fields (0 elsewhere). */
  datatype Field = Field(
    name: string,
    dtype: DataType,
    isPrimary: bool,
    autoId: bool,
    maxLength: nat,
    dim: nat)

  datatype IndexParams = IndexParams(metric: string, indexType: string, nlist: nat)

  datatype Index = Index(field: string, params: IndexParams)

  /** A persisted record. The store assigns `id`; it is modelled as the
      record's position in its collection. */
  datatype Record = Record(
    id: nat,
    title: string,
    author: string,
    content: string,
    embedding: Vector,
    createdAt: int)

  /** `flushed` is how many of the records a flush has made durable. */
  datatype Collection = Collection(
    schema: seq<Field>,
    index: Option<Index>,
    records: seq<Record>,
    flushed: nat)

  /** The column-wise batch `collection.insert` takes: one list per non-id
      field, in schema order. */
  datatype Columns = Columns(
    titles: seq<string>,
    authors: seq<string>,
    contents: seq<string>,
    embeddings: seq<Vector>,
    createdAt: seq<int>)

  /** All five columns have the same length. */
  predicate Aligned(c: Columns)
  {
    |c.authors| == |c.titles| && |c.contents| == |c.titles|
    && |c.embeddings| == |c.titles| && |c.createdAt| == |c.titles|
  }

  /** The records an aligned batch becomes, row `k` taking element `k` of
      every column and id `firstId + k`. */
  function Rows(c: Columns, firstId: nat): seq<Record>
    requires Aligned(c)
  {
    seq(|c.titles|, k requires 0 <= k < |c.titles| =>
      Record(firstId + k, c.titles[k], c.authors[k], c.contents[k], c.embeddings[k], c.createdAt[k]))
  }

  /** The collection after an insert: the batch's rows after the existing
      records, nothing else changed. */
  function Appended(col: Collection, c: Columns): Collection
    requires Aligned(c)
  {
    col.(records := col.records + Rows(c, |col.records|))
  }

  /** The collection after a flush: every record durable. */
  function Flushed(col: Collection): Collection
  {
    col.(flushed := |col.records|)
  }

  /** The fields a search hit returns for a record (`output_fields` title,
      author and content). */
  function OutputFields(r: Record): map<string, string>
  {
    map["title" := r.title, "author" := r.author, "content" := r.content]
  }

  class VectorStore {
    var collections: map<string, Collection>

    constructor (initial: map<string, Collection>)
      ensures collections == initial
    {
      collections := initial;
    }

    /** `utility.has_collection`. */
    method HasCollection(name: string) returns (b: bool)
      ensures b <==> name in collections
    {
      b := name in collections;
    }

    /** `Collection(name, schema)` for an absent name: an empty collection
        with that schema and no index. */
    method CreateCollection(name: string, schema: seq<Field>)
      requires name !in collections
      modifies this
      ensures collections == old(collections)[name := Collection(schema, None, [], 0)]
    {
      collections := collections[name := Collection(schema, None, [], 0)];
    }

    /** `collection.create_index(field_name, index_params)`. */
    method CreateIndex(name: string, field: string, params: IndexParams)
      requires name in collections
      modifies this
      ensures collections == old(collections)[name := old(collections)[name].(index := Some(Index(field, params)))]
    {
      collections := collections[name := collections[name].(index := Some(Index(field, params)))];
    }

    /** `collection.insert(columns)`: append-only. */
    method Insert(name: string, c: Columns)
      requires name in collections && Aligned(c)
      modifies this
      ensures collections == old(collections)[name := Appended(old(collections)[name], c)]
    {
      collections := collections[name := Appended(collections[name], c)];
    }

    /** `collection.flush()`. */
    method Flush(name: string)
      requires name in collections
      modifies this
      ensures collections == old(collections)[name := Flushed(old(collections)[name])]
    {
      collections := collections[name := Flushed(collections[name])];
    }
  }
}
