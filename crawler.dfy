/** The ingestion job `crawl_and_save_to_milvus`
    (app/crawler/crawler_scripy.py), from the parsed page onward: poems from
    the page's `div.sons` blocks, one embedding per poem with failed items
    skipped, create-if-absent of the collection, a column-wise insert and a
    flush, and the outcome record. Fetching, logging in and parsing are the
    oracles in `Sources`; store failures are the oracle `StoreFault`. */
module Crawler {
  import opened Results
  import Store
  import Rag

  type Vector = Store.Vector

  datatype Status = Success | Warning | Error

  /** The dictionary the job returns: `status`, `message` and `data`, which
      is `{"count": n}` or `None`. */
  datatype JobResult = JobResult(status: Status, message: string, data: Option<nat>)

  /** The `p.source` tag: its whole text and the texts of its links. */
  datatype SourceTag = SourceTag(text: string, links: seq<string>)

  /** One `div.sons` block: the texts of its first `p`, of its `p.source`
      tag and of its `div.contson`, each absent when the tag is. */
  datatype Block = Block(title: Option<string>, source: Option<SourceTag>, content: Option<string>)

  datatype Poem = Poem(title: string, author: string, content: string, createdAt: int)

  datatype Entity = Entity(title: string, author: string, content: string, embedding: Vector, createdAt: int)

  /** Everything the job reads from outside:
      - `login`: the status code of the login POST, or the failure of
        fetching the login page, the CAPTCHA or the POST itself;
      - `page`: the blocks of the page fetched after logging in, or the
        failure of fetching, saving or parsing it;
      - `clock`: the creation time, in epoch seconds, stamped on block `i`;
      - `apiKey`: the DashScope key (empty when unset);
      - `embed`: the embedder applied to a poem's content, which may fail. */
  datatype Sources = Sources(
    login: Result<int>,
    page: Result<seq<Block>>,
    clock: nat -> int,
    apiKey: string,
    embed: string -> Result<Vector>)

  /** Where the store part of the job raises, if anywhere: connecting; checking
      for or opening the collection; building the index of a collection just
      created; inserting; flushing. */
  datatype StoreFault =
    | NoFault
    | ConnectFault(msg: string)
    | EnsureFault(msg: string)
    | IndexFault(msg: string)
    | InsertFault(msg: string)
    | FlushFault(msg: string)

  /** The job's result and the store's collections afterwards. */
  datatype Run = Run(result: JobResult, collections: map<string, Store.Collection>)

  const LoginOk: int := 200
  const EmbeddingDim: nat := 1024

  const LoginFailed: JobResult := JobResult(Error, "登录失败", None)
  const NothingToInsert: JobResult := JobResult(Warning, "没有数据可插入", None)

  function CrawlError(msg: string): JobResult
  {
    JobResult(Error, "爬虫执行出错: " + msg, None)
  }

  function StoreError(msg: string): JobResult
  {
    JobResult(Error, "插入数据库出错: " + msg, None)
  }

  function Digit(d: nat): char
    requires d < 10
  {
    "0123456789"[d]
  }

  function Decimal(n: nat): string
  {
    if n < 10 then [Digit(n)] else Decimal(n / 10) + [Digit(n % 10)]
  }

  function Stored(count: nat): JobResult
  {
    JobResult(Success, "成功爬取并存储" + Decimal(count) + "首诗", Some(count))
  }

  // ---------------------------------------------------------------------------
  // Poems

  const Dot: char := '·'

  /** The author line: `dynasty·author` from the second and first links when
      the tag has at least two, otherwise the tag's text. */
  function FormatAuthor(tag: SourceTag): (line: string)
    ensures |tag.links| < 2 ==> line == tag.text
    ensures |tag.links| >= 2 ==>
              var n := |tag.links[1]|;
              |line| == n + 1 + |tag.links[0]|
              && line[..n] == tag.links[1] && line[n] == Dot && line[n + 1..] == tag.links[0]
  {
    if |tag.links| >= 2 then tag.links[1] + [Dot] + tag.links[0] else tag.text
  }

  /** Position of the first `c` in `s`, or `|s|`. */
  function IndexOf(s: string, c: char): (i: nat)
    ensures i <= |s|
  {
    if s == [] then 0 else if s[0] == c then 0 else 1 + IndexOf(s[1..], c)
  }

  lemma {:induction false} IndexOfAfterPrefix(a: string, c: char, b: string)
    requires c !in a
    ensures IndexOf(a + [c] + b, c) == |a|
  {
    if a != [] {
      IndexOfAfterPrefix(a[1..], c, b);
      assert (a + [c] + b)[1..] == a[1..] + [c] + b;
    }
  }

  /** The author line can be read back: with two links and a dynasty free of
      the separator, the text before the first `·` is the dynasty (link 1)
      and the text after it the author (link 0). With fewer links the line
      is the tag's own text. */
  lemma AuthorLineReadsBack(tag: SourceTag)
    ensures |tag.links| < 2 ==> FormatAuthor(tag) == tag.text
    ensures |tag.links| >= 2 && Dot !in tag.links[1] ==>
              var line := FormatAuthor(tag);
              var k := IndexOf(line, Dot);
              k < |line| && line[..k] == tag.links[1] && line[k + 1..] == tag.links[0]
  {
    if |tag.links| >= 2 && Dot !in tag.links[1] {
      IndexOfAfterPrefix(tag.links[1], Dot, tag.links[0]);
    }
  }

  /** A block holding all three tags. */
  predicate Complete(b: Block)
  {
    b.title.Some? && b.source.Some? && b.content.Some?
  }

  function PoemOf(b: Block, stamp: int): Option<Poem>
  {
    if Complete(b) then Some(Poem(b.title.value, FormatAuthor(b.source.value), b.content.value, stamp))
    else None
  }

  function PoemOptions(blocks: seq<Block>, clock: nat -> int): seq<Option<Poem>>
  {
    seq(|blocks|, i requires 0 <= i < |blocks| => PoemOf(blocks[i], clock(i)))
  }

  /** The poems of a page. */
  function Poems(blocks: seq<Block>, clock: nat -> int): seq<Poem>
  {
    Somes(PoemOptions(blocks, clock))
  }

  /** Every complete block, and only those, becomes a poem, in document
      order: `from[j]` is the block poem `j` comes from. */
  lemma PoemsFromCompleteBlocks(blocks: seq<Block>, clock: nat -> int)
    ensures var from := SomeIndices(PoemOptions(blocks, clock));
            var poems := Poems(blocks, clock);
            |poems| == |from| <= |blocks|
            && (forall j :: 0 <= j < |from| ==>
                  from[j] < |blocks| && Complete(blocks[from[j]])
                  && poems[j] == Poem(blocks[from[j]].title.value, FormatAuthor(blocks[from[j]].source.value),
                                      blocks[from[j]].content.value, clock(from[j])))
            && (forall j, j' :: 0 <= j < j' < |from| ==> from[j] < from[j'])
            && (forall i :: 0 <= i < |blocks| && Complete(blocks[i]) ==> i in from)
  {
    var xs := PoemOptions(blocks, clock);
    SomesCharacterised(xs);
    var from := SomeIndices(xs);
    forall j | 0 <= j < |from|
      ensures Complete(blocks[from[j]])
      ensures Poems(blocks, clock)[j] == Poem(blocks[from[j]].title.value, FormatAuthor(blocks[from[j]].source.value),
                                              blocks[from[j]].content.value, clock(from[j]))
    {
      assert xs[from[j]] == PoemOf(blocks[from[j]], clock(from[j]));
    }
    forall i | 0 <= i < |blocks| && Complete(blocks[i]) ensures i in from {
      assert xs[i] == PoemOf(blocks[i], clock(i));
    }
  }

  /** The loop over the page's blocks. */
  method ParsePoems(blocks: seq<Block>, clock: nat -> int) returns (poems: seq<Poem>)
    ensures poems == Poems(blocks, clock)
  {
    ghost var xs := PoemOptions(blocks, clock);
    poems := [];
    for i := 0 to |blocks|
      invariant poems == Somes(xs[..i])
    {
      var b := blocks[i];
      assert xs[..i + 1][..i] == xs[..i];
      assert xs[i] == PoemOf(b, clock(i));
      if b.title.Some? && b.source.Some? && b.content.Some? {
        var author := FormatAuthor(b.source.value);
        poems := poems + [Poem(b.title.value, author, b.content.value, clock(i))];
      }
    }
    assert xs[..|blocks|] == xs;
  }

  // ---------------------------------------------------------------------------
  // Embedding

  function EntityOf(p: Poem, embedding: Result<Vector>): Option<Entity>
  {
    match embedding
    case Ok(v) => Some(Entity(p.title, p.author, p.content, v, p.createdAt))
    case Fail(_) => None
  }

  function EntityOptions(poems: seq<Poem>, embed: string -> Result<Vector>): seq<Option<Entity>>
  {
    seq(|poems|, i requires 0 <= i < |poems| => EntityOf(poems[i], embed(poems[i].content)))
  }

  /** The entities of a batch: the poems whose embedding succeeded. */
  function Entities(poems: seq<Poem>, embed: string -> Result<Vector>): seq<Entity>
  {
    Somes(EntityOptions(poems, embed))
  }

  /** How many poems failed to embed. */
  function Failures(poems: seq<Poem>, embed: string -> Result<Vector>): nat
  {
    NoneCount(EntityOptions(poems, embed))
  }

  /** A poem whose embedding fails is skipped and the loop goes on: the
      entities are the other poems, in fetch order, each with its own
      embedding, and there are N minus the number of failures of them. */
  lemma SkipsFailedEmbeddings(poems: seq<Poem>, embed: string -> Result<Vector>)
    ensures var from := SomeIndices(EntityOptions(poems, embed));
            var es := Entities(poems, embed);
            |es| == |from| == |poems| - Failures(poems, embed)
            && (forall j :: 0 <= j < |from| ==>
                  from[j] < |poems| && embed(poems[from[j]].content) == Ok(es[j].embedding)
                  && es[j] == Entity(poems[from[j]].title, poems[from[j]].author, poems[from[j]].content,
                                     es[j].embedding, poems[from[j]].createdAt))
            && (forall j, j' :: 0 <= j < j' < |from| ==> from[j] < from[j'])
            && (forall i :: 0 <= i < |poems| && embed(poems[i].content).Ok? ==> i in from)
  {
    var xs := EntityOptions(poems, embed);
    SomesCharacterised(xs);
    var from := SomeIndices(xs);
    var es := Entities(poems, embed);
    forall j | 0 <= j < |from|
      ensures embed(poems[from[j]].content) == Ok(es[j].embedding)
      ensures es[j] == Entity(poems[from[j]].title, poems[from[j]].author, poems[from[j]].content,
                              es[j].embedding, poems[from[j]].createdAt)
    {
      assert xs[from[j]] == EntityOf(poems[from[j]], embed(poems[from[j]].content));
    }
    forall i | 0 <= i < |poems| && embed(poems[i].content).Ok? ensures i in from {
      assert xs[i] == EntityOf(poems[i], embed(poems[i].content));
    }
  }

  /** When every embedding fails nothing is left to insert. */
  lemma AllFailedLeavesNothing(poems: seq<Poem>, embed: string -> Result<Vector>)
    requires forall i :: 0 <= i < |poems| ==> embed(poems[i].content).Fail?
    ensures Entities(poems, embed) == []
  {
    var xs := EntityOptions(poems, embed);
    forall i | 0 <= i < |xs| ensures xs[i].None? {
      assert xs[i] == EntityOf(poems[i], embed(poems[i].content));
    }
    NoneCountAll(xs);
    SomesAllAbsent(xs);
  }

  /** The DashScope client's `embed_query` never raises, so with it as the
      embedder no poem is skipped. */
  lemma DashScopeEmbedderSkipsNothing(e: Rag.DashScopeEmbedding, service: Rag.EmbeddingService, poems: seq<Poem>)
    ensures var embed := (s: string) => Ok(Rag.EmbedQuery(e, s, service));
            Failures(poems, embed) == 0 && |Entities(poems, embed)| == |poems|
  {
    var embed := (s: string) => Ok(Rag.EmbedQuery(e, s, service));
    var xs := EntityOptions(poems, embed);
    forall i | 0 <= i < |xs| ensures xs[i].Some? {
      assert embed(poems[i].content) == Ok(Rag.EmbedQuery(e, poems[i].content, service));
    }
    NoneCountZero(xs);
    SomesLength(xs);
  }

  /** The loop over the poems. */
  method EmbedPoems(poems: seq<Poem>, embed: string -> Result<Vector>) returns (entities: seq<Entity>)
    ensures entities == Entities(poems, embed)
  {
    ghost var xs := EntityOptions(poems, embed);
    entities := [];
    for i := 0 to |poems|
      invariant entities == Somes(xs[..i])
    {
      var poem := poems[i];
      assert xs[..i + 1][..i] == xs[..i];
      var embedding := embed(poem.content);
      if embedding.Ok? {
        entities := entities + [Entity(poem.title, poem.author, poem.content, embedding.value, poem.createdAt)];
      }
    }
    assert xs[..|poems|] == xs;
  }

  // ---------------------------------------------------------------------------
  // Collection and insert

  /** The six-field schema of a collection the job creates. */
  const PoemSchema: seq<Store.Field> := [
    Store.Field("id", Store.Int64, true, true, 0, 0),
    Store.Field("title", Store.VarChar, false, false, 256, 0),
    Store.Field("author", Store.VarChar, false, false, 256, 0),
    Store.Field("content", Store.VarChar, false, false, 20000, 0),
    Store.Field("embedding", Store.FloatVector, false, false, 0, EmbeddingDim),
    Store.Field("created_at", Store.Int64, false, false, 0, 0)
  ]

  const PoemIndex: Store.IndexParams := Store.IndexParams("IP", "IVF_FLAT", 128)

  function NewPoemCollection(): Store.Collection
  {
    Store.Collection(PoemSchema, Some(Store.Index("embedding", PoemIndex)), [], 0)
  }

  /** The collections after the job made sure `name` exists. */
  function Ensured(m: map<string, Store.Collection>, name: string): map<string, Store.Collection>
  {
    if name in m then m else m[name := NewPoemCollection()]
  }

  /** Ensure-collection is idempotent and touches only its own name: an
      existing collection is kept as it is, schema, index and records; an
      absent one is created empty with the six-field schema (1024-dimensional
      embedding) and an IP / IVF_FLAT / nlist 128 index on the embedding. */
  lemma EnsureCollectionIdempotent(m: map<string, Store.Collection>, name: string)
    ensures Ensured(Ensured(m, name), name) == Ensured(m, name)
    ensures name in Ensured(m, name)
    ensures name in m ==> Ensured(m, name) == m
    ensures name !in m ==>
              && Ensured(m, name)[name] == NewPoemCollection()
              && Ensured(m, name)[name].schema[4].dim == 1024
              && Ensured(m, name)[name].index == Some(Store.Index("embedding", Store.IndexParams("IP", "IVF_FLAT", 128)))
    ensures forall k :: k in m ==> k in Ensured(m, name) && Ensured(m, name)[k] == m[k]
  {
  }

  /** The column-wise form of the batch. */
  function ColumnsOf(es: seq<Entity>): Store.Columns
  {
    Store.Columns(
      seq(|es|, k requires 0 <= k < |es| => es[k].title),
      seq(|es|, k requires 0 <= k < |es| => es[k].author),
      seq(|es|, k requires 0 <= k < |es| => es[k].content),
      seq(|es|, k requires 0 <= k < |es| => es[k].embedding),
      seq(|es|, k requires 0 <= k < |es| => es[k].createdAt))
  }

  /** The record a stored row holds, without its id. */
  function EntityOfRecord(r: Store.Record): Entity
  {
    Entity(r.title, r.author, r.content, r.embedding, r.createdAt)
  }

  /** Splitting the batch into columns loses nothing: the five columns have
      the batch's length, and the rows the store builds from them are the
      entities again, index by index. */
  lemma ColumnsRoundTrip(es: seq<Entity>, firstId: nat)
    ensures Store.Aligned(ColumnsOf(es)) && |ColumnsOf(es).titles| == |es|
    ensures var rows := Store.Rows(ColumnsOf(es), firstId);
            |rows| == |es|
            && forall k :: 0 <= k < |es| ==> EntityOfRecord(rows[k]) == es[k] && rows[k].id == firstId + k
  {
  }

  /** The collections after a fault-free insert of `batch` into `name`. */
  function Inserted(batch: seq<Entity>, name: string, m: map<string, Store.Collection>): map<string, Store.Collection>
  {
    var m1 := Ensured(m, name);
    var cols := ColumnsOf(batch);
    assert Store.Aligned(cols) by { ColumnsRoundTrip(batch, 0); }
    m1[name := Store.Appended(m1[name], cols)]
  }

  /** The store part of the job, for a non-empty batch: it succeeds, with the
      batch size as its count, exactly when no store call fails (an index
      fault cannot strike a collection that already exists, since the index
      is built only on creation); every failure is an `error` with no data. */
  function SaveBatch(batch: seq<Entity>, name: string, fault: StoreFault, m: map<string, Store.Collection>): (r: Run)
    ensures batch != [] ==> WellFormed(r.result)
    ensures r.result.status == Success <==> fault.NoFault? || (fault.IndexFault? && name in m)
    ensures r.result.status == Success ==> r.result.data == Some(|batch|)
    ensures r.result.status != Success ==> r.result.status == Error && r.result.data == None
  {
    if fault.ConnectFault? || fault.EnsureFault? then Run(StoreError(fault.msg), m)
    else if fault.IndexFault? && name !in m then
      Run(StoreError(fault.msg), m[name := Store.Collection(PoemSchema, None, [], 0)])
    else if fault.InsertFault? then Run(StoreError(fault.msg), Ensured(m, name))
    else
      var m2 := Inserted(batch, name, m);
      if fault.FlushFault? then Run(StoreError(fault.msg), m2)
      else Run(Stored(|batch|), m2[name := Store.Flushed(m2[name])])
  }

  /** The entities a run embeds from a fetched page. */
  function Batch(src: Sources, blocks: seq<Block>): seq<Entity>
  {
    Entities(Poems(blocks, src.clock), src.embed)
  }

  /** What `crawl_and_save_to_milvus` returns and leaves in the store. The
      outcome record is always well-formed, and the store is touched only by
      a run that logged in, fetched the page, had a key and embedded at least
      one poem; a success counts exactly that run's batch. */
  function Crawl(src: Sources, name: string, fault: StoreFault, m: map<string, Store.Collection>): (r: Run)
    ensures WellFormed(r.result)
    ensures r.collections != m || r.result.status == Success ==>
              src.login == Ok(LoginOk) && src.page.Ok? && src.apiKey != ""
              && Batch(src, src.page.value) != []
    ensures r.result.status == Success ==> r.result.data == Some(|Batch(src, src.page.value)|)
  {
    match src.login
    case Fail(e) => Run(CrawlError(e), m)
    case Ok(status) =>
      if status != LoginOk then Run(LoginFailed, m)
      else
        match src.page
        case Fail(e) => Run(CrawlError(e), m)
        case Ok(blocks) =>
          match Rag.NewDashScopeEmbedding(src.apiKey)
          case Fail(e) => Run(CrawlError(e), m)
          case Ok(_) =>
            var batch := Batch(src, blocks);
            if batch == [] then Run(NothingToInsert, m)
            else SaveBatch(batch, name, fault, m)
  }

  /** The `try` block around the store calls. */
  method SaveToMilvus(store: Store.VectorStore, name: string, batch: seq<Entity>, fault: StoreFault)
    returns (r: JobResult)
    modifies store
    ensures Run(r, store.collections) == SaveBatch(batch, name, fault, old(store.collections))
  {
    ghost var m := store.collections;
    if fault.ConnectFault? || fault.EnsureFault? {
      return StoreError(fault.msg);
    }
    var present := store.HasCollection(name);
    if !present {
      store.CreateCollection(name, PoemSchema);
      if fault.IndexFault? {
        return StoreError(fault.msg);
      }
      store.CreateIndex(name, "embedding", PoemIndex);
    }
    assert store.collections == Ensured(m, name);
    var columns := ColumnsOf(batch);
    ColumnsRoundTrip(batch, 0);
    if fault.InsertFault? {
      return StoreError(fault.msg);
    }
    store.Insert(name, columns);
    assert store.collections == Inserted(batch, name, m);
    if fault.FlushFault? {
      return StoreError(fault.msg);
    }
    store.Flush(name);
    r := Stored(|batch|);
  }

  /** The job itself. */
  method CrawlAndSaveToMilvus(src: Sources, store: Store.VectorStore, name: string, fault: StoreFault)
    returns (r: JobResult)
    modifies store
    ensures Run(r, store.collections) == Crawl(src, name, fault, old(store.collections))
  {
    if src.login.Fail? {
      return CrawlError(src.login.msg);
    }
    if src.login.value != LoginOk {
      return LoginFailed;
    }
    if src.page.Fail? {
      return CrawlError(src.page.msg);
    }
    var poems := ParsePoems(src.page.value, src.clock);
    var embedder := Rag.NewDashScopeEmbedding(src.apiKey);
    if embedder.Fail? {
      return CrawlError(embedder.msg);
    }
    var entities := EmbedPoems(poems, src.embed);
    if entities == [] {
      return NothingToInsert;
    }
    r := SaveToMilvus(store, name, entities, fault);
  }

  // ---------------------------------------------------------------------------
  // Properties of a run

  /** The outcome record is always one of the three shapes: `data` is `None`
      for `error` and `warning`, and `{"count": n}` with `n > 0` for
      `success`. */
  predicate WellFormed(r: JobResult)
  {
    match r.status
    case Success => r.data.Some? && r.data.value > 0
    case Warning => r.data == None
    case Error => r.data == None
  }

  /** A rejected login ends the run before any parsing or store access. */
  lemma LoginRejectedStopsEarly(src: Sources, name: string, fault: StoreFault, m: map<string, Store.Collection>)
    requires src.login.Ok? && src.login.value != LoginOk
    ensures Crawl(src, name, fault, m) == Run(JobResult(Error, "登录失败", None), m)
  {
  }

  /** Every failure before the store that is not a rejected login is an
      `error` carrying the exception's text, and leaves the store as it was:
      a raising login, a failing page fetch after a good login, and a missing
      API key after the page was fetched. */
  lemma OtherFailureIsCrawlError(src: Sources, name: string, fault: StoreFault, m: map<string, Store.Collection>)
    ensures src.login.Fail? ==>
              Crawl(src, name, fault, m) == Run(JobResult(Error, "爬虫执行出错: " + src.login.msg, None), m)
    ensures src.login == Ok(LoginOk) && src.page.Fail? ==>
              Crawl(src, name, fault, m) == Run(JobResult(Error, "爬虫执行出错: " + src.page.msg, None), m)
    ensures src.login == Ok(LoginOk) && src.page.Ok? && src.apiKey == "" ==>
              Crawl(src, name, fault, m) == Run(JobResult(Error, "爬虫执行出错: DashScope API Key未设置", None), m)
  {
    if src.login.Fail? {
      assert Crawl(src, name, fault, m) == Run(CrawlError(src.login.msg), m);
    } else if src.login == Ok(LoginOk) && src.page.Fail? {
      assert Crawl(src, name, fault, m) == Run(CrawlError(src.page.msg), m);
    } else if src.login == Ok(LoginOk) && src.apiKey == "" {
      assert Crawl(src, name, fault, m) == Run(CrawlError(Rag.MissingApiKey), m);
    }
  }

  /** A run that gets as far as embedding and is left with no entity (no
      complete block, or every embedding failed) warns and leaves the store
      as it was, whatever the store would have done. */
  lemma EmptyBatchWarns(src: Sources, name: string, fault: StoreFault, m: map<string, Store.Collection>)
    requires src.login == Ok(LoginOk) && src.page.Ok? && src.apiKey != ""
    requires forall i :: 0 <= i < |Poems(src.page.value, src.clock)| ==>
               src.embed(Poems(src.page.value, src.clock)[i].content).Fail?
    ensures Crawl(src, name, fault, m) == Run(JobResult(Warning, "没有数据可插入", None), m)
  {
    AllFailedLeavesNothing(Poems(src.page.value, src.clock), src.embed);
  }

  /** The records of `name` before the job: none if it does not exist. */
  function Before(m: map<string, Store.Collection>, name: string): seq<Store.Record>
  {
    if name in m then m[name].records else []
  }

  /** A fault-free insert appends the batch's rows, ids continuing from the
      existing records, to the (possibly new) collection and changes nothing
      else. */
  lemma InsertedAppends(batch: seq<Entity>, name: string, m: map<string, Store.Collection>)
    ensures var before := Before(m, name);
            var after := Inserted(batch, name, m);
            name in after
            && after[name].records == before + Store.Rows(ColumnsOf(batch), |before|)
            && after[name].schema == Ensured(m, name)[name].schema
            && after[name].index == Ensured(m, name)[name].index
            && (forall k :: k in m && k != name ==> k in after && after[k] == m[k])
  {
    ColumnsRoundTrip(batch, 0);
  }

  /** A fault-free save reports success with the batch size, leaves the
      collection holding the inserted records, all of them flushed, and
      changes no other collection. */
  lemma SaveBatchSucceeds(batch: seq<Entity>, name: string, m: map<string, Store.Collection>)
    ensures var run := SaveBatch(batch, name, NoFault, m);
            run.result == JobResult(Success, "成功爬取并存储" + Decimal(|batch|) + "首诗", Some(|batch|))
            && name in run.collections
            && run.collections[name].records == Inserted(batch, name, m)[name].records
            && run.collections[name].flushed == |run.collections[name].records|
            && (forall k :: k in m && k != name ==> k in run.collections && run.collections[k] == m[k])
  {
    InsertedAppends(batch, name, m);
  }

  /** Rows appended after `before`, ids continuing from it, leave `before`
      as a prefix followed by exactly the batch. */
  lemma RowsAfter(before: seq<Store.Record>, batch: seq<Entity>)
    ensures var after := before + Store.Rows(ColumnsOf(batch), |before|);
            |after| == |before| + |batch|
            && after[..|before|] == before
            && forall k :: 0 <= k < |batch| ==> EntityOfRecord(after[|before| + k]) == batch[k]
  {
    ColumnsRoundTrip(batch, |before|);
    var rows := Store.Rows(ColumnsOf(batch), |before|);
    var after := before + rows;
    assert after[..|before|] == before;
    forall k | 0 <= k < |batch| ensures EntityOfRecord(after[|before| + k]) == batch[k] {
      assert after[|before| + k] == rows[k];
    }
  }

  /** After a fault-free insert the collection holds its previous records
      (none if it was just created) followed by exactly the batch. */
  lemma InsertedKeepsBatch(batch: seq<Entity>, name: string, m: map<string, Store.Collection>)
    ensures var before := Before(m, name);
            var after := Inserted(batch, name, m);
            name in after
            && |after[name].records| == |before| + |batch|
            && after[name].records[..|before|] == before
            && (forall k :: 0 <= k < |batch| ==> EntityOfRecord(after[name].records[|before| + k]) == batch[k])
  {
    InsertedAppends(batch, name, m);
    RowsAfter(Before(m, name), batch);
  }

  /** A run without store faults and with a non-empty batch reports success
      with the batch size, which is the number of poems minus the number of
      failed embeddings, and appends exactly the batch (`SaveBatchSucceeds`, `InsertedKeepsBatch`). */
  lemma SuccessfulRunAppendsBatch(src: Sources, name: string, m: map<string, Store.Collection>)
    requires src.login == Ok(LoginOk) && src.page.Ok? && src.apiKey != ""
    requires Batch(src, src.page.value) != []
    ensures var batch := Batch(src, src.page.value);
            Crawl(src, name, NoFault, m) == SaveBatch(batch, name, NoFault, m)
            && Crawl(src, name, NoFault, m).result.data == Some(|batch|)
            && |batch| == |Poems(src.page.value, src.clock)| - Failures(Poems(src.page.value, src.clock), src.embed)
  {
    SkipsFailedEmbeddings(Poems(src.page.value, src.clock), src.embed);
  }

  /** Any store failure on a non-empty batch is reported as an `error` whose
      message carries the failure, with no data. The index is built only for
      a collection the run creates, so an index fault needs an absent one. */
  lemma StoreFaultIsError(src: Sources, name: string, fault: StoreFault, m: map<string, Store.Collection>)
    requires src.login == Ok(LoginOk) && src.page.Ok? && src.apiKey != ""
    requires Batch(src, src.page.value) != [] && !fault.NoFault?
    requires fault.IndexFault? ==> name !in m
    ensures Crawl(src, name, fault, m).result == JobResult(Error, "插入数据库出错: " + fault.msg, None)
  {
  }

  /** The store part keeps, whatever fails, every existing collection's
      schema and index, and its records as a prefix. */
  lemma SaveBatchIsAppendOnly(batch: seq<Entity>, name: string, fault: StoreFault, m: map<string, Store.Collection>)
    ensures var after := SaveBatch(batch, name, fault, m).collections;
            forall k :: k in m ==>
              k in after && after[k].schema == m[k].schema && after[k].index == m[k].index
              && |m[k].records| <= |after[k].records| && after[k].records[..|m[k].records|] == m[k].records
  {
    InsertedAppends(batch, name, m);
    if name in m {
      var before := m[name].records;
      var after := Inserted(batch, name, m)[name].records;
      assert after[..|before|] == before;
    }
  }

  /** The store is append-only under the job, whatever fails: every existing
      collection keeps its schema, its index and its records as a prefix. */
  lemma CrawlIsAppendOnly(src: Sources, name: string, fault: StoreFault, m: map<string, Store.Collection>)
    ensures var after := Crawl(src, name, fault, m).collections;
            forall k :: k in m ==>
              k in after && after[k].schema == m[k].schema && after[k].index == m[k].index
              && |m[k].records| <= |after[k].records| && after[k].records[..|m[k].records|] == m[k].records
  {
    if src.login == Ok(LoginOk) && src.page.Ok? && src.apiKey != "" {
      SaveBatchIsAppendOnly(Batch(src, src.page.value), name, fault, m);
    }
  }

  /** Creating a collection whose index then fails to build leaves it without
      an index, and a later run finds it present and never builds one. */
  lemma IndexFaultIsNotRepaired(src: Sources, name: string, m: map<string, Store.Collection>)
    requires src.login == Ok(LoginOk) && src.page.Ok? && src.apiKey != ""
    requires Batch(src, src.page.value) != [] && name !in m
    ensures var after := Crawl(src, name, IndexFault("index"), m).collections;
            name in after && after[name].index == None
            && Ensured(after, name)[name].index == None
  {
  }

  /** The search side queries the same vector field with the metric the
      created index uses, which is the metric the similarity normalisation
      assumes. */
  lemma SearchUsesIndexMetric(v: Vector, topK: int)
    ensures Rag.SearchRequestFor(v, topK).metric == PoemIndex.metric
    ensures Rag.SearchRequestFor(v, topK).annsField == NewPoemCollection().index.value.field
    ensures Rag.Dimension == EmbeddingDim
  {
  }
}
