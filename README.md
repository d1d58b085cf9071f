# RAGDEMO core, modelled in Dafny

RAGDEMO has two halves: a nightly crawl that fills a Milvus collection with
classical Chinese poems and their DashScope embeddings, and a
retrieval-augmented answering service that retrieves poems and asks a chat
model to write a new one. Around the HTTP, Milvus and model calls sits a
small layer of decisions and bookkeeping, and this project models that
layer:

- `scheduler.dfy` (module `Scheduler`): the scheduler manager. It holds a
  running flag, the job table with the single `crawler_task` job, and the
  last-result map that scheduled and manual runs both overwrite. It also
  has the wrapper that turns any exception into an `error` outcome and the
  task-info listing.
- `crawler.dfy` (module `Crawler`): the ingestion job from the parsed page
  onward. This covers the author line, the filter that keeps complete
  blocks, the embed-or-skip loop, create-if-absent of the collection
  (six-field schema, 1024-dimensional vectors, IP / IVF_FLAT / nlist 128),
  and the column-wise insert and flush. It also covers the three outcome
  shapes and their messages.
- `rag.py`'s logic, in `rag.dfy` (module `Rag`):
  - the zero-vector fallbacks of the embedding client;
  - the search loop that maps hits to documents, with the similarity
    `(d + 1) / 2` and the metadata defaults;
  - the error document that replaces an exception;
  - the context and the two-message prompt;
  - the fallback answer;
  - the composition `query = search, then generate_answer`.
- `llm.dfy` (module `Llm`): the provider factory. It does a case-insensitive
  lookup of `deepseek` and `dashscope`, rejects unknown keys and re-raises
  construction failures. It also holds the fixed sampling parameters
  (temperature 0.7, 1000 tokens) and the first-choice answer.
- `store.dfy` (module `Store`): the vector store as the core sees it. It is
  a map from collection name to schema, index, records and flush mark,
  updated in place by the `VectorStore` class.
- `results.dfy` (module `Results`): `Option`, `Result` (a value or the text
  of an exception) and the "keep what succeeded" specification shared by
  the appending loops.

Every network or library call is a parameter:
- an embedding service, a store search and a chat service;
- a login status and a parsed page;
- a store fault telling where the store part of a crawl raises;
- a clock that stamps each block;
- the next fire time of a job.

Code that works step by step is written as methods. That covers the
scheduler class, the crawl with its two loops and its store updates, the
nested search loop, and `get_task_info`. Each method is proved equal to a
specification function, and the lemmas are stated about those functions.

## Model

| member | source | states |
|---|---|---|
| Llm.Lookup | app/llm/llm.py:72-77 | DeepSeek exactly when the key lower-cases to `deepseek`, DashScope exactly when it lower-cases to `dashscope`, nothing otherwise |
| Llm.LookupIgnoresCase | app/llm/llm.py:72-77 | a key and its lower-cased form select the same client |
| Llm.DefaultSelectsDeepSeek | app/llm/llm.py:67-77 | the default key `deepseek` and the spelling `DeepSeek` both select the DeepSeek client |
| Llm.CreateLlmClient | app/llm/llm.py:67-88 | a client is returned iff the key is recognised and the variant's constructor succeeds, and it is of the selected variant; an unknown key fails with `不支持的模型提供商: ` and the key as given; a constructor failure is re-raised with its own message |
| Llm.Request | app/llm/llm.py:35-41 | the request passes the messages unchanged with temperature 0.7, 1000 max tokens, and the variant's model and endpoint |
| Llm.GetCompletion | app/llm/llm.py:35-44 | succeeds iff the call succeeds with at least one choice, and then returns the first choice's content |
| Llm.VariantsShareSampling | app/llm/llm.py:56-65 | the two variants send the same conversation with the same sampling parameters and differ only in model and endpoint |
| Store.VectorStore.HasCollection | app/crawler/crawler_scripy.py:205 | true exactly when the name is a collection |
| Store.VectorStore.CreateCollection | app/crawler/crawler_scripy.py:219-222 | adds an empty collection with the schema and no index; every other collection is unchanged |
| Store.VectorStore.CreateIndex | app/crawler/crawler_scripy.py:225-226 | sets that collection's index and changes nothing else |
| Store.VectorStore.Insert | app/crawler/crawler_scripy.py:240-246 | appends the batch's rows after the existing records and changes nothing else |
| Store.VectorStore.Flush | app/crawler/crawler_scripy.py:248 | marks every record of that collection durable and changes nothing else |
| Rag.NewDashScopeEmbedding | app/rag/rag.py:35-40 | the client is built iff the key is set, and it then carries that key; otherwise it fails with `DashScope API Key未设置` |
| Rag.EmbedQuery | app/rag/rag.py:47-77 | the first item's vector for a 200 reply in which that vector can be read, whatever the other items hold; 1024 zeros on any other status, an exception, or when the first vector cannot be read |
| Rag.EmbedDocuments | app/rag/rag.py:79-112 | `[]` for no documents; one 1024-zero vector per document when the call fails or any item's vector cannot be read; otherwise every item's vector, in order |
| Rag.EmbeddingsKeepDimension | app/rag/rag.py:47-112 | with a service that answers in the requested dimension, every vector either call yields has 1024 components, fallbacks included |
| Rag.SingleTextEmbeddingsAgree | app/rag/rag.py:47-112 | on one text, `embed_documents` returns exactly `[embed_query(text)]` unless a reply whose item list was read holds other than one item |
| Rag.PartlyReadableReply | app/rag/rag.py:47-112 | a reply whose first vector is readable but a later one is not gives `embed_documents` only zero vectors, while `embed_query` on a single text takes the first vector |
| Rag.Similarity | app/rag/rag.py:187 | distances in [-1, 1] give similarities in [0, 1]; 1 maps to 1, -1 to 0 and 0 to 0.5 |
| Rag.HitFieldsOrDefaults | app/rag/rag.py:186-194 | a hit's document has the normalised distance as similarity, and each output field or its default `未知标题`, `未知作者`, `""` |
| Rag.HitOfRecord | app/rag/rag.py:174-192 | a hit on a stored record gives back that record's title, author and content |
| Rag.DocumentsOfHits | app/rag/rag.py:184-195 | each hit becomes exactly one document, at the same position |
| Rag.CollectDocuments | app/rag/rag.py:183-197 | the nested loop returns the documents of every hit list, list after list, in hit order |
| Rag.Retrieve | app/rag/rag.py:158-208 | with no collection or a failed store search, the result is exactly one document titled `查询错误`, by `系统`, with similarity 0.0 |
| Rag.Search | app/rag/rag.py:158-208 | `search` returns exactly the specified retrieval: the error document on any failure, otherwise the documents of the store's hits |
| Rag.SearchFailureIsErrorDocument | app/rag/rag.py:158-208 | the error document's content is `查询出错: ` followed by `Milvus连接不可用` when there is no collection, and by the store's message when the search fails |
| Rag.SearchMapsHitsInOrder | app/rag/rag.py:174-197 | for one hit list, the documents are the hits in order, one each; at most top-k when the store returns at most top-k; sorted by similarity when the hits are sorted by distance; similarities in [0, 1] |
| Rag.SortedHitsSortedDocuments | app/rag/rag.py:187 | the normalisation is monotone, so descending distances give descending similarities |
| Rag.Context | app/rag/rag.py:215-218 | the context is empty exactly when there are no documents |
| Rag.ContextAppend | app/rag/rag.py:215-218 | adding a document to a non-empty list adds a blank line and the document's `标题/作者/内容` text |
| Rag.ContextHoldsEveryDocument | app/rag/rag.py:215-218 | every document's text occurs in the context |
| Rag.Prompt | app/rag/rag.py:223-226 | exactly two messages: the fixed system instruction, then a user message that contains both the context and the query |
| Rag.GenerateAnswer | app/rag/rag.py:210-236 | the answer is the first choice of the reply to exactly this prompt, or the fixed fallback when the call fails or returns no choice |
| Rag.Query | app/rag/rag.py:238-250 | the result carries the query, the documents `search` returns, and the answer generated from those documents |
| Rag.EmptyStoreQuery | app/rag/rag.py:238-250 | against a store with no records the query finds no documents, and the user message is built from an empty context |
| Crawler.FormatAuthor | app/crawler/crawler_scripy.py:129-135 | with two links the line is link 1, then `·`, then link 0, position by position; with fewer links it is the tag's text |
| Crawler.AuthorLineReadsBack | app/crawler/crawler_scripy.py:129-135 | with two links the author line is `dynasty·author` from links 1 and 0, and, when the dynasty text holds no `·`, splitting the line at the first `·` gives both back; with fewer links it is the tag's text |
| Crawler.PoemsFromCompleteBlocks | app/crawler/crawler_scripy.py:121-145 | exactly the blocks with title, source and content become poems, in document order, each with its formatted author and its block's time stamp |
| Crawler.ParsePoems | app/crawler/crawler_scripy.py:120-145 | the block loop computes the poems of the page |
| Crawler.SkipsFailedEmbeddings | app/crawler/crawler_scripy.py:166-191 | the entities are exactly the poems whose embedding succeeded, in fetch order, each with its own embedding; there are N minus the number of failures |
| Crawler.AllFailedLeavesNothing | app/crawler/crawler_scripy.py:166-191 | when every embedding fails there is no entity |
| Crawler.DashScopeEmbedderSkipsNothing | app/crawler/crawler_scripy.py:175-191 | with `embed_query` as the embedder no poem fails and every poem becomes an entity |
| Crawler.EmbedPoems | app/crawler/crawler_scripy.py:161-191 | the embedding loop computes the entities of the batch |
| Crawler.EnsureCollectionIdempotent | app/crawler/crawler_scripy.py:205-230 | an existing collection is kept as it is; an absent one is created with the six-field schema (1024-dimensional embedding) and the IP / IVF_FLAT / 128 index; ensuring twice is ensuring once; other collections are untouched |
| Crawler.ColumnsRoundTrip | app/crawler/crawler_scripy.py:233-246 | the five columns are as long as the batch, and the rows built from them are the entities again, index by index, with consecutive ids |
| Crawler.InsertedAppends | app/crawler/crawler_scripy.py:233-246 | an insert appends the batch's rows after the existing records and keeps the schema, the index and the other collections |
| Crawler.InsertedKeepsBatch | app/crawler/crawler_scripy.py:233-246 | after the insert the collection holds its earlier records followed by exactly the batch |
| Crawler.SaveBatchSucceeds | app/crawler/crawler_scripy.py:240-250 | a fault-free save reports `success`, `成功爬取并存储N首诗` and count N, flushes every record and changes no other collection |
| Crawler.SaveToMilvus | app/crawler/crawler_scripy.py:200-253 | the store block computes the specified outcome and store state for every fault |
| Crawler.CrawlAndSaveToMilvus | app/crawler/crawler_scripy.py:38-259 | the job returns the specified outcome and leaves the specified store |
| Crawler.SaveBatch | app/crawler/crawler_scripy.py:200-253 | on a non-empty batch the outcome is well-formed; it is `success` with the batch size as count exactly when no store call fails (an index fault only strikes a collection the run creates), otherwise `error` with no data |
| Crawler.Crawl | app/crawler/crawler_scripy.py:38-259 | every outcome is `success` with a positive count, or `warning` / `error` with no data; the store changes, and `success` is reported, only after a 200 login, a fetched page, a set key and a non-empty batch, whose size is the count |
| Crawler.OtherFailureIsCrawlError | app/crawler/crawler_scripy.py:257-259 | a raising login, a failed page fetch after a good login, and an unset key after the fetch each give `error` with `爬虫执行出错: ` and the exception's text (`DashScope API Key未设置` for the key), no data, and an unchanged store |
| Crawler.LoginRejectedStopsEarly | app/crawler/crawler_scripy.py:99-104 | a non-200 login returns `error` `登录失败` and leaves the store untouched |
| Crawler.EmptyBatchWarns | app/crawler/crawler_scripy.py:194-256 | when no poem gets an embedding the job returns `warning` `没有数据可插入` and leaves the store as it was, whatever store fault was pending |
| Crawler.SuccessfulRunAppendsBatch | app/crawler/crawler_scripy.py:160-250 | a fault-free run with a non-empty batch is the fault-free save of that batch, with count equal to the poems minus the failed embeddings |
| Crawler.StoreFaultIsError | app/crawler/crawler_scripy.py:251-253 | any store failure gives `error` with `插入数据库出错: ` and the message, and no data |
| Crawler.SaveBatchIsAppendOnly | app/crawler/crawler_scripy.py:200-253 | whatever the store part fails at, every existing collection keeps its schema, its index and its records as a prefix |
| Crawler.CrawlIsAppendOnly | app/crawler/crawler_scripy.py:205-248 | whatever fails, every existing collection keeps its schema, its index and its records as a prefix |
| Crawler.IndexFaultIsNotRepaired | app/crawler/crawler_scripy.py:207-230 | a collection created before a failed index build stays without an index, and a later run does not build one |
| Crawler.SearchUsesIndexMetric | app/crawler/crawler_scripy.py:225-226 | the search queries the indexed field with the index's metric, and both sides use dimension 1024 |
| Scheduler.Register | app/scheduler/tasks.py:49-57 | the job is in the table afterwards, and every job in it is that job or was there before |
| Scheduler.RegisterLength | app/scheduler/tasks.py:49-57 | registering adds a job only when its id is new |
| Scheduler.RegisterMembers | app/scheduler/tasks.py:49-57 | the job's id is registered afterwards, and the table holds no id but it and the ids already there |
| Scheduler.RegisterKeepsOthers | app/scheduler/tasks.py:49-57 | every job with another id stays registered |
| Scheduler.RegisterKeepsIdsUnique | app/scheduler/tasks.py:49-57 | ids stay unique, and the registered job is the only one with its id: re-registration replaces, never duplicates |
| Scheduler.RegisterIdempotent | app/scheduler/tasks.py:45-57 | registering the same job twice is registering it once |
| Scheduler.Wrapped | app/scheduler/tasks.py:70-101 | a result passes through unchanged; an exception becomes `error` with `执行古诗文爬虫任务时出错: ` and its message and no data |
| Scheduler.WrapperNeverRaises | app/scheduler/tasks.py:70-101 | a well-formed result stays well-formed, and an exception becomes a well-formed outcome |
| Scheduler.WrappedCrawl | app/scheduler/tasks.py:78-90 | a scheduled crawl records exactly what the crawl returned, which is well-formed |
| Scheduler.RecordOverwrites | app/scheduler/tasks.py:84-99 | each run overwrites the one `crawler_task` entry, so only the latest run is remembered; other keys are untouched |
| Scheduler.SchedulerManager.constructor | app/scheduler/tasks.py:21-25 | a fresh manager is stopped, with no jobs and an empty last-result map |
| Scheduler.SchedulerManager.Start | app/scheduler/tasks.py:45-61 | when stopped: registers `crawler_task`, replacing an earlier registration, and runs; when running: changes nothing |
| Scheduler.SchedulerManager.Shutdown | app/scheduler/tasks.py:63-68 | the manager is stopped afterwards, whether or not it was running; jobs and results are kept |
| Scheduler.SchedulerManager.RunCrawlerTask | app/scheduler/tasks.py:70-101 | returns the wrapped outcome and records it with the run's time under `crawler_task`; nothing else changes |
| Scheduler.SchedulerManager.RunCrawlerNow | app/scheduler/tasks.py:103-104 | the same outcome and the same new state as a scheduled run |
| Scheduler.SchedulerManager.GetTaskInfo | app/scheduler/tasks.py:106-117 | one entry per registered job, in table order, with its id, name and next fire time; the last result is absent exactly when the id has no recorded run; ids are listed once each, and a started manager lists `crawler_task` |
| Scheduler.FreshManagerLifecycle | app/scheduler/tasks.py:45-117 | a fresh manager started twice lists only `crawler_task`, with no result; after a manual run it lists that run's outcome |

## Where the code's evident intent and its behaviour differ

Each item names the code that shows the intent. The model follows what the
code does.

- The `else` branch at `app/crawler/crawler_scripy.py:254-256` reports a
  crawl that is left with nothing to insert as a `warning`. The embedding
  client is built at line 164, before the loop, so an unset DashScope key
  makes even a crawl over zero poems an `error`
  (`爬虫执行出错: DashScope API Key未设置`).
- `embed_documents` falls back to the default vector
  (`app/rag/rag.py:104` and `112`). It does so for the whole batch: when the
  call fails, or any single item cannot be read, every document gets 1024
  zeros, the readable ones included (`Rag.EmbedDocuments`).
- The per-item `try` at `app/crawler/crawler_scripy.py:176-191` skips a poem
  whose embedding raises, and the branch at lines 254-256 warns when none
  is left. `embed_query` catches every exception (`app/rag/rag.py:75-77`),
  so an embedding failure never causes a skip or a warning: a failed
  embedding is stored as 1024 zeros and the run reports `success`
  (`Crawler.DashScopeEmbedderSkipsNothing`). The warning is still reached
  when the page yields no poem. The skip (`Crawler.SkipsFailedEmbeddings`)
  and the warning after every embedding failed (`Crawler.EmptyBatchWarns`)
  are proved for an embedder that can fail.
- `limit=top_k` at `app/rag/rag.py:178` asks for at most top-k hits. The
  code maps whatever comes back, so the bound holds only when the store
  respects it (`Rag.SearchMapsHitsInOrder`).

## Left out

- Fetching the login page, solving the CAPTCHA, the login POST, fetching and
  saving the page, and HTML parsing: the login is a status or a failure,
  and the page is its parsed blocks or a failure.
- The CSV snapshot: it is file I/O that nothing reads back. A failure while
  writing it is folded into the page failure.
- `datetime.now` and the `strptime`/`timestamp` round trip: a block's time
  stamp is an opaque integer from a clock parameter. The ISO timestamps of
  the scheduler are integers too.
- Embedding vectors and float arithmetic: vectors are `seq<real>`, and the
  similarity is computed over reals.
- Logging, the FastAPI hooks of `init_app`, the HTTP routes and the server
  start-up.
- `app/milvus/milvus_script.py` is not part of this model.
- `RAG.__init__` and `_connect_milvus`: a pipeline is given with its client,
  its embedding client and whether its collection is loaded.
- The collection name: the crawler reads it from `COLLECTION_NAME` (default
  `poems`) and the RAG side from `MILVUS_COLLECTION_NAME`. Here it is a
  parameter.
- APScheduler: cron firing and next-fire-time computation are left out (the
  next fire time is a parameter), and so are failures inside
  `scheduler.start()` / `shutdown()`.
- Scheduler.SchedulerManager.Shutdown: keeps the job table. APScheduler's
  `get_jobs()` on a shut-down scheduler lists only jobs still pending, so
  after `shutdown` the code lists nothing while the model still lists
  `crawler_task`. The application shuts the scheduler down only at exit.
- Scheduler.SchedulerManager.GetTaskInfo: lists jobs in registration order.
  APScheduler orders them by next fire time, and with the single job the
  manager registers the two orders agree.
- The executor thread and the event loop: the crawl's result, or an
  exception escaping it, is a parameter of the wrapper.
- Concurrency is left out. Nothing guards a manual run against a scheduled
  one.
- Llm.Lower: lower-cases ASCII letters only. Python's `str.lower` also
  folds other letters, so a non-ASCII key that lower-cases to `deepseek`
  (with the Kelvin sign, say) is not recognised by the model.
- Client construction and the OpenAI call are oracles. `DashScopeClient` is
  a pydantic model whose `__init__` assigns an undeclared field, which
  pydantic normally refuses. The construction oracle covers that failure;
  it is re-raised as for any other.
- Store.Record: the auto-generated id is modelled as the record's position
  in its collection.
- Milvus search itself (ranking, `nprobe`, the top-k cut) is left out: the
  store search returns the hit lists.
