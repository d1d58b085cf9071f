/** Retrieval-augmented answering (app/rag/rag.py): the DashScope embedding
    client with its zero-vector fallbacks, similarity search over the vector
    store, the prompt built from the retrieved documents, and the answer.
    The embedding HTTP call, the store's search and the chat backend are
    oracles gathered in `Services`. */
module Rag {
  import opened Results
  import Llm
  import Store

  type Vector = Store.Vector

  /** The embedding dimension the client asks for and falls back to. */
  const Dimension: nat := 1024
  const EmbeddingModel: string := "text-embedding-v3"
  const MissingApiKey: string := "DashScope API Key未设置"

  /** A retrieval result. */
  datatype Document = Document(title: string, author: Option<string>, content: string, similarity: real)

  // ---------------------------------------------------------------------------
  // Embedding

  /** The embedding client; it only carries its credential. */
  datatype DashScopeEmbedding = DashScopeEmbedding(apiKey: string)

  /** `DashScopeEmbedding()`: an unset (empty) key raises `ValueError`. */
  function NewDashScopeEmbedding(apiKey: string): (r: Result<DashScopeEmbedding>)
    ensures r.Ok? <==> apiKey != ""
    ensures r.Ok? ==> r.value.apiKey == apiKey
    ensures r.Fail? ==> r.msg == MissingApiKey
  {
    if apiKey == "" then Fail(MissingApiKey) else Ok(DashScopeEmbedding(apiKey))
  }

  /** The JSON body posted to the embedding endpoint. */
  datatype EmbedRequest = EmbedRequest(apiKey: string, model: string, texts: seq<string>, dimension: nat)

  /** What the POST yields: it raises, or it answers with a status code and a
      body. `items` is `None` when `output.embeddings` cannot be read from the
      body; otherwise it holds one entry per returned item, `None` where that
      item's `embedding` cannot be read (a `KeyError` or `TypeError` when the
      item is indexed). */
  datatype EmbedReply =
    | CallFailed(msg: string)
    | Replied(status: int, items: Option<seq<Option<Vector>>>)

  type EmbeddingService = EmbedRequest -> EmbedReply

  function EmbedRequestFor(e: DashScopeEmbedding, texts: seq<string>): EmbedRequest
  {
    EmbedRequest(e.apiKey, EmbeddingModel, texts, Dimension)
  }

  function Zeros(n: nat): (v: Vector)
    ensures |v| == n && forall i :: 0 <= i < n ==> v[i] == 0.0
  {
    seq(n, _ => 0.0)
  }

  /** A 200 reply whose list of items could be read. */
  predicate Listed(reply: EmbedReply)
  {
    reply.Replied? && reply.status == 200 && reply.items.Some?
  }

  /** A 200 reply whose first item's vector can be read, which is all
      `embed_query` reads. */
  predicate FirstReadable(reply: EmbedReply)
  {
    Listed(reply) && |reply.items.value| > 0 && reply.items.value[0].Some?
  }

  /** A 200 reply every one of whose items' vectors can be read, which is what
      the comprehension in `embed_documents` needs. */
  predicate AllReadable(reply: EmbedReply)
  {
    Listed(reply) && forall i :: 0 <= i < |reply.items.value| ==> reply.items.value[i].Some?
  }

  /** The vectors of a fully readable reply, in item order. */
  function Vectors(reply: EmbedReply): (vs: seq<Vector>)
    requires AllReadable(reply)
    ensures |vs| == |reply.items.value|
    ensures forall i :: 0 <= i < |vs| ==> reply.items.value[i] == Some(vs[i])
  {
    var items := reply.items.value;
    seq(|items|, i requires 0 <= i < |items| => items[i].value)
  }

  /** `embed_query`: the first item's vector, taken with no length check and
      whatever the later items hold; the zero vector of the canonical
      dimension on a non-200 status, on a raising call, and when that vector
      cannot be read. */
  function EmbedQuery(e: DashScopeEmbedding, text: string, service: EmbeddingService): (v: Vector)
    ensures var reply := service(EmbedRequestFor(e, [text]));
            if FirstReadable(reply) then v == reply.items.value[0].value
            else v == Zeros(Dimension)
  {
    match service(EmbedRequestFor(e, [text]))
    case CallFailed(_) => Zeros(Dimension)
    case Replied(status, parsed) =>
      if status != 200 then Zeros(Dimension)
      else if parsed.None? || |parsed.value| == 0 || parsed.value[0].None? then Zeros(Dimension)
      else parsed.value[0].value
  }

  /** `embed_documents`: `[]` for no documents, whatever the service would do;
      otherwise the reply's vectors as given, or one zero vector per document
      when the call fails or any item's vector cannot be read. */
  function EmbedDocuments(e: DashScopeEmbedding, documents: seq<string>, service: EmbeddingService): (vs: seq<Vector>)
    ensures documents == [] ==> vs == []
    ensures documents != [] && !AllReadable(service(EmbedRequestFor(e, documents))) ==>
              |vs| == |documents| && forall i :: 0 <= i < |vs| ==> vs[i] == Zeros(Dimension)
    ensures documents != [] && AllReadable(service(EmbedRequestFor(e, documents))) ==>
              |vs| == |service(EmbedRequestFor(e, documents)).items.value|
              && forall i :: 0 <= i < |vs| ==> service(EmbedRequestFor(e, documents)).items.value[i] == Some(vs[i])
  {
    if documents == [] then []
    else
      var reply := service(EmbedRequestFor(e, documents));
      if AllReadable(reply) then Vectors(reply)
      else seq(|documents|, _ => Zeros(Dimension))
  }

  /** The service keeps the dimension it was asked for. */
  ghost predicate KeepsDimension(service: EmbeddingService)
  {
    forall q :: Listed(service(q)) ==>
      forall i :: 0 <= i < |service(q).items.value| && service(q).items.value[i].Some? ==>
        |service(q).items.value[i].value| == Dimension
  }

  /** Every vector either embedding call yields has the canonical dimension,
      provided the service's own vectors do: the fallbacks never introduce a
      vector of another length. */
  lemma EmbeddingsKeepDimension(e: DashScopeEmbedding, text: string, documents: seq<string>, service: EmbeddingService)
    requires KeepsDimension(service)
    ensures |EmbedQuery(e, text, service)| == Dimension
    ensures forall v :: v in EmbedDocuments(e, documents, service) ==> |v| == Dimension
  {
  }

  /** On a single text the two calls send the same request and agree, except
      when a reply whose item list was read carries other than one item. */
  lemma SingleTextEmbeddingsAgree(e: DashScopeEmbedding, text: string, service: EmbeddingService)
    requires var reply := service(EmbedRequestFor(e, [text]));
             !Listed(reply) || |reply.items.value| == 1
    ensures EmbedDocuments(e, [text], service) == [EmbedQuery(e, text, service)]
  {
  }

  /** A reply whose first vector is readable but a later one is not gives
      `embed_query` that vector and `embed_documents` only zeros. */
  lemma PartlyReadableReply(e: DashScopeEmbedding, texts: seq<string>, service: EmbeddingService)
    requires |texts| > 0
    requires var reply := service(EmbedRequestFor(e, texts));
             FirstReadable(reply) && !AllReadable(reply)
    ensures forall v :: v in EmbedDocuments(e, texts, service) ==> v == Zeros(Dimension)
    ensures |texts| == 1 ==> EmbedQuery(e, texts[0], service) == service(EmbedRequestFor(e, texts)).items.value[0].value
  {
    if |texts| == 1 {
      assert texts == [texts[0]];
    }
  }

  // ---------------------------------------------------------------------------
  // Search

  /** A search hit: its raw inner-product distance and its output fields. */
  datatype Hit = Hit(distance: real, entity: map<string, string>)

  /** The arguments of `collection.search`. */
  datatype SearchRequest = SearchRequest(
    data: seq<Vector>,
    annsField: string,
    metric: string,
    nprobe: nat,
    limit: int,
    outputFields: seq<string>)

  /** The store: one list of hits per query vector, or a raised exception. */
  type StoreSearch = SearchRequest -> Result<seq<seq<Hit>>>

  datatype Services = Services(embedding: EmbeddingService, store: StoreSearch, chat: Llm.ChatService)

  /** The parts of a `RAG` instance the pipeline uses; `collectionLoaded` is
      whether `self.collection` is set. */
  datatype Pipeline = Pipeline(client: Llm.Client, embeddings: DashScopeEmbedding, collectionLoaded: bool)

  const UnknownTitle: string := "未知标题"
  const UnknownAuthor: string := "未知作者"
  const CollectionUnavailable: string := "Milvus连接不可用"
  const SearchMetric: string := "IP"

  function SearchRequestFor(v: Vector, topK: int): SearchRequest
  {
    SearchRequest([v], "embedding", SearchMetric, 10, topK, ["title", "author", "content"])
  }

  /** The inner-product distance mapped onto a similarity score. */
  function Similarity(distance: real): (s: real)
    ensures -1.0 <= distance <= 1.0 ==> 0.0 <= s <= 1.0
    ensures distance == 1.0 ==> s == 1.0
    ensures distance == -1.0 ==> s == 0.0
    ensures distance == 0.0 ==> s == 0.5
  {
    (distance + 1.0) / 2.0
  }

  /** `hit.entity.get(key, default)`. */
  function FieldOr(entity: map<string, string>, key: string, default: string): string
  {
    if key in entity then entity[key] else default
  }

  /** One hit as a `Document`. */
  function DocumentOfHit(h: Hit): Document
  {
    Document(
      FieldOr(h.entity, "title", UnknownTitle),
      Some(FieldOr(h.entity, "author", UnknownAuthor)),
      FieldOr(h.entity, "content", ""),
      Similarity(h.distance))
  }

  /** A hit's similarity is its normalised distance; an output field the hit
      lacks takes its default instead of failing the search, one it has is
      passed through. */
  lemma HitFieldsOrDefaults(h: Hit)
    ensures var d := DocumentOfHit(h);
            d.similarity == (h.distance + 1.0) / 2.0
            && d.title == (if "title" in h.entity then h.entity["title"] else UnknownTitle)
            && d.author == Some(if "author" in h.entity then h.entity["author"] else UnknownAuthor)
            && d.content == (if "content" in h.entity then h.entity["content"] else "")
  {
  }

  /** A hit on a stored record gives back that record's fields. */
  lemma HitOfRecord(r: Store.Record, distance: real)
    ensures DocumentOfHit(Hit(distance, Store.OutputFields(r)))
         == Document(r.title, Some(r.author), r.content, Similarity(distance))
  {
  }

  /** The document `search` returns in place of raising. */
  function ErrorDocument(msg: string): Document
  {
    Document("查询错误", Some("系统"), "查询出错: " + msg, 0.0)
  }

  /** The documents of one list of hits, in hit order. */
  function DocumentsOf(hits: seq<Hit>): seq<Document>
  {
    if hits == [] then []
    else DocumentsOf(hits[..|hits| - 1]) + [DocumentOfHit(hits[|hits| - 1])]
  }

  /** The documents of every list of hits, list after list. */
  function HitDocuments(results: seq<seq<Hit>>): seq<Document>
  {
    if results == [] then []
    else HitDocuments(results[..|results| - 1]) + DocumentsOf(results[|results| - 1])
  }

  /** Each hit becomes exactly one document, at the same position. */
  lemma {:induction false} DocumentsOfHits(hits: seq<Hit>)
    ensures |DocumentsOf(hits)| == |hits|
    ensures forall k :: 0 <= k < |hits| ==> DocumentsOf(hits)[k] == DocumentOfHit(hits[k])
  {
    if hits != [] {
      var n := |hits| - 1;
      DocumentsOfHits(hits[..n]);
      assert forall k :: 0 <= k < n ==> hits[..n][k] == hits[k];
    }
  }

  /** What `search` returns. */
  function Retrieve(p: Pipeline, svc: Services, query: string, topK: int): (docs: seq<Document>)
    ensures !p.collectionLoaded
            || svc.store(SearchRequestFor(EmbedQuery(p.embeddings, query, svc.embedding), topK)).Fail? ==>
              |docs| == 1 && docs[0].title == "查询错误" && docs[0].author == Some("系统")
              && docs[0].similarity == 0.0
  {
    if !p.collectionLoaded then [ErrorDocument(CollectionUnavailable)]
    else
      var v := EmbedQuery(p.embeddings, query, svc.embedding);
      match svc.store(SearchRequestFor(v, topK))
      case Fail(e) => [ErrorDocument(e)]
      case Ok(results) => HitDocuments(results)
  }

  /** `RAG.search`. */
  method Search(p: Pipeline, svc: Services, query: string, topK: int) returns (documents: seq<Document>)
    ensures documents == Retrieve(p, svc, query, topK)
  {
    if !p.collectionLoaded {
      return [ErrorDocument(CollectionUnavailable)];
    }
    var queryEmbedding := EmbedQuery(p.embeddings, query, svc.embedding);
    var found := svc.store(SearchRequestFor(queryEmbedding, topK));
    if found.Fail? {
      return [ErrorDocument(found.msg)];
    }
    documents := CollectDocuments(found.value);
  }

  /** The nested loop of `search` over the store's lists of hits. */
  method CollectDocuments(results: seq<seq<Hit>>) returns (documents: seq<Document>)
    ensures documents == HitDocuments(results)
  {
    documents := [];
    for i := 0 to |results|
      invariant documents == HitDocuments(results[..i])
    {
      var hits := results[i];
      ghost var before := documents;
      for j := 0 to |hits|
        invariant documents == before + DocumentsOf(hits[..j])
      {
        var doc := DocumentOfHit(hits[j]);
        documents := documents + [doc];
        assert hits[..j + 1][..j] == hits[..j];
        assert DocumentsOf(hits[..j + 1]) == DocumentsOf(hits[..j]) + [doc];
      }
      assert hits[..|hits|] == hits;
      assert results[..i + 1][..i] == results[..i];
      assert HitDocuments(results[..i + 1]) == HitDocuments(results[..i]) + DocumentsOf(hits);
    }
    assert results[..|results|] == results;
  }

  /** `search` never raises: with no collection, or when embedding-then-search
      raises, it returns exactly one error document of similarity 0. */
  lemma SearchFailureIsErrorDocument(p: Pipeline, svc: Services, query: string, topK: int)
    requires !p.collectionLoaded
          || svc.store(SearchRequestFor(EmbedQuery(p.embeddings, query, svc.embedding), topK)).Fail?
    ensures !p.collectionLoaded ==> Retrieve(p, svc, query, topK)[0].content == "查询出错: " + CollectionUnavailable
    ensures p.collectionLoaded ==>
              Retrieve(p, svc, query, topK)[0].content
              == "查询出错: " + svc.store(SearchRequestFor(EmbedQuery(p.embeddings, query, svc.embedding), topK)).msg
  {
  }

  /** Descending by raw distance. */
  predicate DistancesDescending(hits: seq<Hit>)
  {
    forall i, j :: 0 <= i < j < |hits| ==> hits[i].distance >= hits[j].distance
  }

  /** For one list of hits, `search` maps every hit in order to one document:
      it returns as many documents as hits (so at most `topK` when the store
      respects the limit), keeps a descending order, and keeps similarities
      in [0, 1] when distances lie in [-1, 1]. */
  lemma SearchMapsHitsInOrder(p: Pipeline, svc: Services, query: string, topK: int, hits: seq<Hit>)
    requires p.collectionLoaded
    requires svc.store(SearchRequestFor(EmbedQuery(p.embeddings, query, svc.embedding), topK)) == Ok([hits])
    ensures |Retrieve(p, svc, query, topK)| == |hits|
    ensures forall k :: 0 <= k < |hits| ==> Retrieve(p, svc, query, topK)[k] == DocumentOfHit(hits[k])
    ensures |hits| <= topK ==> |Retrieve(p, svc, query, topK)| <= topK
    ensures DistancesDescending(hits) ==> SimilaritiesDescending(Retrieve(p, svc, query, topK))
    ensures (forall k :: 0 <= k < |hits| ==> -1.0 <= hits[k].distance <= 1.0) ==>
              forall k :: 0 <= k < |hits| ==> 0.0 <= Retrieve(p, svc, query, topK)[k].similarity <= 1.0
  {
    var docs := Retrieve(p, svc, query, topK);
    var results := [hits];
    assert results[..0] == [];
    assert docs == HitDocuments(results) == DocumentsOf(hits);
    DocumentsOfHits(hits);
    if DistancesDescending(hits) {
      SortedHitsSortedDocuments(hits);
    }
  }

  /** Descending by similarity. */
  predicate SimilaritiesDescending(docs: seq<Document>)
  {
    forall i, j :: 0 <= i < j < |docs| ==> docs[i].similarity >= docs[j].similarity
  }

  /** The normalisation is monotone, so hits sorted by distance give documents
      sorted by similarity. */
  lemma SortedHitsSortedDocuments(hits: seq<Hit>)
    requires DistancesDescending(hits)
    ensures SimilaritiesDescending(DocumentsOf(hits))
  {
    DocumentsOfHits(hits);
    var docs := DocumentsOf(hits);
    forall i, j | 0 <= i < j < |docs| ensures docs[i].similarity >= docs[j].similarity {
      assert docs[i] == DocumentOfHit(hits[i]) && docs[j] == DocumentOfHit(hits[j]);
    }
  }

  // ---------------------------------------------------------------------------
  // Answer

  const SystemPrompt: string := "你是一个智能助手，基于提供的文档内容创作诗歌。如果文档中没有相关信息，请诚实地告知用户。"
  const FallbackAnswer: string := "抱歉，生成回答时遇到问题，请稍后再试。"

  /** An f-string renders a missing author as `None`. */
  function AuthorText(author: Option<string>): string
  {
    match author
    case Some(a) => a
    case None => "None"
  }

  function DocumentText(d: Document): string
  {
    "标题: " + d.title + "\n作者: " + AuthorText(d.author) + "\n内容: " + d.content
  }

  /** The documents' texts joined by a blank line. */
  function Context(documents: seq<Document>): (context: string)
    ensures context == "" <==> documents == []
  {
    if documents == [] then ""
    else if |documents| == 1 then DocumentText(documents[0])
    else DocumentText(documents[0]) + "\n\n" + Context(documents[1..])
  }

  /** `sub` is a contiguous part of `s`. */
  ghost predicate Occurs(sub: string, s: string)
  {
    exists k :: OccursAt(sub, s, k)
  }

  ghost predicate OccursAt(sub: string, s: string, k: int)
  {
    0 <= k <= |s| - |sub| && s[k..k + |sub|] == sub
  }

  lemma OccursWithin(sub: string, pre: string, s: string, post: string)
    requires Occurs(sub, s)
    ensures Occurs(sub, pre + s + post)
  {
    var k :| OccursAt(sub, s, k);
    var t := pre + s + post;
    assert t[|pre| + k..|pre| + k + |sub|] == s[k..k + |sub|];
    assert OccursAt(sub, t, |pre| + k);
  }

  lemma OccursAtStart(sub: string, post: string)
    ensures Occurs(sub, sub + post)
  {
    assert (sub + post)[0..|sub|] == sub;
    assert OccursAt(sub, sub + post, 0);
  }

  /** Joining with the separator: adding a document to a non-empty list adds
      a blank line and that document's text at the end. */
  lemma {:induction false} ContextAppend(documents: seq<Document>, d: Document)
    requires documents != []
    ensures Context(documents + [d]) == Context(documents) + "\n\n" + DocumentText(d)
  {
    if |documents| > 1 {
      ContextAppend(documents[1..], d);
      assert (documents + [d])[1..] == documents[1..] + [d];
    }
  }

  /** Joining `a` and `rest` with a blank line keeps `a` and everything that
      occurs in `rest`. */
  lemma OccursInJoin(a: string, rest: string)
    ensures Occurs(a, a + "\n\n" + rest)
    ensures forall sub :: Occurs(sub, rest) ==> Occurs(sub, a + "\n\n" + rest)
  {
    OccursAtStart(a, "\n\n" + rest);
    assert a + ("\n\n" + rest) == a + "\n\n" + rest;
    forall sub | Occurs(sub, rest) ensures Occurs(sub, a + "\n\n" + rest) {
      OccursWithin(sub, a + "\n\n", rest, "");
      assert a + "\n\n" + rest + "" == a + "\n\n" + rest;
    }
  }

  /** Every document's title, author and content reach the context. */
  lemma {:induction false} ContextHoldsEveryDocument(documents: seq<Document>)
    ensures forall i :: 0 <= i < |documents| ==> Occurs(DocumentText(documents[i]), Context(documents))
  {
    if |documents| == 1 {
      OccursAtStart(DocumentText(documents[0]), "");
      assert DocumentText(documents[0]) + "" == Context(documents);
    } else if |documents| > 1 {
      ContextHoldsEveryDocument(documents[1..]);
      OccursInJoin(DocumentText(documents[0]), Context(documents[1..]));
      forall i | 1 <= i < |documents|
        ensures Occurs(DocumentText(documents[i]), Context(documents))
      {
        assert documents[i] == documents[1..][i - 1];
      }
    }
  }

  function UserPrompt(context: string, query: string): string
  {
    "根据以下文档内容:\n\n" + context + "\n\n和问题: " + query + "，生成一首诗新的歌。"
  }

  /** The chat request: a system instruction, then a user message that embeds
      both the context and the query. */
  function Prompt(query: string, documents: seq<Document>): (messages: seq<Llm.Message>)
    ensures |messages| == 2
    ensures messages[0] == Llm.Message(Llm.System, SystemPrompt)
    ensures messages[1].role == Llm.User
    ensures Occurs(Context(documents), messages[1].content)
    ensures Occurs(query, messages[1].content)
  {
    var context := Context(documents);
    var pre := "根据以下文档内容:\n\n";
    var mid := "\n\n和问题: ";
    var post := "，生成一首诗新的歌。";
    var user := UserPrompt(context, query);
    assert user == pre + context + (mid + query + post);
    assert user[|pre|..|pre| + |context|] == context;
    assert OccursAt(context, user, |pre|);
    assert user == (pre + context + mid) + query + post;
    assert user[|pre + context + mid|..|pre + context + mid| + |query|] == query;
    assert OccursAt(query, user, |pre + context + mid|);
    [Llm.Message(Llm.System, SystemPrompt), Llm.Message(Llm.User, user)]
  }

  /** `generate_answer`: the first choice the backend returned for exactly
      this prompt, or, whenever the backend fails or returns no choice, the
      fixed fallback text. */
  function GenerateAnswer(p: Pipeline, svc: Services, query: string, documents: seq<Document>): (answer: string)
    ensures var reply := svc.chat(Llm.Request(p.client, Prompt(query, documents)));
            (reply.Ok? && |reply.value| > 0 ==> answer == reply.value[0])
            && (reply.Fail? || reply.value == [] ==> answer == FallbackAnswer)
  {
    match Llm.GetCompletion(p.client, Prompt(query, documents), svc.chat)
    case Ok(answer) => answer
    case Fail(_) => FallbackAnswer
  }

  datatype QueryResult = QueryResult(query: string, documents: seq<Document>, answer: string)

  /** `RAG.query`: search, then answer from what was found; nothing cached. */
  method Query(p: Pipeline, svc: Services, query: string, topK: int) returns (r: QueryResult)
    ensures r.query == query
    ensures r.documents == Retrieve(p, svc, query, topK)
    ensures r.answer == GenerateAnswer(p, svc, query, r.documents)
  {
    var documents := Search(p, svc, query, topK);
    var answer := GenerateAnswer(p, svc, query, documents);
    r := QueryResult(query, documents, answer);
  }

  /** Against a store with no records the query finds no documents, and the
      model is still asked, with an empty context. */
  lemma EmptyStoreQuery(p: Pipeline, svc: Services, query: string, topK: int)
    requires p.collectionLoaded
    requires forall q :: svc.store(q) == Ok([[]])
    ensures Retrieve(p, svc, query, topK) == []
    ensures Prompt(query, Retrieve(p, svc, query, topK))[1].content == UserPrompt("", query)
  {
    var none: seq<seq<Hit>> := [[]];
    assert none[..0] == [];
  }
}
