/** The chat-completion clients and the factory that picks one of them by a
    configuration key (app/llm/llm.py). The OpenAI-compatible HTTP call is an
    oracle `ChatService`: given the request a client builds, it returns the
    contents of the response's choices, or fails. */
module Llm {
  import opened Results

  datatype Role = System | User | Assistant

  datatype Message = Message(role: Role, content: string)

  /** The closed set of client variants. */
  datatype Provider = DeepSeek | DashScope

  /** A constructed client. Its credential comes from the environment and is
      not modelled. */
  datatype Client = Client(provider: Provider)

  /** What a client sends to its backend for one completion. */
  datatype ChatRequest = ChatRequest(
    baseUrl: string,
    model: string,
    messages: seq<Message>,
    temperature: real,
    maxTokens: nat)

  /** The backend: the message contents of the response's choices, in order,
      or the failure of the call. */
  type ChatService = ChatRequest -> Result<seq<string>>

  const DefaultProvider: string := "deepseek"
  const Temperature: real := 0.7
  const MaxTokens: nat := 1000

  function UnsupportedProvider(provider: string): string
  {
    "不支持的模型提供商: " + provider
  }

  /** The message Python gives `IndexError` for `response.choices[0]` on an
      empty list of choices. */
  const NoChoice: string := "list index out of range"

  function LowerChar(c: char): char
  {
    if 'A' <= c <= 'Z' then (c as int + 32) as char else c
  }

  /** `str.lower()` on the ASCII letters. */
  function Lower(s: string): string
  {
    seq(|s|, i requires 0 <= i < |s| => LowerChar(s[i]))
  }

  /** Lower-casing twice is lower-casing once. */
  lemma LowerIdempotent(s: string)
    ensures Lower(Lower(s)) == Lower(s)
  {
    forall i | 0 <= i < |s| ensures LowerChar(LowerChar(s[i])) == LowerChar(s[i]) {
    }
  }

  /** The dictionary lookup `clients.get(provider.lower())`: exactly the two
      lower-case names are recognised, after lower-casing the key. */
  function Lookup(key: string): (r: Option<Provider>)
    ensures r == Some(DeepSeek) <==> Lower(key) == "deepseek"
    ensures r == Some(DashScope) <==> Lower(key) == "dashscope"
    ensures r.None? <==> Lower(key) != "deepseek" && Lower(key) != "dashscope"
  {
    var k := Lower(key);
    if k == "deepseek" then Some(DeepSeek)
    else if k == "dashscope" then Some(DashScope)
    else None
  }

  /** The lookup ignores case: a key and its lower-cased form select the same
      variant. */
  lemma LookupIgnoresCase(key: string)
    ensures Lookup(key) == Lookup(Lower(key))
  {
    LowerIdempotent(key);
  }

  /** The default key, and a mixed-case spelling of it, select DeepSeek. */
  lemma DefaultSelectsDeepSeek()
    ensures Lookup(DefaultProvider) == Some(DeepSeek)
    ensures Lookup("DeepSeek") == Some(DeepSeek)
  {
    var s := "DeepSeek";
    forall i | 0 <= i < |s| ensures Lower(s)[i] == "deepseek"[i] {
      if i == 0 {} else if i == 1 {} else if i == 2 {} else if i == 3 {}
      else if i == 4 {} else if i == 5 {} else if i == 6 {} else {}
    }
  }

  /** `create_llm_client`: an unknown key raises `ValueError` naming the key as
      given, before any client is constructed; a failure of the variant's
      constructor is re-raised unchanged; otherwise the selected variant is
      returned. `construct` is the variant constructor's outcome. */
  function CreateLlmClient(provider: string, construct: Provider -> Outcome): (r: Result<Client>)
    ensures r.Ok? <==> Lookup(provider).Some? && construct(Lookup(provider).value).Pass?
    ensures r.Ok? ==> r.value.provider == Lookup(provider).value
    ensures Lookup(provider).None? ==> r == Fail(UnsupportedProvider(provider))
    ensures Lookup(provider).Some? && construct(Lookup(provider).value).Raised? ==>
              r == Fail(construct(Lookup(provider).value).msg)
  {
    match Lookup(provider)
    case None => Fail(UnsupportedProvider(provider))
    case Some(p) =>
      match construct(p)
      case Raised(e) => Fail(e)
      case Pass => Ok(Client(p))
  }

  function BaseUrl(p: Provider): string
  {
    match p
    case DeepSeek => "https://api.deepseek.com/v1"
    case DashScope => "https://dashscope.aliyuncs.com/compatible-mode/v1"
  }

  function Model(p: Provider): string
  {
    match p
    case DeepSeek => "deepseek-chat"
    case DashScope => "dashscope/dashscope-1-dev"
  }

  /** The request `get_completion` sends: the messages unchanged, the variant's
      endpoint and model, and the sampling parameters both variants share. */
  function Request(c: Client, messages: seq<Message>): (q: ChatRequest)
    ensures q.messages == messages
    ensures q.temperature == 0.7 && q.maxTokens == 1000
    ensures q.model == Model(c.provider) && q.baseUrl == BaseUrl(c.provider)
  {
    ChatRequest(BaseUrl(c.provider), Model(c.provider), messages, Temperature, MaxTokens)
  }

  /** `get_completion`: the content of the first choice; a failure of the call,
      or a response without choices, raises. */
  function GetCompletion(c: Client, messages: seq<Message>, chat: ChatService): (r: Result<string>)
    ensures r.Ok? <==> chat(Request(c, messages)).Ok? && |chat(Request(c, messages)).value| > 0
    ensures r.Ok? ==> r.value == chat(Request(c, messages)).value[0]
  {
    match chat(Request(c, messages))
    case Fail(e) => Fail(e)
    case Ok(choices) => if |choices| == 0 then Fail(NoChoice) else Ok(choices[0])
  }

  /** The two variants differ only in endpoint and model: on the same messages
      they send the same conversation with the same sampling parameters. */
  lemma VariantsShareSampling(messages: seq<Message>)
    ensures Request(Client(DeepSeek), messages).(baseUrl := "", model := "")
         == Request(Client(DashScope), messages).(baseUrl := "", model := "")
    ensures Model(DeepSeek) != Model(DashScope) && BaseUrl(DeepSeek) != BaseUrl(DashScope)
  {
  }
}
