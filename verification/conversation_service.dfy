/**
 * The conversation layer of the layered back end: the service between the
 * routes and the repository, and the routes that turn API models into
 * domain records. The AI provider is a function parameter; the clock is the
 * `now` parameter (an aware UTC reading, as `datetime.now(timezone.utc)`).
 */
module ConversationService {
  import opened Wrappers
  import opened Text
  import opened Json
  import opened Http
  import opened Tables
  import opened Domain
  import opened Repository
  import opened BotChat

  /** `generate_response` of the provider: its answer, or the exception it raises. */
  type ResponseProvider = seq<Message> -> Result<ChatResponse>

  const NewConversation: string := "New Conversation"

  const NamingModel: string := "gpt-4o-mini"

  function NamingPrompt(message: string): string
  {
    "Generate a concise title (3-4 words) for a conversation that starts with this message: " + message
  }

  /** The one message the naming request sends. */
  function NamingRequest(message: string, now: int): seq<Message>
  {
    [Message("user", JStr(NamingPrompt(message)), Some(NamingModel), Stamp(now, Some(0)))]
  }

  /** `save_conversation`'s tagging: a naive `last_updated` is labelled UTC; an aware one is kept. */
  function Tagged(c: Conversation): (t: Conversation)
    ensures t.conversationId == c.conversationId && t.conversationName == c.conversationName && t.messages == c.messages
    ensures Aware(t.lastUpdated)
    ensures Aware(c.lastUpdated) ==> t == c
    ensures !Aware(c.lastUpdated) ==> t.lastUpdated == TagUtc(c.lastUpdated)
  {
    if c.lastUpdated.offset.None? then c.(lastUpdated := TagUtc(c.lastUpdated)) else c
  }

  /** The tagging stores nothing different: the repository normalises to UTC in the same way. */
  lemma TaggingIsInvisibleInStore(c: Conversation)
    ensures RowOf(Tagged(c)) == RowOf(c)
  {
  }

  /** `generate_name`: the first four words of the stripped reply; a provider exception is raised again. */
  function GenerateName(message: string, provider: ResponseProvider, now: int): (r: Result<string>)
    ensures provider(NamingRequest(message, now)).Err? ==> r == Err(provider(NamingRequest(message, now)).message)
    ensures provider(NamingRequest(message, now)).Ok? && provider(NamingRequest(message, now)).value.content.None?
            ==> r == Err(NoneStripError)
    ensures r.Ok? <==> provider(NamingRequest(message, now)).Ok? && provider(NamingRequest(message, now)).value.content.Some?
  {
    match provider(NamingRequest(message, now))
    case Err(e) => Err(e)
    case Ok(resp) =>
      if resp.content.None? then Err(NoneStripError) else Ok(FirstWords(PyStrip(resp.content.value), 4))
  }

  /**
   * The provider as `generate_name` may meet it: `generate_response` is an
   * `async def` in the provider protocol and in `OpenAIProvider`, and a
   * plain function in the test double.
   */
  datatype Provider = Provider(generateResponse: ResponseProvider, isAsync: bool)

  /** The exception reading `.content` off a coroutine raises. */
  const CoroutineHasNoContent: string := "'coroutine' object has no attribute 'content'"

  /**
   * `generate_name` as written: `generate_response` is called without
   * `await`. An `async` provider hands back a coroutine before doing
   * anything, reading its `content` raises, and the service raises that
   * again; only a synchronous provider gets to answer.
   */
  function GenerateNameAsWritten(message: string, provider: Provider, now: int): (r: Result<string>)
    ensures var answer := provider.generateResponse(NamingRequest(message, now));
      r.Ok? <==> !provider.isAsync && answer.Ok? && answer.value.content.Some?
    ensures provider.isAsync ==> r == Err(CoroutineHasNoContent)
    ensures r.Ok? ==> r == GenerateName(message, provider.generateResponse, now)
  {
    if provider.isAsync then Err(CoroutineHasNoContent)
    else GenerateName(message, provider.generateResponse, now)
  }

  /**
   * With a provider that follows the protocol, the service as written never
   * names a conversation, even when the provider has a reply, and the route
   * answers 500; awaiting the call gives the name, and the route answers 200.
   */
  lemma UnawaitedProviderNeverNames(message: string, answer: ResponseProvider, now: int)
    requires answer(NamingRequest(message, now)).Ok? && answer(NamingRequest(message, now)).value.content.Some?
    ensures GenerateNameAsWritten(message, Provider(answer, true), now).Err?
    ensures GenerateNameRouteAsWritten(message, Provider(answer, true), now) == HttpError(500, "Internal Server Error")
    ensures GenerateName(message, answer, now).Ok?
    ensures GenerateNameRoute(message, answer, now).Success?
  {
  }

  /** A generated name is at most the first four whitespace-separated words of the reply, single-spaced. */
  lemma GeneratedNameIsFirstFourWords(message: string, provider: ResponseProvider, now: int)
    requires provider(NamingRequest(message, now)).Ok? && provider(NamingRequest(message, now)).value.content.Some?
    ensures var ws := Words(provider(NamingRequest(message, now)).value.content.value);
      GenerateName(message, provider, now).Ok?
      && Words(GenerateName(message, provider, now).value) == (if |ws| <= 4 then ws else ws[..4])
  {
    var c := provider(NamingRequest(message, now)).value.content.value;
    WordsOfStrip(c);
    FirstWordsAreAPrefix(PyStrip(c), 4);
  }

  class Service {
    const repository: SqliteRepository

    constructor (repository: SqliteRepository)
      ensures this.repository == repository
    {
      this.repository := repository;
    }

    /** `get_conversations`: the repository's list, unchanged. */
    method GetConversations() returns (list: seq<ConversationSummary>)
      ensures multiset(list) == multiset(Summaries(repository.rows))
      ensures forall i, j :: 0 <= i < j < |list| ==> SummaryTime(list[i]) >= SummaryTime(list[j])
    {
      list := repository.GetConversations();
    }

    /** `get_conversation`: the repository's answer, unchanged. */
    method GetConversation(id: string, loads: Loads) returns (c: Option<Conversation>)
      ensures c == GetSpec(repository.rows, id, loads)
    {
      c := repository.GetConversation(id, loads);
    }

    /** `save_conversation`: tag a naive timestamp as UTC, then save once; the tagged record is what the caller's object becomes. */
    method SaveConversation(c: Conversation) returns (tagged: Conversation)
      modifies repository
      ensures tagged == Tagged(c)
      ensures repository.rows == Upsert(old(repository.rows), RowId, RowOf(c))
    {
      tagged := c;
      if c.lastUpdated.offset.None? {
        tagged := c.(lastUpdated := TagUtc(c.lastUpdated));
      }
      repository.SaveConversation(tagged);
      TaggingIsInvisibleInStore(c);
    }
  }

  // ---------------------------------------------------------------------
  // The routes.
  // ---------------------------------------------------------------------

  /** `MessageSchema`: content is a string, an object or a list of objects. */
  datatype MessageSchema = MessageSchema(role: string, content: Json, model: Option<string>, timestamp: Option<Stamp>)

  datatype ConversationSchema = ConversationSchema(conversationId: string, conversationName: Option<string>,
                                                   messages: seq<MessageSchema>, lastUpdated: Option<Stamp>)

  /** The domain message for a request message: structured content is dumped to text, a missing timestamp is now. */
  function DomainMessage(m: MessageSchema, dumps: Json -> string, current: Stamp): Message
  {
    Message(m.role, if m.content.JStr? then m.content else JStr(dumps(m.content)), m.model,
            if m.timestamp.Some? then m.timestamp.value else current)
  }

  /** The domain conversation `save_conversation` builds. */
  function DomainConversation(c: ConversationSchema, dumps: Json -> string, current: Stamp): (d: Conversation)
    ensures d.conversationId == c.conversationId
    ensures d.conversationName == (if c.conversationName.Some? && c.conversationName.value != "" then c.conversationName.value else NewConversation)
    ensures |d.messages| == |c.messages|
    ensures forall k :: 0 <= k < |c.messages| ==>
      d.messages[k].role == c.messages[k].role && d.messages[k].model == c.messages[k].model
      && (c.messages[k].content.JStr? ==> d.messages[k].content == c.messages[k].content)
      && (!c.messages[k].content.JStr? ==> d.messages[k].content == JStr(dumps(c.messages[k].content)))
      && (c.messages[k].timestamp.None? ==> d.messages[k].timestamp == current)
      && (c.messages[k].timestamp.Some? ==> d.messages[k].timestamp == c.messages[k].timestamp.value)
    ensures d.lastUpdated == current
  {
    Conversation(c.conversationId,
                 if c.conversationName.Some? && c.conversationName.value != "" then c.conversationName.value else NewConversation,
                 seq(|c.messages|, k requires 0 <= k < |c.messages| => DomainMessage(c.messages[k], dumps, current)),
                 current)
  }

  /** `save_conversation` route: one save of the domain record, and the request echoed with `last_updated` set to now. */
  method SaveConversationRoute(service: Service, c: ConversationSchema, dumps: Json -> string, now: int)
    returns (resp: Response<ConversationSchema>)
    modifies service.repository
    ensures service.repository.rows
      == Upsert(old(service.repository.rows), RowId, RowOf(DomainConversation(c, dumps, Stamp(now, Some(0)))))
    ensures resp == Success(200, c.(lastUpdated := Some(Stamp(now, Some(0)))))
  {
    var currentTime := Stamp(now, Some(0));
    var domain := DomainConversation(c, dumps, currentTime);
    var _ := service.SaveConversation(domain);
    resp := Success(200, c.(lastUpdated := Some(currentTime)));
  }

  /**
   * Pydantic's check of a content against `str | dict | list[dict]`, as the
   * route's `response_model` applies it to the conversation it returns.
   */
  predicate SchemaContent(content: Json)
  {
    match content
    case JStr(_) => true
    case JObj(_) => true
    case JArr(items) => forall k :: 0 <= k < |items| ==> items[k].JObj?
    case _ => false
  }

  /** Every message of the conversation passes the response model's content check. */
  predicate ValidResponse(c: Conversation)
  {
    forall k :: 0 <= k < |c.messages| ==> SchemaContent(c.messages[k].content)
  }

  /**
   * `get_conversation` route: 404 when the id is unknown. The conversation
   * found is validated against `ConversationSchema` on the way out; a
   * content the store re-parsed into a list holding anything but objects
   * fails that check, and the failure is a server error.
   */
  method GetConversationRoute(service: Service, id: string, loads: Loads) returns (resp: Response<Conversation>)
    ensures resp == HttpError(404, "Conversation not found")
            <==> forall k :: 0 <= k < |service.repository.rows| ==> service.repository.rows[k].conversationId != id
    ensures resp.Success? <==> GetSpec(service.repository.rows, id, loads).Some? && ValidResponse(GetSpec(service.repository.rows, id, loads).value)
    ensures resp.Success? ==> resp == Success(200, GetSpec(service.repository.rows, id, loads).value)
    ensures resp.HttpError? && resp.status != 404 ==> resp == HttpError(500, "Internal Server Error")
  {
    var conversation := service.GetConversation(id, loads);
    if conversation.None? {
      return HttpError(404, "Conversation not found");
    }
    var c := conversation.value;
    var i := 0;
    while i < |c.messages|
      invariant 0 <= i <= |c.messages|
      invariant forall k :: 0 <= k < i ==> SchemaContent(c.messages[k].content)
    {
      if !SchemaContent(c.messages[i].content) {
        return HttpError(500, "Internal Server Error");
      }
      i := i + 1;
    }
    resp := Success(200, c);
  }

  /** A user message whose text is `[1, 2]` is stored as text, re-parsed into a list of numbers, and fails the response check. */
  lemma ListOfNumbersFailsResponse(content: string, loads: Loads)
    requires loads(content) == Some(JArr([JNum(1), JNum(2)]))
    ensures SchemaContent(JStr(content))
    ensures Reparsed(JStr(content), loads) == JArr([JNum(1), JNum(2)])
    ensures !SchemaContent(Reparsed(JStr(content), loads))
  {
    assert !JArr([JNum(1), JNum(2)]).items[0].JObj?;
  }

  /** The answer of the `generate_name` route to what the service gave: the name, or a server error for what it raised. */
  function NameResponse(r: Result<string>): (resp: Response<string>)
    ensures resp.Success? <==> r.Ok?
    ensures r.Ok? ==> resp == Success(200, r.value)
    ensures r.Err? ==> resp == HttpError(500, "Internal Server Error")
  {
    match r
    case Ok(name) => Success(200, name)
    case Err(_) => HttpError(500, "Internal Server Error")
  }

  /** `generate_name` route over the service as written, with the provider it is given. */
  function GenerateNameRouteAsWritten(message: string, provider: Provider, now: int): (resp: Response<string>)
    ensures provider.isAsync ==> resp == HttpError(500, "Internal Server Error")
    ensures resp.Success? <==> !provider.isAsync && GenerateName(message, provider.generateResponse, now).Ok?
    ensures resp.Success? ==> resp.body == GenerateName(message, provider.generateResponse, now).value
  {
    NameResponse(GenerateNameAsWritten(message, provider, now))
  }

  /** `generate_name` route over the corrected service, which awaits the provider. */
  function GenerateNameRoute(message: string, provider: ResponseProvider, now: int): (resp: Response<string>)
    ensures resp.Success? <==> GenerateName(message, provider, now).Ok?
    ensures resp.Success? ==> resp.body == GenerateName(message, provider, now).value
    ensures !resp.Success? ==> resp == HttpError(500, "Internal Server Error")
  {
    NameResponse(GenerateName(message, provider, now))
  }

  /**
   * Saving through the route and reading back gives the request's id, the
   * name or its default, and for every message its role, model and its
   * timestamp or now, all in UTC. Text comes back re-parsed; structured
   * content comes back as the re-parse of its dump, so a list whose dump
   * loads back returns as that list, and an object returns as its dump.
   */
  lemma SaveRouteThenGet(rows: seq<Row>, c: ConversationSchema, dumps: Json -> string, now: int, loads: Loads)
    ensures var d := DomainConversation(c, dumps, Stamp(now, Some(0)));
      var got := GetSpec(Upsert(rows, RowId, RowOf(d)), c.conversationId, loads);
      got.Some? && got.value.conversationName == d.conversationName && |got.value.messages| == |c.messages|
      && got.value.lastUpdated == Stamp(now, Some(0))
      && forall k :: 0 <= k < |c.messages| ==>
        var m, content := got.value.messages[k], c.messages[k].content;
        m.role == c.messages[k].role && m.model == c.messages[k].model
        && m.content == Reparsed(d.messages[k].content, loads)
        && (content.JStr? ==> m.content == Reparsed(content, loads))
        && (content.JArr? && loads(dumps(content)) == Some(content) ==> m.content == content)
        && (content.JObj? && loads(dumps(content)) == Some(content) ==> m.content == JStr(dumps(content)))
  {
    var d := DomainConversation(c, dumps, Stamp(now, Some(0)));
    SaveThenGet(rows, d, loads);
  }
}
