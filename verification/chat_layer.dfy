/**
 * The chat layer of the layered back end: `ChatService`, which appends the
 * user's message to the history and hands it to the provider, and the chat
 * router, which converts request messages and frames stream chunks. The
 * provider is a pair of function parameters; `utcnow()` is the `now`
 * parameter, and the default timestamp a `Message` gets when none is given
 * (evaluated once, when the module is loaded) is the `loadTime` parameter.
 */
module ChatLayer {
  import opened Wrappers
  import opened Text
  import opened Json
  import opened Http
  import opened Domain
  import opened Containers
  import opened StreamDecoder
  import FastApiApp

  /** `generate_response`: the answer, or the exception it raises. */
  type ResponseProvider = seq<Message> -> Result<ChatResponse>

  /** `generate_stream`: the chunks yielded, and the exception that ended the stream early, if any. */
  datatype ChunkStream = ChunkStream(chunks: seq<string>, failure: Option<string>)

  type StreamProvider = seq<Message> -> ChunkStream

  /** `Message(role="user", content=message)`: no model, the load-time default timestamp. */
  function UserMessage(message: string, loadTime: int): (m: Message)
    ensures m.role == "user" && m.content == JStr(message) && m.model.None?
    ensures !Aware(m.timestamp)
  {
    Message("user", JStr(message), None, Stamp(loadTime, None))
  }

  /**
   * What the provider is given: the history (an absent history and an
   * empty one alike are a fresh empty list) followed by the user message.
   */
  function Sent(history: seq<Message>, message: string, loadTime: int): (s: seq<Message>)
    ensures |s| == |history| + 1
    ensures s[..|history|] == history
    ensures s[|history|] == UserMessage(message, loadTime)
  {
    history + [UserMessage(message, loadTime)]
  }

  /** The contents of a history argument that may be `None`. */
  function HistoryOf(history: PyList?<Message>): seq<Message>
    reads history
  {
    if history == null then [] else history.items
  }

  class ChatService {
    const generateResponse: ResponseProvider
    const generateStream: StreamProvider
    const loadTime: int

    constructor (generateResponse: ResponseProvider, generateStream: StreamProvider, loadTime: int)
      ensures this.generateResponse == generateResponse && this.generateStream == generateStream
      ensures this.loadTime == loadTime
    {
      this.generateResponse := generateResponse;
      this.generateStream := generateStream;
      this.loadTime := loadTime;
    }

    /**
     * `messages = conversation_messages or []` then one append: a non-empty
     * list of the caller's is extended in place; `None` or an empty list
     * leaves the caller's list as it was.
     */
    method WithUserMessage(message: string, history: PyList?<Message>) returns (messages: PyList<Message>)
      modifies history
      ensures messages.items == Sent(old(HistoryOf(history)), message, loadTime)
      ensures history != null && |old(history.items)| > 0 ==> messages == history
      ensures history != null && |old(history.items)| == 0 ==> history.items == []
    {
      if history != null && |history.items| > 0 {
        messages := history;
      } else {
        messages := new PyList([]);
      }
      messages.Append(UserMessage(message, loadTime));
    }

    /** `process_message`: the provider's answer to the history plus the user message. */
    method ProcessMessage(message: string, history: PyList?<Message>) returns (r: Result<ChatResponse>)
      modifies history
      ensures r == generateResponse(Sent(old(HistoryOf(history)), message, loadTime))
      ensures history != null && |old(history.items)| > 0 ==> history.items == Sent(old(history.items), message, loadTime)
      ensures history != null && |old(history.items)| == 0 ==> history.items == []
    {
      var messages := WithUserMessage(message, history);
      r := generateResponse(messages.items);
    }

    /** `stream_response`: every chunk the provider yields, in order, and the failure that ended it. */
    method StreamResponse(message: string, history: PyList?<Message>) returns (out: seq<string>, failure: Option<string>)
      modifies history
      ensures var s := generateStream(Sent(old(HistoryOf(history)), message, loadTime));
        out == s.chunks && failure == s.failure
      ensures history != null && |old(history.items)| > 0 ==> history.items == Sent(old(history.items), message, loadTime)
      ensures history != null && |old(history.items)| == 0 ==> history.items == []
    {
      var messages := WithUserMessage(message, history);
      var s := generateStream(messages.items);
      out := [];
      var i := 0;
      while i < |s.chunks|
        invariant 0 <= i <= |s.chunks|
        invariant out == s.chunks[..i]
      {
        out := out + [s.chunks[i]];
        i := i + 1;
      }
      failure := s.failure;
    }
  }

  /** Dropping the caller's list from the picture: with no history the provider sees just the user message. */
  lemma NoHistorySendsOneMessage(message: string, loadTime: int)
    ensures Sent([], message, loadTime) == [UserMessage(message, loadTime)]
  {
  }

  // ---------------------------------------------------------------------
  // The chat router.
  // ---------------------------------------------------------------------

  datatype MessageSchema = MessageSchema(role: string, content: string, model: Option<string>, timestamp: Option<Stamp>)

  /** `model` defaults to gpt-4o and is not forwarded. */
  datatype ChatRequestSchema = ChatRequestSchema(conversationId: string, messages: seq<MessageSchema>, model: string)

  datatype ChatResponseSchema = ChatResponseSchema(reply: string, model: string, timestamp: Stamp)

  const ServerError: string := "Internal Server Error"

  /** One request message as a domain message; a missing timestamp is the naive `utcnow()`. */
  function DomainMessage(m: MessageSchema, now: int): Message
  {
    Message(m.role, JStr(m.content), m.model, if m.timestamp.Some? then m.timestamp.value else Stamp(now, None))
  }

  /** The converted request messages, one for one and in order. */
  function DomainMessages(ms: seq<MessageSchema>, now: int): (r: seq<Message>)
    ensures |r| == |ms|
    ensures forall k :: 0 <= k < |ms| ==>
      r[k].role == ms[k].role && r[k].content == JStr(ms[k].content) && r[k].model == ms[k].model
      && (ms[k].timestamp.Some? ==> r[k].timestamp == ms[k].timestamp.value)
      && (ms[k].timestamp.None? ==> r[k].timestamp == Stamp(now, None))
  {
    seq(|ms|, k requires 0 <= k < |ms| => DomainMessage(ms[k], now))
  }

  /** What the routes hand the service: the last message's text, and all earlier messages as history. */
  function ProviderInput(request: ChatRequestSchema, now: int, loadTime: int): (s: seq<Message>)
    requires |request.messages| > 0
    ensures |s| == |request.messages|
    ensures s[..|s| - 1] == DomainMessages(request.messages, now)[..|s| - 1]
    ensures s[|s| - 1] == UserMessage(request.messages[|request.messages| - 1].content, loadTime)
  {
    var n := |request.messages|;
    Sent(DomainMessages(request.messages, now)[..n - 1], request.messages[n - 1].content, loadTime)
  }

  /**
   * `chat`: with no messages the index `[-1]` raises; a provider exception
   * and a reply without text (which the response model refuses) are server
   * errors too; otherwise the provider's reply, model and timestamp.
   */
  function Chat(request: ChatRequestSchema, provider: ResponseProvider, now: int, loadTime: int): (resp: Response<ChatResponseSchema>)
    ensures |request.messages| == 0 ==> resp == HttpError(500, ServerError)
    ensures resp.Success? <==> |request.messages| > 0 && provider(ProviderInput(request, now, loadTime)).Ok?
                               && provider(ProviderInput(request, now, loadTime)).value.content.Some?
    ensures resp.Success? ==> var a := provider(ProviderInput(request, now, loadTime)).value;
      resp == Success(200, ChatResponseSchema(a.content.value, a.model, a.timestamp))
  {
    if |request.messages| == 0 then HttpError(500, ServerError)
    else
      match provider(ProviderInput(request, now, loadTime))
      case Err(_) => HttpError(500, ServerError)
      case Ok(a) =>
        if a.content.None? then HttpError(500, ServerError)
        else Success(200, ChatResponseSchema(a.content.value, a.model, a.timestamp))
  }

  /** `f"data: {chunk}\n\n"`: the chunk's raw text, not JSON. */
  function RawFrame(chunk: string): string
  {
    DataPrefix + chunk + "\n\n"
  }

  function RawFrames(chunks: seq<string>): (r: seq<string>)
    ensures |r| == |chunks|
    ensures forall k :: 0 <= k < |chunks| ==> r[k] == RawFrame(chunks[k])
  {
    if |chunks| == 0 then [] else RawFrames(chunks[..|chunks| - 1]) + [RawFrame(chunks[|chunks| - 1])]
  }

  /**
   * The streamed body: the response has already begun with status 200, so
   * an empty request or a provider failure only breaks the stream off.
   */
  datatype EventStream = EventStream(frames: seq<string>, broken: bool)

  function StreamChat(request: ChatRequestSchema, provider: StreamProvider, now: int, loadTime: int): (body: EventStream)
    ensures |request.messages| == 0 ==> body == EventStream([], true)
    ensures |request.messages| > 0 ==> var s := provider(ProviderInput(request, now, loadTime));
      body.frames == RawFrames(s.chunks) && (body.broken <==> s.failure.Some?)
  {
    if |request.messages| == 0 then EventStream([], true)
    else
      var s := provider(ProviderInput(request, now, loadTime));
      EventStream(RawFrames(s.chunks), s.failure.Some?)
  }

  // ---------------------------------------------------------------------
  // The raw framing against the browser's decoder, which JSON-parses
  // every payload and reads its `content` field.
  // ---------------------------------------------------------------------

  /**
   * A chunk of plain reply text that is not a JSON text, framed raw,
   * yields no delta in the browser.
   */
  lemma RawFrameYieldsNothing(chunk: string, parse: Parser)
    requires |chunk| > 0 && '\n' !in chunk && !IsJsSpace(chunk[0]) && !IsJsSpace(chunk[|chunk| - 1])
    requires parse(chunk).None?
    ensures ChunkDeltas(RawFrame(chunk), ClassifierOf(parse)) == []
  {
    var line := DataPrefix + chunk;
    var ev := ClassifierOf(parse);
    FastApiApp.FrameSplit(chunk);
    assert CompleteParts(RawFrame(chunk), '\n') == [line, ""];
    TrimOfUnspaced(line);
    assert line[|DataPrefix|..] == chunk;
    TrimOfUnspaced(chunk);
    assert DataField(line) == Some(chunk);
    assert JsTrim("") == "";
    assert DataField("") == None;
    assert ev(line) == Classify(line, parse);
    assert LineDelta(line, ev) == [];
    assert [line, ""][..1] == [line];
    assert [line][..0] == [];
    assert Deltas([line, ""], ev) == Deltas([line], ev) + LineDelta("", ev);
  }

  /** A parser that, like `JSON.parse` here, only gives a payload for an object text. */
  function ObjectsOnly(p: string): Option<Payload>
  {
    if |p| > 0 && p[0] == '{' then Some(Payload(None, None, false)) else None
  }

  /** The provider streams "Hello"; the browser reads no delta from the raw frame. */
  lemma RawStreamLosesReply()
    ensures RawFrames(["Hello"]) == [DataPrefix + "Hello" + "\n\n"]
    ensures PerChunkDeltas(RawFrames(["Hello"]), ClassifierOf(ObjectsOnly)) == []
  {
    var chunk := "Hello";
    assert chunk[0] == 'H' && chunk[4] == 'o';
    assert '\n' !in chunk by {
      assert forall k :: 0 <= k < |chunk| ==> chunk[k] != '\n';
    }
    assert ObjectsOnly(chunk).None?;
    RawFrameYieldsNothing(chunk, ObjectsOnly);
    var frames := RawFrames([chunk]);
    assert frames == [RawFrame(chunk)];
    assert frames[..0] == [];
  }
}
