/**
 * The single-file FastAPI back end: the routes over the conversation store,
 * the `data: <json>\n\n` framing of the reply stream, and the rebuilding of
 * stored messages into request models. `json.dumps`, `json.loads`, Python's
 * `str()` of a decoded value and the wording of Python and pydantic
 * exceptions are parameters.
 */
module FastApiApp {
  import opened Wrappers
  import opened Text
  import opened Json
  import opened Http
  import opened Tables
  import opened StreamDecoder
  import opened BotChat
  import opened Containers
  import ApiDatabase

  // ---------------------------------------------------------------------
  // Request models.
  // ---------------------------------------------------------------------

  datatype MessageContent = MessageContent(kind: string, text: Option<string>, imageUrl: Option<map<string, Json>>)

  /** `Union[str, List[MessageContent]]`. */
  datatype Content = Plain(s: string) | Parts(parts: seq<MessageContent>)

  datatype ApiMessage = ApiMessage(role: string, content: Content, model: Option<string>)

  datatype ChatRequest = ChatRequest(conversationId: string, messages: seq<ApiMessage>, model: string)

  datatype SaveRequest = SaveRequest(conversationId: string, conversationName: string, messages: seq<ApiMessage>)

  datatype SaveResponse = SaveResponse(message: string, conversationId: string, conversationName: string, lastUpdated: string)

  datatype ConversationResponse = ConversationResponse(conversationId: string, conversationName: string, messages: seq<ApiMessage>, lastUpdated: string)

  const SavedMessage: string := "Conversation saved successfully"

  const InvalidMessages: string := "Invalid messages format"

  const NotFound: string := "Conversation not found"

  const NameFailed: string := "Failed to generate conversation name"

  function OptStr(v: Option<string>): Json
  {
    if v.Some? then JStr(v.value) else JNull
  }

  /** `model_dump()` of a content part. */
  function PartJson(p: MessageContent): Json
  {
    JObj(map["type" := JStr(p.kind), "text" := OptStr(p.text),
             "image_url" := if p.imageUrl.Some? then JObj(p.imageUrl.value) else JNull])
  }

  function ContentJson(c: Content): Json
  {
    match c
    case Plain(s) => JStr(s)
    case Parts(ps) => JArr(seq(|ps|, k requires 0 <= k < |ps| => PartJson(ps[k])))
  }

  /** `model_dump()` of a message. */
  function MessageJson(m: ApiMessage): Json
  {
    JObj(map["role" := JStr(m.role), "content" := ContentJson(m.content), "model" := OptStr(m.model)])
  }

  function Encoded(ms: seq<ApiMessage>): (js: seq<Json>)
    ensures |js| == |ms| && forall k :: 0 <= k < |ms| ==> js[k] == MessageJson(ms[k])
  {
    seq(|ms|, k requires 0 <= k < |ms| => MessageJson(ms[k]))
  }

  // ---------------------------------------------------------------------
  // The stream: `stream_chat`.
  // ---------------------------------------------------------------------

  /** The message list `stream_chat` hands on: role and content, and the model only when it is truthy. */
  function ProcessedMessages(ms: seq<ApiMessage>): (ts: seq<Turn>)
    ensures |ts| == |ms|
    ensures forall k :: 0 <= k < |ms| ==> ts[k].role == ms[k].role && ts[k].content == ContentJson(ms[k].content)
    ensures forall k :: 0 <= k < |ms| ==> (ts[k].model.Some? <==> ms[k].model.Some? && ms[k].model.value != "")
    ensures forall k :: 0 <= k < |ms| ==> ts[k].model.Some? ==> ts[k].model == ms[k].model
  {
    seq(|ms|, k requires 0 <= k < |ms| =>
      Turn(ms[k].role, ContentJson(ms[k].content),
           if ms[k].model.Some? && ms[k].model.value != "" then ms[k].model else None))
  }

  /** One event of the reply stream. */
  function Frame(chunk: Json, dumps: Json -> string): string
  {
    DataPrefix + dumps(chunk) + "\n\n"
  }

  function Frames(cs: seq<Json>, dumps: Json -> string): (fs: seq<string>)
    ensures |fs| == |cs| && forall k :: 0 <= k < |cs| ==> fs[k] == Frame(cs[k], dumps)
  {
    if |cs| == 0 then [] else Frames(cs[..|cs| - 1], dumps) + [Frame(cs[|cs| - 1], dumps)]
  }

  /** `stream_chat`: 400 for an empty list, else one frame per chunk of the reply stream. */
  method StreamChat(request: ChatRequest, stream: StreamClient, complete: CompleteClient, dumps: Json -> string)
    returns (resp: Response<seq<string>>)
    ensures |request.messages| == 0 ==> resp == HttpError(400, InvalidMessages)
    ensures |request.messages| > 0 ==>
      resp == Success(200, Frames(BotStream(ProcessedMessages(request.messages), request.model, stream, complete), dumps))
  {
    if |request.messages| == 0 {
      return HttpError(400, InvalidMessages);
    }
    var processed := new PyList(ProcessedMessages(request.messages));
    var chunks := BotResponseStream(processed, request.model, stream, complete);
    var frames: seq<string> := [];
    var i := 0;
    while i < |chunks|
      invariant 0 <= i <= |chunks|
      invariant frames == Frames(chunks[..i], dumps)
    {
      assert chunks[..i + 1][..i] == chunks[..i];
      frames := frames + [DataPrefix + dumps(chunks[i]) + "\n\n"];
      i := i + 1;
    }
    assert chunks[..i] == chunks;
    resp := Success(200, frames);
  }

  // ---------------------------------------------------------------------
  // The framing read back by the browser decoder.
  // ---------------------------------------------------------------------

  /** What `json.dumps` gives for a dict: braces at both ends and no raw line break. */
  predicate DumpedObject(d: string)
  {
    |d| >= 2 && d[0] == '{' && d[|d| - 1] == '}' && '\n' !in d
  }

  function TextField(f: map<string, Json>, key: string): Option<string>
  {
    if key in f && f[key].JStr? && f[key].s != "" then Some(f[key].s) else None
  }

  /** The fields the browser reads off a chunk whose values are strings or null. */
  function ChunkView(c: Json): Payload
  {
    match c
    case JObj(f) => Payload(TextField(f, "content"), TextField(f, "error"), false)
    case _ => Payload(None, None, false)
  }

  /** The delta a chunk carries to the browser, if any. */
  function ChunkText(c: Json): seq<string>
  {
    if ChunkView(c).content.Some? then [ChunkView(c).content.value] else []
  }

  function ChunkTexts(cs: seq<Json>): seq<string>
  {
    if |cs| == 0 then [] else ChunkTexts(cs[..|cs| - 1]) + ChunkText(cs[|cs| - 1])
  }

  /** The browser parses what the server dumped as the chunk it was. */
  predicate ReadsBack(cs: seq<Json>, dumps: Json -> string, parse: Parser)
  {
    forall k :: 0 <= k < |cs| ==> DumpedObject(dumps(cs[k])) && parse(dumps(cs[k])) == Some(ChunkView(cs[k]))
  }

  lemma FrameSplit(d: string)
    requires '\n' !in d
    ensures Split(DataPrefix + d + "\n\n", '\n') == [DataPrefix + d, "", ""]
  {
    var line := DataPrefix + d;
    assert '\n' !in line by {
      assert forall k :: 0 <= k < |DataPrefix| ==> line[k] == DataPrefix[k];
      assert forall k :: |DataPrefix| <= k < |line| ==> line[k] == d[k - |DataPrefix|];
    }
    SplitNoSeparator(line, '\n');
    assert "\n\n"[1..] == "\n" && "\n"[1..] == "";
    assert Split("\n\n", '\n') == ["", "", ""];
    SplitAppend(line, "\n\n", '\n');
    assert line + "" == line;
  }

  /** A frame is one `data:` line and an empty line, and the line carries the chunk's delta. */
  lemma FrameDecodes(c: Json, dumps: Json -> string, parse: Parser)
    requires DumpedObject(dumps(c)) && parse(dumps(c)) == Some(ChunkView(c))
    ensures ChunkDeltas(Frame(c, dumps), ClassifierOf(parse)) == ChunkText(c)
  {
    var d := dumps(c);
    var line := DataPrefix + d;
    var ev := ClassifierOf(parse);
    FrameSplit(d);
    assert CompleteParts(Frame(c, dumps), '\n') == [line, ""];
    TrimOfUnspaced(line);
    assert line[|DataPrefix|..] == d;
    TrimOfUnspaced(d);
    assert DataField(line) == Some(d);
    assert JsTrim("") == "";
    assert DataField("") == None;
    assert ev(line) == Classify(line, parse);
    assert LineDelta(line, ev) == ChunkText(c);
    assert [line, ""][..1] == [line];
    assert [line][..0] == [];
    assert Deltas([line], ev) == LineDelta(line, ev);
    assert LineDelta("", ev) == [];
    assert Deltas([line, ""], ev) == Deltas([line], ev) + LineDelta("", ev);
  }

  lemma {:induction false} FramesDecode(cs: seq<Json>, dumps: Json -> string, parse: Parser)
    requires ReadsBack(cs, dumps, parse)
    ensures PerChunkDeltas(Frames(cs, dumps), ClassifierOf(parse)) == ChunkTexts(cs)
  {
    if |cs| > 0 {
      var init := cs[..|cs| - 1];
      assert ReadsBack(init, dumps, parse) by {
        forall k | 0 <= k < |init| ensures DumpedObject(dumps(init[k])) && parse(dumps(init[k])) == Some(ChunkView(init[k])) {
          assert init[k] == cs[k];
        }
      }
      FramesDecode(init, dumps, parse);
      FrameDecodes(cs[|cs| - 1], dumps, parse);
      assert Frames(cs, dumps)[..|cs| - 1] == Frames(init, dumps);
    }
  }

  /**
   * The framing round trip: however the framed stream is cut into network
   * chunks, the residual-carrying decoder reads exactly the chunks' deltas
   * and is left with nothing buffered; the per-chunk decoder reads the same
   * when every network chunk is one frame.
   */
  lemma StreamRoundTrip(cs: seq<Json>, dumps: Json -> string, parse: Parser, net: seq<string>)
    requires ReadsBack(cs, dumps, parse)
    requires Concat(net) == Concat(Frames(cs, dumps))
    ensures Carry(net).residual == ""
    ensures Deltas(Carry(net).lines, ClassifierOf(parse)) == ChunkTexts(cs)
    ensures PerChunkDeltas(Frames(cs, dumps), ClassifierOf(parse)) == ChunkTexts(cs)
  {
    var fs := Frames(cs, dumps);
    forall k | 0 <= k < |fs| ensures fs[k] == "" || fs[k][|fs[k]| - 1] == '\n' {
      assert fs[k] == DataPrefix + dumps(cs[k]) + "\n\n";
    }
    AlignedChunksDecodeAlike(fs, ClassifierOf(parse));
    FramesDecode(cs, dumps, parse);
    CarryIgnoresChunking(net, fs);
  }

  /** The chunks a streaming model emits carry, in order, exactly its non-empty pieces. */
  lemma {:induction false} ContentChunkTexts(ts: seq<string>)
    requires forall k :: 0 <= k < |ts| ==> ts[k] != ""
    ensures ChunkTexts(ContentChunks(ts)) == ts
  {
    if |ts| > 0 {
      var init, last := ts[..|ts| - 1], ts[|ts| - 1];
      ContentChunkTexts(init);
      var cs := ContentChunks(ts);
      assert cs[..|ts| - 1] == ContentChunks(init);
      ContentChunkText(last);
    }
  }

  /** A content chunk carries its text to the browser. */
  lemma ContentChunkText(t: string)
    requires t != ""
    ensures ChunkText(ContentChunk(JStr(t))) == [t]
  {
    assert ChunkView(ContentChunk(JStr(t))).content == TextField(map["content" := JStr(t)], "content");
  }

  lemma ChunkTextsAppend(xs: seq<Json>, ys: seq<Json>)
    requires |ys| <= 1
    ensures ChunkTexts(xs + ys) == ChunkTexts(xs) + ChunkTexts(ys)
  {
    if |ys| == 1 {
      assert (xs + ys)[..|xs + ys| - 1] == xs;
      assert ys[..0] == [];
    } else {
      assert xs + ys == xs;
    }
  }

  /** The deltas of a streaming model's chunks are its non-empty pieces; a final error chunk adds none. */
  lemma StreamedChunkTexts(pieces: seq<Option<string>>, failure: Option<string>)
    ensures ChunkTexts(ContentChunks(NonEmpty(pieces)) + (if failure.Some? then [ErrorChunk(failure.value)] else []))
      == NonEmpty(pieces)
  {
    var tail: seq<Json> := if failure.Some? then [ErrorChunk(failure.value)] else [];
    ContentChunkTexts(NonEmpty(pieces));
    ChunkTextsAppend(ContentChunks(NonEmpty(pieces)), tail);
    if failure.Some? {
      assert tail[..0] == [];
      assert ChunkView(tail[0]).content == None;
    }
  }

  /**
   * End to end: for a streaming model, the browser's deltas, joined, are
   * the text the completion client produced, whatever the network chunking;
   * a failure adds nothing to the text.
   */
  lemma BrowserReceivesTheCompletion(msgs: seq<Turn>, model: string, stream: StreamClient, complete: CompleteClient,
                                     dumps: Json -> string, parse: Parser, net: seq<string>)
    requires |msgs| > 0 && !IsO1(model)
    requires ReadsBack(BotStream(msgs, model, stream, complete), dumps, parse)
    requires Concat(net) == Concat(Frames(BotStream(msgs, model, stream, complete), dumps))
    ensures Concat(Deltas(Carry(net).lines, ClassifierOf(parse)))
      == Concat(PieceTexts(stream(Prompted(msgs, model).value, model).pieces))
  {
    var r := stream(Prompted(msgs, model).value, model);
    var cs := BotStream(msgs, model, stream, complete);
    StreamRoundTrip(cs, dumps, parse, net);
    StreamedChunkTexts(r.pieces, r.failure);
    NonEmptyKeepsText(r.pieces);
  }

  // ---------------------------------------------------------------------
  // Replies and names.
  // ---------------------------------------------------------------------

  /** The user text `chat` sends: the content if a string, else its first part's text. */
  function UserMessage(m: ApiMessage): Result<Json>
  {
    match m.content
    case Plain(s) => Ok(JStr(s))
    case Parts(ps) => if |ps| == 0 then Err(EmptyListError) else Ok(OptStr(ps[0].text))
  }

  /** `chat`: 400 for an empty list; otherwise the reply to the last message's text. */
  function Chat(request: ChatRequest, client: ReplyClient): (resp: Response<string>)
    ensures |request.messages| == 0 <==> resp == HttpError(400, InvalidMessages)
    ensures |request.messages| > 0 ==>
      var last := request.messages[|request.messages| - 1];
      match UserMessage(last)
      case Ok(u) => resp == Success(200, GetBotResponse(u, client))
      case Err(e) => resp == HttpError(500, e)
  {
    if |request.messages| == 0 then HttpError(400, InvalidMessages)
    else
      match UserMessage(request.messages[|request.messages| - 1])
      case Ok(u) => Success(200, GetBotResponse(u, client))
      case Err(e) => HttpError(500, e)
  }

  /** `generate_name`: 500 when the name is empty or mentions "error", in any case. */
  function GenerateName(message: string, client: NameClient): (resp: Response<string>)
    ensures var name := GenerateConversationName(message, client);
      (resp == HttpError(500, NameFailed) <==> name == "" || MentionsError(name))
      && (resp.Success? ==> resp == Success(200, name))
  {
    var name := GenerateConversationName(message, client);
    if name == "" || MentionsError(name) then HttpError(500, NameFailed) else Success(200, name)
  }

  /** The text of the completion client's timeout error. */
  const TimeoutText: string := "Request timed out."

  /** A naming request whose completion call times out. */
  function TimingOutClient(prompt: string): Result<Option<string>>
  {
    Err(TimeoutText)
  }

  /** The timeout's text does not contain "error", so the failure is answered as a name. */
  lemma TimeoutBecomesName(message: string)
    ensures GenerateName(message, TimingOutClient) == Success(200, TimeoutText)
  {
    NoErrorWithoutLaterR(TimeoutText);
  }

  /** The name request with failures kept apart from names: the reply's first four words, or the failure. */
  function ReportedName(message: string, client: NameClient): Result<string>
  {
    match client(NamePrompt(message))
    case Ok(Some(c)) => Ok(FirstWords(PyStrip(c), 4))
    case Ok(None) => Err(NoneStripError)
    case Err(e) => Err(e)
  }

  /** `generate_name` over the reported name: every failure is a 500, whatever its wording. */
  function GenerateNameReported(message: string, client: NameClient): (resp: Response<string>)
    ensures resp.Success? <==> client(NamePrompt(message)).Ok? && client(NamePrompt(message)).value.Some? && ReportedName(message, client).value != ""
    ensures resp.Success? ==> resp.body == GenerateConversationName(message, client)
  {
    match ReportedName(message, client)
    case Ok(name) => if name == "" then HttpError(500, NameFailed) else Success(200, name)
    case Err(_) => HttpError(500, NameFailed)
  }

  // ---------------------------------------------------------------------
  // Stored messages rebuilt: `get_conversation_by_id`.
  // ---------------------------------------------------------------------

  /** The Python failures that end the rebuild, besides a missing key. */
  datatype Failure = NotIterable | NotSubscriptable | Invalid

  /** `str(e)` of such a failure. */
  type Explain = Failure -> string

  /** `str(KeyError(key))`. */
  function KeyErrorText(key: string): string
  {
    "'" + key + "'"
  }

  /** The values a pydantic `Optional[str]` field accepts: absent, null or a string. */
  predicate OptionalText(v: Option<Json>)
  {
    v.None? || v.value.JNull? || v.value.JStr?
  }

  function TextOf(v: Option<Json>): Option<string>
  {
    if v.Some? && v.value.JStr? then Some(v.value.s) else None
  }

  function DictOf(v: Option<Json>): Option<map<string, Json>>
  {
    if v.Some? && v.value.JObj? then Some(v.value.fields) else None
  }

  /** One content item: a dict is validated as a `MessageContent`, anything else becomes a text part of `str(item)`. */
  function NormalizedItem(item: Json, pyStr: Json -> string, explain: Explain): Result<MessageContent>
  {
    match item
    case JObj(g) =>
      var url := Get(g, "image_url");
      if Get(g, "type").Some? && Get(g, "type").value.JStr? && OptionalText(Get(g, "text"))
         && (url.None? || url.value.JNull? || url.value.JObj?)
      then Ok(MessageContent(g["type"].s, TextOf(Get(g, "text")), DictOf(url)))
      else Err(explain(Invalid))
    case _ => Ok(MessageContent("text", Some(pyStr(item)), None))
  }

  /** The items in order, or the first failure. */
  function NormalizedItems(items: seq<Json>, pyStr: Json -> string, explain: Explain): Result<seq<MessageContent>>
  {
    if |items| == 0 then Ok([])
    else
      match NormalizedItems(items[..|items| - 1], pyStr, explain)
      case Err(e) => Err(e)
      case Ok(ps) =>
        match NormalizedItem(items[|items| - 1], pyStr, explain)
        case Err(e) => Err(e)
        case Ok(p) => Ok(ps + [p])
  }

  /** One decoded message: `content` first, then the items, then `role`, then validation. */
  function NormalizedMessage(m: Json, pyStr: Json -> string, explain: Explain): Result<ApiMessage>
  {
    match m
    case JObj(f) =>
      if "content" !in f then Err(KeyErrorText("content"))
      else if f["content"].JArr? then
        match NormalizedItems(f["content"].items, pyStr, explain)
        case Err(e) => Err(e)
        case Ok(parts) =>
          if "role" !in f then Err(KeyErrorText("role"))
          else if !f["role"].JStr? || !OptionalText(Get(f, "model")) then Err(explain(Invalid))
          else Ok(ApiMessage(f["role"].s, Parts(parts), TextOf(Get(f, "model"))))
      else if "role" !in f then Err(KeyErrorText("role"))
      else if !f["role"].JStr? || !f["content"].JStr? || !OptionalText(Get(f, "model")) then Err(explain(Invalid))
      else Ok(ApiMessage(f["role"].s, Plain(f["content"].s), TextOf(Get(f, "model"))))
    case _ => Err(explain(NotSubscriptable))
  }

  function NormalizedMessages(data: seq<Json>, pyStr: Json -> string, explain: Explain): Result<seq<ApiMessage>>
  {
    if |data| == 0 then Ok([])
    else
      match NormalizedMessages(data[..|data| - 1], pyStr, explain)
      case Err(e) => Err(e)
      case Ok(ms) =>
        match NormalizedMessage(data[|data| - 1], pyStr, explain)
        case Err(e) => Err(e)
        case Ok(m) => Ok(ms + [m])
  }

  /**
   * What `for msg_data in messages_data` iterates over: a list's items; an
   * object's keys or a string's characters, each a string that the next
   * step cannot index by "content", so only an empty one gets through.
   */
  function Elements(j: Json, explain: Explain): Result<seq<Json>>
  {
    match j
    case JArr(items) => Ok(items)
    case JObj(f) => if |f| == 0 then Ok([]) else Err(explain(NotSubscriptable))
    case JStr(s) => if s == "" then Ok([]) else Err(explain(NotSubscriptable))
    case _ => Err(explain(NotIterable))
  }

  /** The dump of a part rebuilds to the same part. */
  lemma PartRoundTrip(p: MessageContent, pyStr: Json -> string, explain: Explain)
    ensures NormalizedItem(PartJson(p), pyStr, explain) == Ok(p)
  {
  }

  lemma {:induction false} PartsRoundTrip(ps: seq<MessageContent>, pyStr: Json -> string, explain: Explain)
    ensures NormalizedItems(seq(|ps|, k requires 0 <= k < |ps| => PartJson(ps[k])), pyStr, explain) == Ok(ps)
  {
    var js := seq(|ps|, k requires 0 <= k < |ps| => PartJson(ps[k]));
    if |ps| > 0 {
      var init := ps[..|ps| - 1];
      PartsRoundTrip(init, pyStr, explain);
      assert js[..|js| - 1] == seq(|init|, k requires 0 <= k < |init| => PartJson(init[k]));
      PartRoundTrip(ps[|ps| - 1], pyStr, explain);
      assert init + [ps[|ps| - 1]] == ps;
    }
  }

  /** The dump of a message rebuilds to the same message. */
  lemma MessageRoundTrip(m: ApiMessage, pyStr: Json -> string, explain: Explain)
    ensures NormalizedMessage(MessageJson(m), pyStr, explain) == Ok(m)
  {
    match m.content
    case Plain(s) =>
    case Parts(ps) => PartsRoundTrip(ps, pyStr, explain);
  }

  /** The dumped list of messages rebuilds to the same list. */
  lemma {:induction false} MessagesRoundTrip(ms: seq<ApiMessage>, pyStr: Json -> string, explain: Explain)
    ensures NormalizedMessages(Encoded(ms), pyStr, explain) == Ok(ms)
  {
    if |ms| > 0 {
      var init := ms[..|ms| - 1];
      MessagesRoundTrip(init, pyStr, explain);
      assert Encoded(ms)[..|ms| - 1] == Encoded(init);
      MessageRoundTrip(ms[|ms| - 1], pyStr, explain);
      assert init + [ms[|ms| - 1]] == ms;
    }
  }

  /** The content loop of `get_conversation_by_id` for one list content. */
  method NormalizeItems(items: seq<Json>, pyStr: Json -> string, explain: Explain) returns (r: Result<seq<MessageContent>>)
    ensures r == NormalizedItems(items, pyStr, explain)
  {
    var contentList: seq<MessageContent> := [];
    var i := 0;
    while i < |items|
      invariant 0 <= i <= |items|
      invariant NormalizedItems(items[..i], pyStr, explain) == Ok(contentList)
    {
      assert items[..i + 1][..i] == items[..i];
      var item := NormalizedItem(items[i], pyStr, explain);
      if item.Err? {
        PrefixFailureItems(items, i + 1, pyStr, explain);
        return Err(item.message);
      }
      contentList := contentList + [item.value];
      i := i + 1;
    }
    assert items[..i] == items;
    r := Ok(contentList);
  }

  lemma {:induction false} PrefixFailureItems(items: seq<Json>, n: nat, pyStr: Json -> string, explain: Explain)
    requires n <= |items|
    requires NormalizedItems(items[..n], pyStr, explain).Err?
    ensures NormalizedItems(items, pyStr, explain) == NormalizedItems(items[..n], pyStr, explain)
    decreases |items| - n
  {
    if n < |items| {
      assert items[..n + 1][..n] == items[..n];
      PrefixFailureItems(items, n + 1, pyStr, explain);
    } else {
      assert items[..n] == items;
    }
  }

  lemma {:induction false} PrefixFailureMessages(data: seq<Json>, n: nat, pyStr: Json -> string, explain: Explain)
    requires n <= |data|
    requires NormalizedMessages(data[..n], pyStr, explain).Err?
    ensures NormalizedMessages(data, pyStr, explain) == NormalizedMessages(data[..n], pyStr, explain)
    decreases |data| - n
  {
    if n < |data| {
      assert data[..n + 1][..n] == data[..n];
      PrefixFailureMessages(data, n + 1, pyStr, explain);
    } else {
      assert data[..n] == data;
    }
  }

  /** One message of the rebuild loop. */
  method NormalizeMessage(m: Json, pyStr: Json -> string, explain: Explain) returns (r: Result<ApiMessage>)
    ensures r == NormalizedMessage(m, pyStr, explain)
  {
    if !m.JObj? {
      return Err(explain(NotSubscriptable));
    }
    var f := m.fields;
    if "content" !in f {
      return Err(KeyErrorText("content"));
    }
    var content: Content;
    if f["content"].JArr? {
      var parts := NormalizeItems(f["content"].items, pyStr, explain);
      if parts.Err? {
        return Err(parts.message);
      }
      content := Parts(parts.value);
    }
    if "role" !in f {
      return Err(KeyErrorText("role"));
    }
    if !f["role"].JStr? || !(f["content"].JArr? || f["content"].JStr?) || !OptionalText(Get(f, "model")) {
      return Err(explain(Invalid));
    }
    if !f["content"].JArr? {
      content := Plain(f["content"].s);
    }
    r := Ok(ApiMessage(f["role"].s, content, TextOf(Get(f, "model"))));
  }

  /** The message loop of `get_conversation_by_id`. */
  method NormalizeMessages(data: seq<Json>, pyStr: Json -> string, explain: Explain) returns (r: Result<seq<ApiMessage>>)
    ensures r == NormalizedMessages(data, pyStr, explain)
  {
    var messages: seq<ApiMessage> := [];
    var i := 0;
    while i < |data|
      invariant 0 <= i <= |data|
      invariant NormalizedMessages(data[..i], pyStr, explain) == Ok(messages)
    {
      assert data[..i + 1][..i] == data[..i];
      var msg := NormalizeMessage(data[i], pyStr, explain);
      if msg.Err? {
        PrefixFailureMessages(data, i + 1, pyStr, explain);
        return Err(msg.message);
      }
      messages := messages + [msg.value];
      i := i + 1;
    }
    assert data[..i] == data;
    r := Ok(messages);
  }

  /** `get_conversation_by_id` on a given table. */
  function GetByIdSpec(rows: seq<ApiDatabase.Row>, id: string, loads: string -> Result<Json>,
                       pyStr: Json -> string, explain: Explain): Response<ConversationResponse>
  {
    match Lookup(rows, ApiDatabase.RowId, id)
    case None => HttpError(404, NotFound)
    case Some(row) =>
      match loads(row.messages)
      case Err(e) => HttpError(500, e)
      case Ok(j) =>
        match Elements(j, explain)
        case Err(e) => HttpError(500, e)
        case Ok(data) =>
          match NormalizedMessages(data, pyStr, explain)
          case Err(e) => HttpError(500, e)
          case Ok(ms) => Success(200, ConversationResponse(row.conversationId, row.conversationName, ms, row.lastUpdated))
  }

  method GetConversationById(db: ApiDatabase.Database, id: string, loads: string -> Result<Json>,
                             pyStr: Json -> string, explain: Explain) returns (resp: Response<ConversationResponse>)
    ensures resp == GetByIdSpec(db.rows, id, loads, pyStr, explain)
    ensures resp == HttpError(404, NotFound) <==> forall k :: 0 <= k < |db.rows| ==> db.rows[k].conversationId != id
  {
    var conversation := db.GetConversation(id);
    if conversation.None? {
      return HttpError(404, NotFound);
    }
    var row := conversation.value;
    var messagesData := loads(row.messages);
    if messagesData.Err? {
      return HttpError(500, messagesData.message);
    }
    var data := Elements(messagesData.value, explain);
    if data.Err? {
      return HttpError(500, data.message);
    }
    var messages := NormalizeMessages(data.value, pyStr, explain);
    if messages.Err? {
      return HttpError(500, messages.message);
    }
    resp := Success(200, ConversationResponse(row.conversationId, row.conversationName, messages.value, row.lastUpdated));
  }

  // ---------------------------------------------------------------------
  // Saving and listing.
  // ---------------------------------------------------------------------

  /** The row `save_conversation_route` stores. */
  function SavedRow(request: SaveRequest, dumps: Json -> string, now: string): ApiDatabase.Row
  {
    ApiDatabase.Row(request.conversationId, request.conversationName, dumps(JArr(Encoded(request.messages))), now)
  }

  /** `save_conversation_route`: the messages dumped, stamped with the current time, and echoed with that time. */
  method SaveConversationRoute(db: ApiDatabase.Database, request: SaveRequest, dumps: Json -> string, now: string)
    returns (resp: Response<SaveResponse>)
    modifies db
    ensures db.rows == Upsert(old(db.rows), ApiDatabase.RowId, SavedRow(request, dumps, now))
    ensures resp == Success(201, SaveResponse(SavedMessage, request.conversationId, request.conversationName, now))
  {
    var messagesJson := dumps(JArr(Encoded(request.messages)));
    db.SaveConversation(request.conversationId, request.conversationName, messagesJson, Some(now), now);
    resp := Success(201, SaveResponse(SavedMessage, request.conversationId, request.conversationName, now));
  }

  /** `list_conversations`: the stored summaries, in table order. */
  method ListConversations(db: ApiDatabase.Database) returns (resp: Response<seq<ApiDatabase.Summary>>)
    ensures resp == Success(200, ApiDatabase.Summaries(db.rows))
  {
    var list := db.GetConversations();
    resp := Success(200, list);
  }

  /**
   * Saving and then fetching a conversation gives back its id, name, the
   * saved messages unchanged and the save's timestamp, when `json.loads`
   * reads back what `json.dumps` wrote.
   */
  lemma SaveThenFetch(rows: seq<ApiDatabase.Row>, request: SaveRequest, now: string, dumps: Json -> string,
                      loads: string -> Result<Json>, pyStr: Json -> string, explain: Explain)
    requires loads(dumps(JArr(Encoded(request.messages)))) == Ok(JArr(Encoded(request.messages)))
    ensures GetByIdSpec(Upsert(rows, ApiDatabase.RowId, SavedRow(request, dumps, now)), request.conversationId, loads, pyStr, explain)
      == Success(200, ConversationResponse(request.conversationId, request.conversationName, request.messages, now))
  {
    UpsertThenLookup(rows, ApiDatabase.RowId, SavedRow(request, dumps, now));
    MessagesRoundTrip(request.messages, pyStr, explain);
  }
}
