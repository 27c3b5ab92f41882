/**
 * The model-facing helpers of both Python back ends: the streaming reply
 * with its system prompt, the one-shot reply, and the conversation name cut
 * to four words. The completion client is a function parameter: what it
 * answers for a given message list and model, or the text of the exception
 * it raises. A generator is modelled by the whole list it yields, since
 * every caller consumes it to the end.
 */
module BotChat {
  import opened Wrappers
  import opened Text
  import opened Json
  import opened Containers

  /** A message as it is handed to the completion client. */
  datatype Turn = Turn(role: string, content: Json, model: Option<string>)

  const SystemPrompt: string := "You are a helpful assistant."

  const SystemTurn: Turn := Turn("system", JStr(SystemPrompt), None)

  /** The models that take neither a system prompt nor streaming. */
  const O1Models: seq<string> := ["o1-preview", "o1-mini"]

  predicate IsO1(model: string)
  {
    model in O1Models
  }

  /** `str(e)` of the `IndexError` raised by `messages[0]` on an empty list. */
  const EmptyListError: string := "list index out of range"

  /** `str(e)` of the `AttributeError` raised by `.strip()` on a `None` reply. */
  const NoneStripError: string := "'NoneType' object has no attribute 'strip'"

  /**
   * A streamed completion: the `delta.content` of every chunk (`None` when
   * absent), and the text of the exception that ended the stream, if one did.
   */
  datatype StreamReply = StreamReply(pieces: seq<Option<string>>, failure: Option<string>)

  /** The completion client asked to stream, for a message list and a model. */
  type StreamClient = (seq<Turn>, string) -> StreamReply

  /** The completion client asked for one whole reply: its `message.content`, or the exception's text. */
  type CompleteClient = (seq<Turn>, string) -> Result<Option<string>>

  /** `{'content': v}`. */
  function ContentChunk(v: Json): Json
  {
    JObj(map["content" := v])
  }

  /** `{'error': message}`. */
  function ErrorChunk(message: string): Json
  {
    JObj(map["error" := JStr(message)])
  }

  // ---------------------------------------------------------------------
  // The reference definitions.
  // ---------------------------------------------------------------------

  /**
   * The list the client is sent: unless the model is an o1 model, a system
   * prompt goes first when the first message is not one, and an empty list
   * raises.
   */
  function Prompted(msgs: seq<Turn>, model: string): (r: Result<seq<Turn>>)
    ensures r.Err? <==> !IsO1(model) && |msgs| == 0
    ensures r.Ok? ==> |r.value| > 0 ==> r.value[0].role == "system" || IsO1(model)
    ensures r.Ok? ==> r.value == msgs || (r.value == [SystemTurn] + msgs && !IsO1(model) && msgs[0].role != "system")
  {
    if IsO1(model) then Ok(msgs)
    else if |msgs| == 0 then Err(EmptyListError)
    else if msgs[0].role != "system" then Ok([SystemTurn] + msgs)
    else Ok(msgs)
  }

  /** The truthy pieces, in order. */
  function NonEmpty(pieces: seq<Option<string>>): (kept: seq<string>)
    ensures |kept| <= |pieces|
    ensures forall k :: 0 <= k < |kept| ==> kept[k] != ""
  {
    if |pieces| == 0 then []
    else
      var last := pieces[|pieces| - 1];
      NonEmpty(pieces[..|pieces| - 1]) + (if last.Some? && last.value != "" then [last.value] else [])
  }

  /** The text of every piece, an absent one counting as empty. */
  function PieceTexts(pieces: seq<Option<string>>): seq<string>
  {
    if |pieces| == 0 then []
    else PieceTexts(pieces[..|pieces| - 1]) + [pieces[|pieces| - 1].GetOr("")]
  }

  /** Dropping the empty pieces loses no text. */
  lemma {:induction false} NonEmptyKeepsText(pieces: seq<Option<string>>)
    ensures Concat(NonEmpty(pieces)) == Concat(PieceTexts(pieces))
  {
    if |pieces| > 0 {
      var init, last := pieces[..|pieces| - 1], pieces[|pieces| - 1];
      NonEmptyKeepsText(init);
      ConcatAppend(NonEmpty(init), if last.Some? && last.value != "" then [last.value] else []);
      ConcatAppend(PieceTexts(init), [last.GetOr("")]);
      ConcatSingle(last.GetOr(""));
      if last.Some? && last.value != "" {
        ConcatSingle(last.value);
      } else {
        assert Concat([]) == "";
      }
    }
  }

  /** One `{'content': t}` per text. */
  function ContentChunks(ts: seq<string>): (cs: seq<Json>)
    ensures |cs| == |ts| && forall k :: 0 <= k < |ts| ==> cs[k] == ContentChunk(JStr(ts[k]))
  {
    if |ts| == 0 then [] else ContentChunks(ts[..|ts| - 1]) + [ContentChunk(JStr(ts[|ts| - 1]))]
  }

  /** What the client's answer to the prompted list turns into: one chunk if not streaming, else a chunk per truthy piece and a trailing error chunk. */
  function Answered(ms: seq<Turn>, model: string, stream: StreamClient, complete: CompleteClient): seq<Json>
  {
    if IsO1(model) then
      match complete(ms, model)
      case Ok(c) => [ContentChunk(if c.Some? then JStr(c.value) else JNull)]
      case Err(e) => [ErrorChunk(e)]
    else
      var r := stream(ms, model);
      ContentChunks(NonEmpty(r.pieces)) + (if r.failure.Some? then [ErrorChunk(r.failure.value)] else [])
  }

  /** What `get_bot_response_stream` of the newer back end yields. */
  function BotStream(msgs: seq<Turn>, model: string, stream: StreamClient, complete: CompleteClient): seq<Json>
  {
    match Prompted(msgs, model)
    case Err(e) => [ErrorChunk(e)]
    case Ok(ms) => Answered(ms, model, stream, complete)
  }

  /** The model the older back end always uses. */
  const DefaultModel: string := "gpt-4o"

  /** What `get_bot_response_stream` of the older back end yields: always a system prompt, always streaming. */
  function OldBotStream(msgs: seq<Turn>, stream: StreamClient): seq<Json>
  {
    if |msgs| == 0 then [ErrorChunk(EmptyListError)]
    else
      var ms := if msgs[0].role != "system" then [SystemTurn] + msgs else msgs;
      Answered(ms, DefaultModel, stream, (_, _) => Err(""))
  }

  /** The older stream is the newer one fixed to `gpt-4o`, which is not an o1 model. */
  lemma OldStreamIsDefaultModel(msgs: seq<Turn>, stream: StreamClient, complete: CompleteClient)
    ensures OldBotStream(msgs, stream) == BotStream(msgs, DefaultModel, stream, complete)
  {
    assert !IsO1(DefaultModel);
  }

  /**
   * A streaming model yields content chunks carrying, in order, exactly
   * the text of the completion, each non-empty, and at most one error
   * chunk, at the end.
   */
  lemma StreamCarriesTheCompletion(msgs: seq<Turn>, model: string, stream: StreamClient, complete: CompleteClient)
    requires !IsO1(model) && |msgs| > 0
    ensures var ms := Prompted(msgs, model).value;
      var r := stream(ms, model);
      var out := BotStream(msgs, model, stream, complete);
      var ts := NonEmpty(r.pieces);
      Concat(ts) == Concat(PieceTexts(r.pieces))
      && out[..|ts|] == ContentChunks(ts)
      && |out| == |ts| + (if r.failure.Some? then 1 else 0)
      && (forall k :: 0 <= k < |ts| ==> out[k] == ContentChunk(JStr(ts[k])) && ts[k] != "")
      && (r.failure.Some? ==> out[|ts|] == ErrorChunk(r.failure.value))
  {
    var r := stream(Prompted(msgs, model).value, model);
    NonEmptyKeepsText(r.pieces);
  }

  /**
   * An o1 model is asked once, without streaming and with the list as it
   * came: the answer is one chunk, the whole reply or the error's text, and
   * the streaming client plays no part.
   */
  lemma O1AnswersInOneChunk(msgs: seq<Turn>, model: string, stream: StreamClient, other: StreamClient, complete: CompleteClient)
    requires IsO1(model)
    ensures var out := BotStream(msgs, model, stream, complete);
      var c := complete(msgs, model);
      |out| == 1
      && (c.Ok? && c.value.Some? ==> out[0] == ContentChunk(JStr(c.value.value)))
      && (c.Ok? && c.value.None? ==> out[0] == ContentChunk(JNull))
      && (c.Err? ==> out[0] == ErrorChunk(c.message))
      && out == BotStream(msgs, model, other, complete)
  {
  }

  /** A streaming model with no messages fails on reading the first one: one error chunk, and no client call. */
  lemma EmptyRequestIsOneError(model: string, stream: StreamClient, complete: CompleteClient)
    requires !IsO1(model)
    ensures BotStream([], model, stream, complete) == [ErrorChunk(EmptyListError)]
  {
  }

  // ---------------------------------------------------------------------
  // The generators, step by step.
  // ---------------------------------------------------------------------

  /** The chunk loop: `{'content': c}` for every truthy `c`. */
  method KeepNonEmpty(pieces: seq<Option<string>>) returns (out: seq<Json>)
    ensures out == ContentChunks(NonEmpty(pieces))
  {
    out := [];
    var i := 0;
    while i < |pieces|
      invariant 0 <= i <= |pieces|
      invariant out == ContentChunks(NonEmpty(pieces[..i]))
    {
      assert pieces[..i + 1][..i] == pieces[..i];
      var c := pieces[i];
      ghost var kept := NonEmpty(pieces[..i]);
      if c.Some? && c.value != "" {
        assert NonEmpty(pieces[..i + 1]) == kept + [c.value];
        assert (kept + [c.value])[..|kept|] == kept;
        out := out + [ContentChunk(JStr(c.value))];
      } else {
        assert NonEmpty(pieces[..i + 1]) == kept;
      }
      i := i + 1;
    }
    assert pieces[..i] == pieces;
  }

  /** Calling the client on the prompted list and turning its answer into chunks. */
  method Answer(ms: seq<Turn>, model: string, stream: StreamClient, complete: CompleteClient) returns (out: seq<Json>)
    ensures out == Answered(ms, model, stream, complete)
  {
    if model in O1Models {
      var r := complete(ms, model);
      match r
      case Ok(c) => out := [ContentChunk(if c.Some? then JStr(c.value) else JNull)];
      case Err(e) => out := [ErrorChunk(e)];
    } else {
      var r := stream(ms, model);
      out := KeepNonEmpty(r.pieces);
      if r.failure.Some? {
        out := out + [ErrorChunk(r.failure.value)];
      }
    }
  }

  /** `get_bot_response_stream` of the newer back end; the prompt is inserted into the caller's list. */
  method BotResponseStream(messages: PyList<Turn>, model: string, stream: StreamClient, complete: CompleteClient)
    returns (out: seq<Json>)
    modifies messages
    ensures out == BotStream(old(messages.items), model, stream, complete)
    ensures messages.items == (if Prompted(old(messages.items), model).Ok? then Prompted(old(messages.items), model).value else old(messages.items))
  {
    ghost var m0 := messages.items;
    if model !in O1Models {
      if |messages.items| == 0 {
        return [ErrorChunk(EmptyListError)];
      }
      if messages.items[0].role != "system" {
        messages.Insert(0, SystemTurn);
        assert messages.items == [SystemTurn] + m0;
      }
    }
    assert Prompted(m0, model) == Ok(messages.items);
    out := Answer(messages.items, model, stream, complete);
  }

  /** `get_bot_response_stream` of the older back end. */
  method OldBotResponseStream(messages: PyList<Turn>, stream: StreamClient) returns (out: seq<Json>)
    modifies messages
    ensures out == OldBotStream(old(messages.items), stream)
    ensures |old(messages.items)| > 0 && old(messages.items)[0].role != "system" ==>
      messages.items == [SystemTurn] + old(messages.items)
    ensures |old(messages.items)| == 0 || old(messages.items)[0].role == "system" ==>
      messages.items == old(messages.items)
  {
    ghost var m0 := messages.items;
    if |messages.items| == 0 {
      return [ErrorChunk(EmptyListError)];
    }
    if messages.items[0].role != "system" {
      messages.Insert(0, SystemTurn);
      assert messages.items == [SystemTurn] + m0;
    }
    assert !IsO1(DefaultModel);
    out := Answer(messages.items, DefaultModel, stream, (_, _) => Err(""));
  }

  // ---------------------------------------------------------------------
  // One-shot replies and names.
  // ---------------------------------------------------------------------

  /** The completion client for a one-shot reply, for the message list it is sent. */
  type ReplyClient = seq<Turn> -> Result<Option<string>>

  /** `get_bot_response`: the stripped reply to a system prompt and the user message, or the exception's text. */
  function GetBotResponse(userMessage: Json, client: ReplyClient): (reply: string)
    ensures match client([SystemTurn, Turn("user", userMessage, None)])
      case Ok(Some(c)) => reply == PyStrip(c)
      case Ok(None) => reply == NoneStripError
      case Err(e) => reply == e
  {
    match client([SystemTurn, Turn("user", userMessage, None)])
    case Ok(Some(c)) => PyStrip(c)
    case Ok(None) => NoneStripError
    case Err(e) => e
  }

  /** A successful reply has no whitespace left to strip. */
  lemma BotReplyIsStripped(userMessage: Json, client: ReplyClient)
    requires var r := client([SystemTurn, Turn("user", userMessage, None)]); r.Ok? && r.value.Some?
    ensures PyStrip(GetBotResponse(userMessage, client)) == GetBotResponse(userMessage, client)
  {
    var c := client([SystemTurn, Turn("user", userMessage, None)]).value.value;
    TrimIdempotent(c, IsPySpace);
  }

  /** The prompt the naming request sends. */
  function NamePrompt(message: string): string
  {
    "Generate a brief, 3-4 word conversation title for the following message:\n\n\"" + message + "\""
  }

  /** The completion client for a title, for the prompt it is sent. */
  type NameClient = string -> Result<Option<string>>

  /** `generate_conversation_name`: the first four words of the stripped reply, or the exception's text. */
  function GenerateConversationName(message: string, client: NameClient): string
  {
    match client(NamePrompt(message))
    case Ok(Some(c)) => FirstWords(PyStrip(c), 4)
    case Ok(None) => NoneStripError
    case Err(e) => e
  }

  /** A generated name is the reply's first four words (at most), single-spaced; stripping first changes nothing. */
  lemma GeneratedNameIsFirstFourWords(message: string, client: NameClient)
    requires var r := client(NamePrompt(message)); r.Ok? && r.value.Some?
    ensures var ws := Words(client(NamePrompt(message)).value.value);
      Words(GenerateConversationName(message, client)) == (if |ws| <= 4 then ws else ws[..4])
      && GenerateConversationName(message, client) == FirstWords(client(NamePrompt(message)).value.value, 4)
  {
    var c := client(NamePrompt(message)).value.value;
    WordsOfStrip(c);
    FirstWordsAreAPrefix(PyStrip(c), 4);
  }
}
