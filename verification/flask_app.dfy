/**
 * The Flask app: request validation for chat, naming and saving, and the
 * list route that decodes each stored row's messages. A request body is the
 * decoded JSON value; `json.dumps`/`json.loads` and Python's `str()` are
 * function parameters (with `str()` the identity on strings), and so is the text of the `TypeError` that indexing
 * a value that is not a dict by `'content'` raises.
 */
module FlaskApp {
  import opened Wrappers
  import opened Text
  import opened Json
  import opened Http
  import opened Tables
  import opened BotChat
  import opened FlaskDatabase
  import FastApiApp

  const InvalidChat: string := "Invalid conversation ID or messages"
  const MessageMissing: string := "Message is missing"
  const SaveMissing: string := "Missing conversation ID, name, or messages"
  const Saved: string := "Conversation saved successfully"
  /** What Flask answers for an exception no handler catches. */
  const ServerError: string := "Internal Server Error"

  /** The name Python gives the type of a decoded value. */
  function PyTypeName(v: Json): string
  {
    match v
    case JNull => "NoneType"
    case JBool(_) => "bool"
    case JNum(_) => "int"
    case JStr(_) => "str"
    case JArr(_) => "list"
    case JObj(_) => "dict"
  }

  /** The `AttributeError` that `data.get` raises when the body is not an object. */
  function NoGetText(v: Json): string
  {
    "'" + PyTypeName(v) + "' object has no attribute 'get'"
  }

  /** `messages[-1]['content']` for a non-empty list. */
  function LastContent(messages: seq<Json>, subscriptError: Json -> string): (r: Result<Json>)
    requires |messages| > 0
    ensures var last := messages[|messages| - 1];
      (r.Ok? <==> last.JObj? && "content" in last.fields) && (r.Ok? ==> r.value == last.fields["content"])
    ensures var last := messages[|messages| - 1];
      last.JObj? && "content" !in last.fields ==> r == Err(FastApiApp.KeyErrorText("content"))
  {
    var last := messages[|messages| - 1];
    match last
    case JObj(f) => if "content" in f then Ok(f["content"]) else Err(FastApiApp.KeyErrorText("content"))
    case _ => Err(subscriptError(last))
  }

  /**
   * `chat`: 400 unless the id is truthy and the messages are a non-empty
   * list; the reply to the last message's content; any exception raised on
   * the way is a 500 carrying its text.
   */
  function Chat(data: Json, client: ReplyClient, subscriptError: Json -> string): (resp: Response<string>)
    ensures !data.JObj? ==> resp == HttpError(500, NoGetText(data))
    ensures data.JObj? ==>
      var id := Get(data.fields, "conversation_id");
      var ms := Get(data.fields, "messages");
      (resp == HttpError(400, InvalidChat) <==> !PyTruthy(id) || !PyTruthy(ms) || !ms.value.JArr?)
    ensures resp.Success? ==>
      var ms := data.fields["messages"].items;
      exists u :: LastContent(ms, subscriptError) == Ok(u) && resp == Success(200, GetBotResponse(u, client))
  {
    if !data.JObj? then HttpError(500, NoGetText(data))
    else
      var id := Get(data.fields, "conversation_id");
      var ms := Get(data.fields, "messages");
      if !PyTruthy(id) || !PyTruthy(ms) || !ms.value.JArr? then HttpError(400, InvalidChat)
      else
        match LastContent(ms.value.items, subscriptError)
        case Ok(u) => Success(200, GetBotResponse(u, client))
        case Err(e) => HttpError(500, e)
  }

  /**
   * `generate_conversation_name_route`: 400 for a falsy or missing
   * message; otherwise the generated name, unless it is empty or mentions
   * an error, which is a 500. The message reaches the prompt as `str()`.
   */
  function GenerateName(data: Json, client: NameClient, pyStr: Json -> string): (resp: Response<string>)
    requires forall s :: pyStr(JStr(s)) == s
    ensures !data.JObj? ==> resp == HttpError(500, ServerError)
    ensures data.JObj? ==>
      (resp == HttpError(400, MessageMissing) <==> !PyTruthy(Get(data.fields, "message")))
    ensures data.JObj? && PyTruthy(Get(data.fields, "message")) ==>
      var name := GenerateConversationName(pyStr(data.fields["message"]), client);
      (resp.Success? <==> name != "" && !MentionsError(name))
      && (resp.Success? ==> resp.body == name)
      && (!resp.Success? ==> resp == HttpError(500, FastApiApp.NameFailed))
  {
    if !data.JObj? then HttpError(500, ServerError)
    else
      var message := Get(data.fields, "message").GetOr(JStr(""));
      if !PyTruthy(Some(message)) then HttpError(400, MessageMissing)
      else FastApiApp.GenerateName(pyStr(message), client)
  }

  /** The three fields `save_conversation_route` requires, when all are truthy. */
  function SaveFields(data: Json): (r: Option<(Json, Json, Json)>)
    requires data.JObj?
    ensures r.Some? <==> PyTruthy(Get(data.fields, "conversation_id")) && PyTruthy(Get(data.fields, "conversation_name"))
                         && PyTruthy(Get(data.fields, "messages"))
    ensures r.Some? ==> r.value == (data.fields["conversation_id"], data.fields["conversation_name"], data.fields["messages"])
  {
    var id := Get(data.fields, "conversation_id");
    var name := Get(data.fields, "conversation_name");
    var ms := Get(data.fields, "messages");
    if !PyTruthy(id) || !PyTruthy(ms) || !PyTruthy(name) then None
    else Some((id.value, name.value, ms.value))
  }

  /** The decimal text of a natural number. */
  function NatText(n: nat): (r: string)
    ensures |r| > 0 && forall k :: 0 <= k < |r| ==> '0' <= r[k] <= '9'
  {
    var d := ['0', '1', '2', '3', '4', '5', '6', '7', '8', '9'];
    if n < 10 then [d[n]] else NatText(n / 10) + [d[n % 10]]
  }

  /** The decimal text of an integer, with a leading `-` when it is negative. */
  function IntText(n: int): (r: string)
    ensures |r| > 0 && (r[0] == '-' <==> n < 0)
  {
    if n < 0 then "-" + NatText(-n) else NatText(n)
  }

  /** The integers `sqlite3` can bind: those of a signed 64-bit column value. */
  predicate Int64(n: int)
  {
    -0x8000_0000_0000_0000 <= n < 0x8000_0000_0000_0000
  }

  /**
   * The text a `TEXT NOT NULL` column holds after `sqlite3` binds a decoded
   * value: a string as it is, an integer as its decimal text, a bool as the
   * integer 1 or 0. None is returned when the bind raises or the constraint
   * fails: for lists and dicts, for integers beyond 64 bits, and for `None`.
   */
  function BoundText(v: Json): (r: Option<string>)
    ensures r.Some? <==> v.JStr? || v.JBool? || (v.JNum? && Int64(v.n))
    ensures v.JStr? ==> r == Some(v.s)
    ensures v.JBool? ==> r == Some(if v.b then "1" else "0")
    ensures v.JNum? && Int64(v.n) ==> r.Some? && r.value == IntText(v.n) && (r.value[0] == '-' <==> v.n < 0)
  {
    match v
    case JStr(s) => Some(s)
    case JBool(b) => Some(IntText(if b then 1 else 0))
    case JNum(n) => if Int64(n) then Some(IntText(n)) else None
    case _ => None
  }

  /**
   * `save_conversation_route`: 400 and no save unless id, name and messages
   * are all truthy. Otherwise one save of the dumped messages and a 201,
   * the id and the name stored as the text their column holds. An id or a
   * name that cannot be bound raises inside the save, before the commit:
   * the answer is a 500 and no row changes.
   */
  method SaveConversationRoute(db: Database, data: Json, dumps: Json -> string)
    returns (resp: Response<string>)
    modifies db
    ensures !data.JObj? ==> resp == HttpError(500, ServerError) && db.rows == old(db.rows)
    ensures data.JObj? && SaveFields(data).None? ==> resp == HttpError(400, SaveMissing) && db.rows == old(db.rows)
    ensures data.JObj? && SaveFields(data).Some? ==>
      var (id, name, ms) := SaveFields(data).value;
      (BoundText(id).None? || BoundText(name).None? ==> resp == HttpError(500, ServerError) && db.rows == old(db.rows))
      && (BoundText(id).Some? && BoundText(name).Some? ==>
            resp == Success(201, Saved)
            && db.rows == Upsert(old(db.rows), RowId, Row(BoundText(id).value, BoundText(name).value, dumps(ms))))
  {
    if !data.JObj? {
      return HttpError(500, ServerError);
    }
    var fields := SaveFields(data);
    if fields.None? {
      return HttpError(400, SaveMissing);
    }
    var (id, name, ms) := fields.value;
    var idText := BoundText(id);
    var nameText := BoundText(name);
    if idText.None? || nameText.None? {
      return HttpError(500, ServerError);
    }
    db.SaveConversation(idText.value, nameText.value, dumps(ms));
    resp := Success(201, Saved);
  }

  // ---------------------------------------------------------------------
  // The list route.
  // ---------------------------------------------------------------------

  /** A listed conversation: the row with its messages decoded. */
  datatype Listed = Listed(conversationId: string, conversationName: string, messages: Json)

  /** Every row with its messages decoded, in table order; the first row whose text does not decode fails the whole list. */
  function DecodedRows(rows: seq<Row>, loads: string -> Result<Json>): (r: Result<seq<Listed>>)
    ensures r.Ok? <==> forall k :: 0 <= k < |rows| ==> loads(rows[k].messages).Ok?
    ensures r.Ok? ==> |r.value| == |rows|
    ensures r.Ok? ==> forall k :: 0 <= k < |rows| ==>
      r.value[k].conversationId == rows[k].conversationId && r.value[k].conversationName == rows[k].conversationName
      && loads(rows[k].messages) == Ok(r.value[k].messages)
  {
    if |rows| == 0 then Ok([])
    else
      var init := rows[..|rows| - 1];
      var last := rows[|rows| - 1];
      match DecodedRows(init, loads)
      case Err(e) => Err(e)
      case Ok(xs) =>
        match loads(last.messages)
        case Err(e) => Err(e)
        case Ok(v) => Ok(xs + [Listed(last.conversationId, last.conversationName, v)])
  }

  /** Once a prefix of the rows fails to decode, the whole list fails the same way. */
  lemma {:induction false} PrefixFailure(rows: seq<Row>, i: nat, loads: string -> Result<Json>)
    requires i <= |rows| && DecodedRows(rows[..i], loads).Err?
    ensures DecodedRows(rows, loads) == DecodedRows(rows[..i], loads)
    decreases |rows| - i
  {
    if i < |rows| {
      assert rows[..i + 1][..i] == rows[..i];
      PrefixFailure(rows, i + 1, loads);
    } else {
      assert rows[..i] == rows;
    }
  }

  /** `get_conversations_route`: every row with `messages` replaced by its decoded value; a decoding error is a 500. */
  method GetConversationsRoute(db: Database, loads: string -> Result<Json>) returns (resp: Response<seq<Listed>>)
    ensures DecodedRows(db.rows, loads).Ok? ==> resp == Success(200, DecodedRows(db.rows, loads).value)
    ensures DecodedRows(db.rows, loads).Err? ==> resp == HttpError(500, ServerError)
  {
    var conversations := db.GetConversations();
    var listed: seq<Listed> := [];
    var i := 0;
    while i < |conversations|
      invariant 0 <= i <= |conversations|
      invariant DecodedRows(conversations[..i], loads) == Ok(listed)
    {
      var conv := conversations[i];
      assert conversations[..i + 1][..i] == conversations[..i];
      match loads(conv.messages)
      case Err(_) =>
        PrefixFailure(conversations, i + 1, loads);
        return HttpError(500, ServerError);
      case Ok(v) =>
        listed := listed + [Listed(conv.conversationId, conv.conversationName, v)];
      i := i + 1;
    }
    assert conversations[..i] == conversations;
    resp := Success(200, listed);
  }

  /**
   * After a save whose dumped messages load back, the list shows that
   * conversation with the saved messages, provided the other rows decode.
   */
  lemma SaveThenList(rows: seq<Row>, id: string, name: string, ms: Json,
                     dumps: Json -> string, loads: string -> Result<Json>)
    requires forall k :: 0 <= k < |rows| ==> loads(rows[k].messages).Ok?
    requires loads(dumps(ms)) == Ok(ms)
    ensures var after := Upsert(rows, RowId, Row(id, name, dumps(ms)));
      DecodedRows(after, loads).Ok?
      && exists k :: 0 <= k < |after| && DecodedRows(after, loads).value[k] == Listed(id, name, ms)
  {
    var row := Row(id, name, dumps(ms));
    var after := Upsert(rows, RowId, row);
    UpsertThenLookup(rows, RowId, row);
    var found := Lookup(after, RowId, id);
    forall k | 0 <= k < |after| ensures loads(after[k].messages).Ok? {
      if HasKey(rows, RowId, id) {
        assert after[k] == (if RowId(rows[k]) == id then row else rows[k]);
      } else if k < |rows| {
        assert after[k] == rows[k];
      }
    }
    var k :| 0 <= k < |after| && after[k] == found.value;
    assert DecodedRows(after, loads).value[k].messages == ms;
  }
}
