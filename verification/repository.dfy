/**
 * `SQLiteConversationRepository`: the conversation table of the layered back
 * end. Timestamps are stored normalised to UTC; the messages column is
 * modelled by the list of message records it encodes (the outer
 * `json.dumps`/`json.loads` pair is taken to round-trip), while the
 * re-parse of string content on reading uses the `loads` parameter.
 */
module Repository {
  import opened Wrappers
  import opened Json
  import opened Lists
  import opened Tables
  import opened StableSort
  import opened Domain

  /** `_ensure_utc`: a naive value is labelled UTC, an aware one is converted to UTC. */
  function EnsureUtc(s: Stamp): (u: Stamp)
    ensures u.offset == Some(0)
    ensures !Aware(s) ==> u.wall == s.wall
    ensures Aware(s) ==> Instant(u) == Instant(s)
  {
    match s.offset
    case None => Stamp(s.wall, Some(0))
    case Some(o) => Stamp(s.wall - o, Some(0))
  }

  lemma EnsureUtcIdempotent(s: Stamp)
    ensures EnsureUtc(EnsureUtc(s)) == EnsureUtc(s)
  {
  }

  /** One element of the stored messages list: the four keys `save_conversation` writes. */
  datatype StoredMessage = StoredMessage(role: string, content: Json, model: Option<string>, timestamp: Stamp)

  datatype Row = Row(conversationId: string, conversationName: string, messages: seq<StoredMessage>, lastUpdated: Stamp)

  function RowId(r: Row): string
  {
    r.conversationId
  }

  function Stored(m: Message): StoredMessage
  {
    StoredMessage(m.role, m.content, m.model, EnsureUtc(m.timestamp))
  }

  function StoredAll(ms: seq<Message>): (ss: seq<StoredMessage>)
    ensures |ss| == |ms| && forall k :: 0 <= k < |ms| ==> ss[k] == Stored(ms[k])
  {
    seq(|ms|, k requires 0 <= k < |ms| => Stored(ms[k]))
  }

  /** The row `save_conversation` writes for a conversation. */
  function RowOf(c: Conversation): Row
  {
    Row(c.conversationId, c.conversationName, StoredAll(c.messages), EnsureUtc(c.lastUpdated))
  }

  /** `json.loads` of a content string: the value, or `None` when it is not valid JSON. */
  type Loads = string -> Option<Json>

  /** String content that parses to a JSON list becomes that list; any other content is kept. */
  function Reparsed(content: Json, loads: Loads): (c: Json)
    ensures content.JStr? && loads(content.s).Some? && loads(content.s).value.JArr? ==> c == loads(content.s).value
    ensures !(content.JStr? && loads(content.s).Some? && loads(content.s).value.JArr?) ==> c == content
  {
    if content.JStr? then
      match loads(content.s)
      case Some(JArr(items)) => JArr(items)
      case _ => content
    else content
  }

  function ReadMessage(s: StoredMessage, loads: Loads): Message
  {
    Message(s.role, Reparsed(s.content, loads), s.model, EnsureUtc(s.timestamp))
  }

  function ReadMessages(ss: seq<StoredMessage>, loads: Loads): (ms: seq<Message>)
    ensures |ms| == |ss| && forall k :: 0 <= k < |ss| ==> ms[k] == ReadMessage(ss[k], loads)
  {
    if |ss| == 0 then [] else ReadMessages(ss[..|ss| - 1], loads) + [ReadMessage(ss[|ss| - 1], loads)]
  }

  /** The conversation `get_conversation` builds from a row. */
  function ReadRow(r: Row, loads: Loads): Conversation
  {
    Conversation(r.conversationId, r.conversationName, ReadMessages(r.messages, loads), EnsureUtc(r.lastUpdated))
  }

  function SummaryOf(r: Row): ConversationSummary
  {
    ConversationSummary(r.conversationId, r.conversationName, EnsureUtc(r.lastUpdated))
  }

  function Summaries(rows: seq<Row>): (list: seq<ConversationSummary>)
    ensures |list| == |rows| && forall k :: 0 <= k < |rows| ==> list[k] == SummaryOf(rows[k])
  {
    seq(|rows|, k requires 0 <= k < |rows| => SummaryOf(rows[k]))
  }

  /**
   * The `ORDER BY last_updated DESC` key. Stored stamps are UTC, and the
   * ISO text of UTC stamps orders as their instants do.
   */
  function SummaryTime(s: ConversationSummary): int
  {
    s.lastUpdated.wall
  }

  class SqliteRepository {
    var rows: seq<Row>

    /** `_init_db` on a fresh file. */
    constructor ()
      ensures rows == []
    {
      rows := [];
    }

    /** Every row's summary, latest first. SQLite leaves the order of equal timestamps open. */
    method GetConversations() returns (list: seq<ConversationSummary>)
      ensures multiset(list) == multiset(Summaries(rows))
      ensures forall i, j :: 0 <= i < j < |list| ==> SummaryTime(list[i]) >= SummaryTime(list[j])
    {
      list := SortDesc(Summaries(rows), SummaryTime);
      SortDescPermutes(Summaries(rows), SummaryTime);
      SortDescSorted(Summaries(rows), SummaryTime);
    }

    /** `get_conversation`: `None` iff no row has the id; otherwise the first such row, read back message by message. */
    method GetConversation(id: string, loads: Loads) returns (c: Option<Conversation>)
      ensures c.None? <==> forall k :: 0 <= k < |rows| ==> rows[k].conversationId != id
      ensures c.Some? ==> Lookup(rows, RowId, id).Some? && c.value == ReadRow(Lookup(rows, RowId, id).value, loads)
    {
      var row := Lookup(rows, RowId, id);
      if row.None? {
        return None;
      }
      var r := row.value;
      var messages: seq<Message> := [];
      var i := 0;
      while i < |r.messages|
        invariant 0 <= i <= |r.messages|
        invariant messages == ReadMessages(r.messages[..i], loads)
      {
        var msg := r.messages[i];
        var content := msg.content;
        if content.JStr? {
          var parsed := loads(content.s);
          if parsed.Some? && parsed.value.JArr? {
            content := parsed.value;
          }
        }
        messages := messages + [Message(msg.role, content, msg.model, EnsureUtc(msg.timestamp))];
        assert r.messages[..i + 1][..i] == r.messages[..i];
        i := i + 1;
      }
      assert r.messages[..i] == r.messages;
      c := Some(Conversation(r.conversationId, r.conversationName, messages, EnsureUtc(r.lastUpdated)));
    }

    /** `save_conversation`: update the rows with this id, or insert one. */
    method SaveConversation(c: Conversation)
      modifies this
      ensures rows == Upsert(old(rows), RowId, RowOf(c))
    {
      var messagesJson := StoredAll(c.messages);
      var existing := Lookup(rows, RowId, c.conversationId);
      var row := Row(c.conversationId, c.conversationName, messagesJson, EnsureUtc(c.lastUpdated));
      if existing.Some? {
        rows := UpdateWhere(rows, RowId, row);
      } else {
        rows := rows + [row];
      }
    }
  }

  /** What `get_conversation` returns for an id, on a given table. */
  function GetSpec(rows: seq<Row>, id: string, loads: Loads): Option<Conversation>
  {
    match Lookup(rows, RowId, id)
    case None => None
    case Some(r) => Some(ReadRow(r, loads))
  }

  /**
   * Saving and then reading a conversation gives back its id, name, every
   * message's role and model in order, and its timestamps normalised to UTC;
   * each content comes back re-parsed: a string that reads as a JSON list
   * comes back as that list, and any other content as it was.
   */
  lemma SaveThenGet(rows: seq<Row>, c: Conversation, loads: Loads)
    ensures var got := GetSpec(Upsert(rows, RowId, RowOf(c)), c.conversationId, loads);
      got.Some?
      && got.value.conversationId == c.conversationId
      && got.value.conversationName == c.conversationName
      && got.value.lastUpdated == EnsureUtc(c.lastUpdated)
      && |got.value.messages| == |c.messages|
      && forall k :: 0 <= k < |c.messages| ==>
        got.value.messages[k] == c.messages[k].(content := Reparsed(c.messages[k].content, loads),
                                                timestamp := EnsureUtc(c.messages[k].timestamp))
  {
    UpsertThenLookup(rows, RowId, RowOf(c));
    forall k | 0 <= k < |c.messages|
      ensures ReadMessage(Stored(c.messages[k]), loads)
           == c.messages[k].(content := Reparsed(c.messages[k].content, loads),
                             timestamp := EnsureUtc(c.messages[k].timestamp))
    {
      EnsureUtcIdempotent(c.messages[k].timestamp);
    }
    EnsureUtcIdempotent(c.lastUpdated);
  }

  /** Saving an id already stored adds no row; a new id adds exactly one. */
  lemma SaveRowCount(rows: seq<Row>, c: Conversation)
    ensures |Upsert(rows, RowId, RowOf(c))| == |rows| + (if HasKey(rows, RowId, c.conversationId) then 0 else 1)
  {
    UpsertCount(rows, RowId, RowOf(c));
  }

  /** Saves never give two rows the same id. */
  lemma SaveKeepsIdsUnique(rows: seq<Row>, c: Conversation)
    requires UniqueKeys(rows, RowId)
    ensures UniqueKeys(Upsert(rows, RowId, RowOf(c)), RowId)
  {
    UpsertKeepsUniqueKeys(rows, RowId, RowOf(c));
  }
}
