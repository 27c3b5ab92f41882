/**
 * The store behind the FastAPI app: one SQLite table of conversations with
 * their messages as JSON text and a `last_updated` text column. The table
 * is the `rows` field; the clock is the `now` parameter of the save.
 */
module ApiDatabase {
  import opened Wrappers
  import opened Lists
  import opened Tables

  datatype Row = Row(conversationId: string, conversationName: string, messages: string, lastUpdated: string)

  /** One entry of `get_conversations`: every column but the messages. */
  datatype Summary = Summary(conversationId: string, conversationName: string, lastUpdated: string)

  function RowId(r: Row): string
  {
    r.conversationId
  }

  function SummaryOf(r: Row): Summary
  {
    Summary(r.conversationId, r.conversationName, r.lastUpdated)
  }

  function Summaries(rows: seq<Row>): (list: seq<Summary>)
    ensures |list| == |rows| && forall k :: 0 <= k < |rows| ==> list[k] == SummaryOf(rows[k])
  {
    seq(|rows|, k requires 0 <= k < |rows| => SummaryOf(rows[k]))
  }

  /** The row a save writes: the given timestamp, or the current time when none is given. */
  function SavedRow(id: string, name: string, messages: string, lastUpdated: Option<string>, now: string): Row
  {
    Row(id, name, messages, lastUpdated.GetOr(now))
  }

  class Database {
    var rows: seq<Row>

    /** `init_db` on a fresh file: the table exists and is empty. */
    constructor ()
      ensures rows == []
    {
      rows := [];
    }

    /** `save_conversation`: update the rows with this id, or insert one. */
    method SaveConversation(id: string, name: string, messages: string, lastUpdated: Option<string>, now: string)
      modifies this
      ensures rows == Upsert(old(rows), RowId, SavedRow(id, name, messages, lastUpdated, now))
    {
      var existing := Lookup(rows, RowId, id);
      var stamp := if lastUpdated.None? then now else lastUpdated.value;
      var row := Row(id, name, messages, stamp);
      if existing.Some? {
        rows := UpdateWhere(rows, RowId, row);
      } else {
        rows := rows + [row];
      }
    }

    /** `get_conversations`: every row, in table order, without its messages. */
    method GetConversations() returns (list: seq<Summary>)
      ensures |list| == |rows|
      ensures forall k :: 0 <= k < |rows| ==> list[k] == Summary(rows[k].conversationId, rows[k].conversationName, rows[k].lastUpdated)
      ensures list == Summaries(rows)
    {
      list := Summaries(rows);
    }

    /** `get_conversation`: `None` iff no row has the id, else the first such row. */
    method GetConversation(id: string) returns (r: Option<Row>)
      ensures r.None? <==> forall k :: 0 <= k < |rows| ==> rows[k].conversationId != id
      ensures r.Some? ==> r.value.conversationId == id && r.value in rows
      ensures r == Lookup(rows, RowId, id)
    {
      r := Lookup(rows, RowId, id);
    }
  }

  /** A save followed by a read of the same id gives back what was saved, with the default timestamp when none was given. */
  lemma SaveThenGet(rows: seq<Row>, id: string, name: string, messages: string, lastUpdated: Option<string>, now: string)
    ensures Lookup(Upsert(rows, RowId, SavedRow(id, name, messages, lastUpdated, now)), RowId, id)
      == Some(Row(id, name, messages, if lastUpdated.Some? then lastUpdated.value else now))
  {
    UpsertThenLookup(rows, RowId, SavedRow(id, name, messages, lastUpdated, now));
  }

  /** Saving the same id twice leaves the second save's name, messages and timestamp, and no extra row. */
  lemma SecondSaveOverwrites(rows: seq<Row>, id: string, first: Row, second: Row)
    requires first.conversationId == id && second.conversationId == id
    ensures var after := Upsert(Upsert(rows, RowId, first), RowId, second);
      Lookup(after, RowId, id) == Some(second)
      && |after| == |rows| + (if HasKey(rows, RowId, id) then 0 else 1)
  {
    var once := Upsert(rows, RowId, first);
    UpsertThenLookup(once, RowId, second);
    UpsertCount(rows, RowId, first);
    UpsertThenLookup(rows, RowId, first);
    UpsertCount(once, RowId, second);
  }

  /** A new id is listed last and the earlier listing is unchanged: there is no sorting. */
  lemma NewConversationIsListedLast(rows: seq<Row>, row: Row)
    requires !HasKey(rows, RowId, row.conversationId)
    ensures Summaries(Upsert(rows, RowId, row)) == Summaries(rows) + [SummaryOf(row)]
  {
  }

  /** Saves never give two rows the same id. */
  lemma SaveKeepsIdsUnique(rows: seq<Row>, row: Row)
    requires UniqueKeys(rows, RowId)
    ensures UniqueKeys(Upsert(rows, RowId, row), RowId)
  {
    UpsertKeepsUniqueKeys(rows, RowId, row);
  }
}
