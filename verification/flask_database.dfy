/**
 * The store behind the Flask app: the same conversation table without a
 * timestamp column. The table is the `rows` field.
 */
module FlaskDatabase {
  import opened Wrappers
  import opened Lists
  import opened Tables

  datatype Row = Row(conversationId: string, conversationName: string, messages: string)

  function RowId(r: Row): string
  {
    r.conversationId
  }

  class Database {
    var rows: seq<Row>

    /** `init_db` on a fresh file: the table exists and is empty. */
    constructor ()
      ensures rows == []
    {
      rows := [];
    }

    /** `save_conversation`: update the rows with this id, or insert one. */
    method SaveConversation(id: string, name: string, messages: string)
      modifies this
      ensures rows == Upsert(old(rows), RowId, Row(id, name, messages))
    {
      var existing := Lookup(rows, RowId, id);
      if existing.Some? {
        rows := UpdateWhere(rows, RowId, Row(id, name, messages));
      } else {
        rows := rows + [Row(id, name, messages)];
      }
    }

    /** `get_conversations`: every row with all three columns, in table order. */
    method GetConversations() returns (list: seq<Row>)
      ensures list == rows
    {
      list := rows;
    }

    /** `get_conversation`: `None` iff no row has the id, else the first such row. */
    method GetConversation(id: string) returns (r: Option<Row>)
      ensures r.None? <==> forall k :: 0 <= k < |rows| ==> rows[k].conversationId != id
      ensures r.Some? ==> r.value.conversationId == id && r.value in rows
      ensures r == Lookup(rows, RowId, id)
    {
      r := Lookup(rows, RowId, id);
    }
  }

  /** A save followed by a read of the same id gives back exactly the three strings saved. */
  lemma SaveThenGet(rows: seq<Row>, id: string, name: string, messages: string)
    ensures Lookup(Upsert(rows, RowId, Row(id, name, messages)), RowId, id) == Some(Row(id, name, messages))
  {
    UpsertThenLookup(rows, RowId, Row(id, name, messages));
  }

  /** Saving one id leaves every other id's row as it was. */
  lemma SaveLeavesOtherIds(rows: seq<Row>, id: string, name: string, messages: string, other: string)
    requires other != id
    ensures Lookup(Upsert(rows, RowId, Row(id, name, messages)), RowId, other) == Lookup(rows, RowId, other)
  {
    UpsertLeavesOthers(rows, RowId, Row(id, name, messages), other);
  }

  /** A save adds a row only for an id not yet stored. */
  lemma SaveAddsOnlyNewIds(rows: seq<Row>, id: string, name: string, messages: string)
    ensures |Upsert(rows, RowId, Row(id, name, messages))| == |rows| + (if HasKey(rows, RowId, id) then 0 else 1)
  {
    UpsertCount(rows, RowId, Row(id, name, messages));
  }
}
