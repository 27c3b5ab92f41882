/**
 * The domain records of the layered back end (chat and conversation
 * models). A `datetime` is a wall-clock reading in microseconds with an
 * optional offset from UTC (`None` for a naive value); calendar and
 * time-zone arithmetic beyond that offset is not modelled.
 */
module Domain {
  import opened Wrappers
  import opened Json

  datatype Stamp = Stamp(wall: int, offset: Option<int>)

  predicate Aware(s: Stamp)
  {
    s.offset.Some?
  }

  /** The moment an aware value denotes, as a UTC reading. */
  function Instant(s: Stamp): int
    requires Aware(s)
  {
    s.wall - s.offset.value
  }

  /** `dt.replace(tzinfo=timezone.utc)`: the same wall clock, now labelled UTC. */
  function TagUtc(s: Stamp): (t: Stamp)
    ensures t.wall == s.wall && t.offset == Some(0)
  {
    Stamp(s.wall, Some(0))
  }

  /**
   * A chat message. `content` is text in the chat layer; the store hands
   * back structured content as a JSON list, so it is a JSON value here.
   */
  datatype Message = Message(role: string, content: Json, model: Option<string>, timestamp: Stamp)

  datatype Conversation = Conversation(conversationId: string, conversationName: string, messages: seq<Message>, lastUpdated: Stamp)

  datatype ConversationSummary = ConversationSummary(conversationId: string, conversationName: string, lastUpdated: Stamp)

  /** What a provider answers: the reply text (`None` when the completion has no content), the model, a timestamp. */
  datatype ChatResponse = ChatResponse(content: Option<string>, model: string, timestamp: Stamp)
}
