/**
 * The oldest browser client. Unlike the newer ones it carries the
 * unterminated tail of each chunk over to the next, stops decoding at the
 * first server error, has no stop button and no throttle, and keeps its
 * conversations unsorted and without timestamps. A conversation id may be
 * `null` (nothing is opened before the first send), and a JavaScript object
 * files a `null` key under the text "null". Because the streaming handler
 * compares the id it captured with the `currentConversationId` of its own
 * render, the comparison always succeeds and every update is shown.
 */
module LegacyClient {
  import opened Wrappers
  import opened Text
  import opened Lists
  import opened Messages
  import opened StreamDecoder
  import opened ConversationIndex

  /** The property name a JavaScript object uses for `id`. */
  function StoreKey(id: Option<string>): (key: string)
    ensures id.Some? ==> key == id.value
    ensures id.None? ==> key == "null"
  {
    if id.None? then "null" else id.value
  }

  /** What the client takes from a whole stream: lines carried across chunks, decoding stopped at the first server error. */
  function LegacyDecoded(chunks: seq<string>, ev: Classifier): Outcome
  {
    StopAtError(Carry(chunks).lines, ev)
  }

  /** The assistant message with the text received so far. */
  function AssistantText(content: string): Message
  {
    Message(Assistant, Str(content), None)
  }

  const ServerErrorAlert: string := "Error from server: "
  const RetryAlert: string := "An error occurred. Please try again."

  /** A conversation posted to the back end; the oldest client sends no timestamp. */
  datatype LegacySave = LegacySave(id: Option<string>, name: string, messages: seq<Message>)

  /** How the bot-response promise settles. */
  datatype Settled = Resolved(list: seq<Message>) | Rejected

  /** The list shown once streaming is over: the placeholder, filled with every delta taken, is there only if the request went through. */
  function LegacyShown(updated: seq<Message>, ok: bool, chunks: seq<string>, ev: Classifier): seq<Message>
  {
    if ok then updated + [AssistantText(Concat(LegacyDecoded(chunks, ev).deltas))] else updated
  }

  /**
   * The bot-response promise: rejected when the request is refused, when a
   * server error arrives, or when a read fails (`fails`: the read after
   * the last chunk throws instead of reporting the end); otherwise resolved
   * with the shown list.
   */
  function LegacyStream(updated: seq<Message>, ok: bool, chunks: seq<string>, fails: bool, ev: Classifier): Settled
  {
    if !ok || LegacyDecoded(chunks, ev).error.Some? || fails then Rejected
    else Resolved(LegacyShown(updated, ok, chunks, ev))
  }

  /** The alerts the promise raises: one per rejection, naming the server error when that was the cause. */
  function LegacyAlerts(ok: bool, chunks: seq<string>, fails: bool, ev: Classifier): seq<string>
  {
    if !ok then [RetryAlert]
    else
      var o := LegacyDecoded(chunks, ev);
      if o.error.Some? then [ServerErrorAlert + o.error.value]
      else if fails then [RetryAlert]
      else []
  }

  /** One more line advances the stopping decoder by that line. */
  lemma StopAtErrorStep(done: seq<string>, lines: seq<string>, i: nat, ev: Classifier)
    requires i < |lines|
    ensures StopAtError(done + lines[..i + 1], ev) == Step(StopAtError(done + lines[..i], ev), lines[i], ev)
  {
    assert (done + lines[..i + 1])[..|done + lines[..i + 1]| - 1] == done + lines[..i];
  }

  /** One more chunk extends the carried lines by the complete lines of the residual and the chunk. */
  lemma CarryStep(chunks: seq<string>, j: nat)
    requires j < |chunks|
    ensures var prev := Carry(chunks[..j]);
      Carry(chunks[..j + 1]) == Carried(prev.lines + CompleteParts(prev.residual + chunks[j], '\n'),
                                        LastPart(prev.residual + chunks[j], '\n'))
  {
    assert chunks[..j + 1][..j] == chunks[..j];
  }

  /** More chunks only add lines after those already carried. */
  lemma {:induction false} CarryExtends(a: seq<string>, b: seq<string>) returns (rest: seq<string>)
    ensures Carry(a + b).lines == Carry(a).lines + rest
    decreases |b|
  {
    if |b| == 0 {
      assert a + b == a;
      rest := [];
    } else {
      var init := b[..|b| - 1];
      assert (a + b)[..|a + b| - 1] == a + init;
      var r := CarryExtends(a, init);
      var prev := Carry(a + init);
      rest := r + CompleteParts(prev.residual + b[|b| - 1], '\n');
    }
  }

  /** The corrected decoding does not depend on where the transport cut the text. */
  lemma LegacyDecodingIgnoresChunking(a: seq<string>, b: seq<string>, ev: Classifier)
    requires Concat(a) == Concat(b)
    ensures LegacyDecoded(a, ev) == LegacyDecoded(b, ev)
  {
    CarryIgnoresChunking(a, b);
  }

  /** Without server errors the client takes every delta of every carried line. */
  lemma LegacyTakesEveryDelta(chunks: seq<string>, ev: Classifier)
    requires forall k :: 0 <= k < |Carry(chunks).lines| ==> !ev(Carry(chunks).lines[k]).ServerError?
    ensures LegacyDecoded(chunks, ev) == Outcome(Deltas(Carry(chunks).lines, ev), None)
  {
    StopAtErrorWithoutErrors(Carry(chunks).lines, ev);
  }

  /** Once a server error is decoded, the chunks after it change nothing. */
  lemma DecodedStops(chunks: seq<string>, j: nat, ev: Classifier)
    requires j <= |chunks| && LegacyDecoded(chunks[..j], ev).error.Some?
    ensures LegacyDecoded(chunks, ev) == LegacyDecoded(chunks[..j], ev)
  {
    var done, later := chunks[..j], chunks[j..];
    Recombine(chunks, j);
    var rest := CarryExtends(done, later);
    StopAtErrorIsFinal(Carry(done).lines, rest, ev);
  }

  lemma Recombine<T>(s: seq<T>, j: nat)
    requires j <= |s|
    ensures s[..j] + s[j..] == s
  {
  }

  /** The lines decoded so far and the lines left make up all complete lines. */
  lemma GlueRest<T>(done: seq<T>, lines: seq<T>, i: nat)
    requires i <= |lines| - 1
    ensures done + lines[..i] + lines[i..|lines| - 1] == done + lines[..|lines| - 1]
  {
    assert lines[..i] + lines[i..|lines| - 1] == lines[..|lines| - 1];
  }

  /** The frame cut in two that the newer clients lose is decoded whole here. */
  lemma LegacyKeepsSplitFrame()
    ensures LegacyDecoded(["data: 1", "\n"], ClassifierOf(OneParser)) == Outcome(["1"], None)
  {
    var ev := ClassifierOf(OneParser);
    CarryOfSplitFrame();
    FrameLineIsNoError(Carry(["data: 1", "\n"]).lines, ev);
    LegacyTakesEveryDelta(["data: 1", "\n"], ev);
    CarriedFrameKeepsDelta();
  }

  lemma FrameLineIsNoError(lines: seq<string>, ev: Classifier)
    requires lines == ["data: 1"] && ev == ClassifierOf(OneParser)
    ensures forall k :: 0 <= k < |lines| ==> !ev(lines[k]).ServerError?
  {
    OneFrameClassified();
  }

  class LegacyApp {
    var messages: seq<Message>
    var messagesByConversation: map<string, seq<Message>>
    var conversations: seq<LegacyEntry>
    var currentId: Option<string>
    var currentName: string
    /** The conversations posted to the back end, oldest first. */
    var saves: seq<LegacySave>
    /** The texts sent to the naming endpoint, oldest first. */
    var nameRequests: seq<string>
    /** The texts of the `alert` boxes raised, oldest first. */
    var alerts: seq<string>

    constructor ()
      ensures messages == [] && messagesByConversation == map[] && conversations == []
      ensures currentId == None && currentName == ""
      ensures saves == [] && nameRequests == [] && alerts == []
    {
      messages := [];
      messagesByConversation := map[];
      conversations := [];
      currentId := None;
      currentName := "";
      saves := [];
      nameRequests := [];
      alerts := [];
    }

    /** `createNewConversation`: always a fresh conversation, appended to the sidebar. */
    method CreateNewConversation(freshId: string)
      modifies this
      ensures currentId == Some(freshId) && currentName == NewConversation && messages == []
      ensures conversations == old(conversations) + [LegacyEntry(Some(freshId), NewConversation)]
      ensures messagesByConversation == old(messagesByConversation)
      ensures saves == old(saves) && nameRequests == old(nameRequests) && alerts == old(alerts)
    {
      currentId := Some(freshId);
      currentName := NewConversation;
      messages := [];
      conversations := conversations + [LegacyEntry(Some(freshId), NewConversation)];
    }

    /** `saveConversationToBackend`: post, and once answered rename or append the entry. */
    method SaveConversationToBackend(req: LegacySave, answered: bool)
      modifies this
      ensures saves == old(saves) + [req]
      ensures conversations == (if answered then LegacyUpsert(old(conversations), req.id, req.name) else old(conversations))
      ensures messages == old(messages) && messagesByConversation == old(messagesByConversation)
      ensures currentId == old(currentId) && currentName == old(currentName)
      ensures nameRequests == old(nameRequests) && alerts == old(alerts)
    {
      saves := saves + [req];
      if answered {
        conversations := LegacyUpsert(conversations, req.id, req.name);
      }
    }

    /**
     * The line loop of one read: the residual and the chunk are split, each
     * complete line is decoded, a delta extends the assistant message (which
     * is then stored and shown), and a server error raises an alert and
     * stops. `done` are the lines decoded before this read.
     */
    method ProcessChunk(buffer: string, chunk: string, ghost done: seq<string>, content: string,
                        updated: seq<Message>, key: string, ev: Classifier,
                        ghost store0: map<string, seq<Message>>)
      returns (buffer': string, content': string, error: Option<string>)
      requires StopAtError(done, ev).error.None?
      requires content == Concat(StopAtError(done, ev).deltas)
      requires messagesByConversation == store0[key := updated + [AssistantText(content)]]
      requires messages == updated + [AssistantText(content)]
      modifies this`messages, this`messagesByConversation, this`alerts
      ensures var text := buffer + chunk;
        var o := StopAtError(done + CompleteParts(text, '\n'), ev);
        buffer' == LastPart(text, '\n') && error == o.error && content' == Concat(o.deltas)
      ensures messagesByConversation == store0[key := updated + [AssistantText(content')]]
      ensures messages == updated + [AssistantText(content')]
      ensures alerts == old(alerts) + (if error.Some? then [ServerErrorAlert + error.value] else [])
      ensures conversations == old(conversations) && currentId == old(currentId)
      ensures currentName == old(currentName) && saves == old(saves) && nameRequests == old(nameRequests)
    {
      var text := buffer + chunk;
      var lines := Split(text, '\n');
      content', error := content, None;
      var i := 0;
      assert done + lines[..0] == done;
      while i < |lines| - 1 && error.None?
        invariant 0 <= i <= |lines| - 1
        invariant StopAtError(done + lines[..i], ev).error == error
        invariant content' == Concat(StopAtError(done + lines[..i], ev).deltas)
        invariant messagesByConversation == store0[key := updated + [AssistantText(content')]]
        invariant messages == updated + [AssistantText(content')]
        invariant alerts == old(alerts) + (if error.Some? then [ServerErrorAlert + error.value] else [])
      {
        StopAtErrorStep(done, lines, i, ev);
        content', error := ProcessLine(lines[i], StopAtError(done + lines[..i], ev), content', updated, key, ev, store0);
        i := i + 1;
      }
      if error.Some? {
        StopAtErrorIsFinal(done + lines[..i], lines[i..|lines| - 1], ev);
        GlueRest(done, lines, i);
      } else {
        assert lines[..i] == CompleteParts(text, '\n');
      }
      buffer' := lines[|lines| - 1];
    }

    /** The body of the line loop, for one line of a stream that has not failed yet. */
    method ProcessLine(line: string, ghost before: Outcome, content: string, updated: seq<Message>, key: string,
                       ev: Classifier, ghost store0: map<string, seq<Message>>)
      returns (content': string, error: Option<string>)
      requires before.error.None? && content == Concat(before.deltas)
      requires messagesByConversation == store0[key := updated + [AssistantText(content)]]
      requires messages == updated + [AssistantText(content)]
      modifies this`messages, this`messagesByConversation, this`alerts
      ensures error == Step(before, line, ev).error && content' == Concat(Step(before, line, ev).deltas)
      ensures messagesByConversation == store0[key := updated + [AssistantText(content')]]
      ensures messages == updated + [AssistantText(content')]
      ensures alerts == old(alerts) + (if error.Some? then [ServerErrorAlert + error.value] else [])
      ensures conversations == old(conversations) && currentId == old(currentId)
      ensures currentName == old(currentName) && saves == old(saves) && nameRequests == old(nameRequests)
    {
      content', error := content, None;
      match ev(line) {
        case Delta(d) =>
          assert (before.deltas + [d])[..|before.deltas|] == before.deltas;
          content' := content + d;
          OverwriteTwice(store0, key, updated + [AssistantText(content)], updated + [AssistantText(content')]);
          messagesByConversation := messagesByConversation[key := updated + [AssistantText(content')]];
          messages := updated + [AssistantText(content')];
        case ServerError(m) =>
          alerts := alerts + [ServerErrorAlert + m];
          error := Some(m);
        case _ =>
      }
    }

    /**
     * The bot-response promise of `handleSend`: a refused request alerts
     * and rejects; otherwise the empty assistant message is stored and
     * shown, and the body is read chunk by chunk, the residual of each read
     * prefixed to the next, until it ends, a server error arrives, or a
     * read fails.
     */
    method StreamReply(key: string, updated: seq<Message>, ok: bool, chunks: seq<string>, fails: bool, ev: Classifier)
      returns (settled: Settled)
      modifies this`messages, this`messagesByConversation, this`alerts
      ensures settled == LegacyStream(updated, ok, chunks, fails, ev)
      ensures messagesByConversation == (if ok then old(messagesByConversation)[key := LegacyShown(updated, ok, chunks, ev)]
                                         else old(messagesByConversation))
      ensures messages == (if ok then LegacyShown(updated, ok, chunks, ev) else old(messages))
      ensures alerts == old(alerts) + LegacyAlerts(ok, chunks, fails, ev)
      ensures conversations == old(conversations) && currentId == old(currentId)
      ensures currentName == old(currentName) && saves == old(saves) && nameRequests == old(nameRequests)
    {
      if !ok {
        alerts := alerts + [RetryAlert];
        return Rejected;
      }
      messagesByConversation := messagesByConversation[key := updated + [AssistantText("")]];
      messages := updated + [AssistantText("")];
      var content, error, j := ReadChunks(key, updated, chunks, ev, old(messagesByConversation));
      if error.Some? {
        DecodedStops(chunks, j, ev);
        settled := Rejected;
      } else {
        assert chunks[..j] == chunks;
        if fails {
          alerts := alerts + [RetryAlert];
          settled := Rejected;
        } else {
          settled := Resolved(updated + [AssistantText(content)]);
        }
      }
    }

    /**
     * The read loop of the bot-response promise: chunks are read, the
     * residual of each prefixed to the next, until they run out or a server
     * error arrives after `j` of them.
     */
    method ReadChunks(key: string, updated: seq<Message>, chunks: seq<string>, ev: Classifier,
                      ghost store0: map<string, seq<Message>>)
      returns (content: string, error: Option<string>, j: nat)
      requires messagesByConversation == store0[key := updated + [AssistantText("")]]
      requires messages == updated + [AssistantText("")]
      modifies this`messages, this`messagesByConversation, this`alerts
      ensures j <= |chunks| && (error.None? ==> j == |chunks|)
      ensures error == LegacyDecoded(chunks[..j], ev).error
      ensures content == Concat(LegacyDecoded(chunks[..j], ev).deltas)
      ensures messagesByConversation == store0[key := updated + [AssistantText(content)]]
      ensures messages == updated + [AssistantText(content)]
      ensures alerts == old(alerts) + (if error.Some? then [ServerErrorAlert + error.value] else [])
    {
      content := "";
      var buffer := "";
      error := None;
      j := 0;
      assert chunks[..0] == [];
      while j < |chunks| && error.None?
        invariant 0 <= j <= |chunks|
        invariant buffer == Carry(chunks[..j]).residual
        invariant error == LegacyDecoded(chunks[..j], ev).error
        invariant content == Concat(LegacyDecoded(chunks[..j], ev).deltas)
        invariant messagesByConversation == store0[key := updated + [AssistantText(content)]]
        invariant messages == updated + [AssistantText(content)]
        invariant alerts == old(alerts) + (if error.Some? then [ServerErrorAlert + error.value] else [])
      {
        CarryStep(chunks, j);
        buffer, content, error := ProcessChunk(buffer, chunks[j], Carry(chunks[..j]).lines, content, updated, key, ev,
                                               store0);
        j := j + 1;
      }
    }

    /** The opening of `handleSend`: the stored list of the open conversation plus the user message, stored and shown. */
    method StoreUserMessage(text: string) returns (updated: seq<Message>)
      modifies this
      ensures var key := StoreKey(old(currentId));
        updated == (if key in old(messagesByConversation) then old(messagesByConversation)[key] else [])
                   + [Message(User, Str(text), None)]
        && messagesByConversation == old(messagesByConversation)[key := updated]
      ensures messages == updated
      ensures conversations == old(conversations) && currentId == old(currentId)
      ensures currentName == old(currentName) && saves == old(saves)
      ensures nameRequests == old(nameRequests) && alerts == old(alerts)
    {
      var key := StoreKey(currentId);
      var prev := if key in messagesByConversation then messagesByConversation[key] else [];
      updated := prev + [Message(User, Str(text), None)];
      messagesByConversation := messagesByConversation[key := updated];
      messages := updated;
    }

    /** The name promise: "New Conversation" asks for a name, then renames the sidebar entry of the id. */
    method NameConversation(text: string, nameReply: NameReply) returns (finalName: string)
      modifies this
      ensures var naming := old(currentName) == NewConversation;
        finalName == (if naming then LegacyGeneratedName(nameReply) else old(currentName))
        && currentName == finalName
        && nameRequests == old(nameRequests) + (if naming then [text] else [])
        && conversations == (if naming then Rename(old(conversations), currentId, finalName) else old(conversations))
      ensures messages == old(messages) && messagesByConversation == old(messagesByConversation)
      ensures currentId == old(currentId) && saves == old(saves) && alerts == old(alerts)
    {
      finalName := currentName;
      if currentName == NewConversation {
        nameRequests := nameRequests + [text];
        finalName := LegacyGeneratedName(nameReply);
        currentName := finalName;
        conversations := Rename(conversations, currentId, finalName);
      }
    }

    /**
     * `handleSend`: the user message is stored and shown, the name is
     * generated when needed, the reply is streamed, and only a resolved
     * stream is saved (under the final name, "New Conversation" when that
     * is empty). A refused request, a server error or a failed read leaves
     * no save.
     */
    method HandleSend(text: string, nameReply: NameReply, ok: bool, chunks: seq<string>, fails: bool,
                      ev: Classifier, answered: bool)
      modifies this
      ensures var id := old(currentId);
        var key := StoreKey(id);
        var updated := (if key in old(messagesByConversation) then old(messagesByConversation)[key] else [])
                       + [Message(User, Str(text), None)];
        var naming := old(currentName) == NewConversation;
        var finalName := if naming then LegacyGeneratedName(nameReply) else old(currentName);
        var renamed := if naming then Rename(old(conversations), id, finalName) else old(conversations);
        var settled := LegacyStream(updated, ok, chunks, fails, ev);
        var savedName := if finalName == "" then NewConversation else finalName;
        currentId == id && currentName == finalName
        && nameRequests == old(nameRequests) + (if naming then [text] else [])
        && messagesByConversation == old(messagesByConversation)[key := LegacyShown(updated, ok, chunks, ev)]
        && messages == LegacyShown(updated, ok, chunks, ev)
        && alerts == old(alerts) + LegacyAlerts(ok, chunks, fails, ev)
        && saves == old(saves) + (if settled.Resolved? then [LegacySave(id, savedName, settled.list)] else [])
        && conversations == (if settled.Resolved? && answered then LegacyUpsert(renamed, id, savedName) else renamed)
    {
      var updated := StoreUserMessage(text);
      var finalName := NameConversation(text, nameReply);
      var settled := StreamReply(StoreKey(currentId), updated, ok, chunks, fails, ev);
      OverwriteTwice(old(messagesByConversation), StoreKey(currentId), updated, LegacyShown(updated, ok, chunks, ev));
      if settled.Resolved? {
        SaveConversationToBackend(LegacySave(currentId, if finalName == "" then NewConversation else finalName,
                                             settled.list), answered);
      }
    }
  }
}
