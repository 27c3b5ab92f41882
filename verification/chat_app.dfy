/**
 * The chat screen of the newer browser clients (the typed and the untyped
 * version share this pipeline): the state the screen keeps, the streaming
 * of one reply into the assistant message, and the send / new-conversation
 * actions. React state setters are assignments to fields; the value a
 * handler compares with `currentConversationId` is the one of the render
 * that created it, passed as `rendered`. Network answers, clock readings and
 * fresh ids are parameters.
 */
module ChatApp {
  import opened Wrappers
  import opened Text
  import opened Messages
  import opened StreamDecoder
  import opened Throttling
  import opened ConversationIndex
  import opened Lists

  /** One `reader.read()` of the reply body: text decoded at time `now`, the user pressing stop, or a failure. */
  datatype Read = Chunk(text: string, now: int) | Stop | Fail

  /** How `streamBotResponse` ended: the body ran out, the user aborted, a read failed, or the request was refused. */
  datatype Ending = Completed | Aborted | Failed | Refused

  /**
   * The stream after some steps: the assistant text so far, the throttle's
   * `lastExecutionTime`, whether anything has been published since the
   * placeholder was pushed, and how it ended if it has.
   */
  datatype Progress = Progress(content: string, lastExecution: int, published: bool, ending: Option<Ending>)

  function Advance(p: Progress, r: Read, ev: Classifier): Progress
  {
    if p.ending.Some? then p
    else
      match r
      case Chunk(text, now) =>
        var ds := ChunkDeltas(text, ev);
        var fire := now - p.lastExecution >= DefaultLimit;
        Progress(p.content + Concat(ds), if fire then now else p.lastExecution,
                 p.published || |ds| > 0 || fire, None)
      case Stop => p.(ending := Some(Aborted))
      case Fail => p.(ending := Some(Failed))
  }

  function Streamed(steps: seq<Read>, ev: Classifier): Progress
  {
    if |steps| == 0 then Progress("", 0, false, None)
    else Advance(Streamed(steps[..|steps| - 1], ev), steps[|steps| - 1], ev)
  }

  /** The stream as a whole: a body that runs out completes, and completion publishes once more. */
  function StreamOutcome(steps: seq<Read>, ev: Classifier): Progress
  {
    var p := Streamed(steps, ev);
    if p.ending.None? then p.(published := true, ending := Some(Completed)) else p
  }

  /** The list `streamBotResponse` resolves with. */
  function StreamResult(updated: seq<Message>, ok: bool, steps: seq<Read>, ev: Classifier): seq<Message>
  {
    if ok then updated + [Message(Assistant, Str(StreamOutcome(steps, ev).content), None)] else updated
  }

  /** Reads after the one that ended the stream are never looked at. */
  lemma {:induction false} StreamedIsFinal(xs: seq<Read>, ys: seq<Read>, ev: Classifier)
    requires Streamed(xs, ev).ending.Some?
    ensures Streamed(xs + ys, ev) == Streamed(xs, ev)
    decreases |ys|
  {
    if |ys| == 0 {
      assert xs + ys == xs;
    } else {
      assert (xs + ys)[..|xs + ys| - 1] == xs + ys[..|ys| - 1];
      StreamedIsFinal(xs, ys[..|ys| - 1], ev);
    }
  }

  /** One more read advances the stream by that read. */
  lemma StreamedStep(steps: seq<Read>, i: nat, ev: Classifier)
    requires i < |steps|
    ensures Streamed(steps[..i + 1], ev) == Advance(Streamed(steps[..i], ev), steps[i], ev)
  {
    assert steps[..i + 1][..i] == steps[..i];
  }

  /** Nothing is published before the first delta, so a stream that has published nothing has no text. */
  lemma {:induction false} UnpublishedIsEmpty(steps: seq<Read>, ev: Classifier)
    ensures !Streamed(steps, ev).published ==> Streamed(steps, ev).content == ""
  {
    if |steps| > 0 {
      UnpublishedIsEmpty(steps[..|steps| - 1], ev);
    }
  }

  /** Without a stop or a failure, the assistant text is the deltas of every chunk, each decoded on its own. */
  lemma {:induction false} StreamedCollectsDeltas(steps: seq<Read>, ev: Classifier)
    requires forall k :: 0 <= k < |steps| ==> steps[k].Chunk?
    ensures Streamed(steps, ev).ending.None?
    ensures Streamed(steps, ev).content == Concat(PerChunkDeltas(Texts(steps), ev))
  {
    if |steps| > 0 {
      var init := steps[..|steps| - 1];
      StreamedCollectsDeltas(init, ev);
      assert Texts(steps)[..|steps| - 1] == Texts(init);
      ConcatAppend(PerChunkDeltas(Texts(init), ev), ChunkDeltas(steps[|steps| - 1].text, ev));
    }
  }

  /** The texts of the chunks among the steps. */
  function Texts(steps: seq<Read>): (ts: seq<string>)
    requires forall k :: 0 <= k < |steps| ==> steps[k].Chunk?
    ensures |ts| == |steps| && forall k :: 0 <= k < |steps| ==> ts[k] == steps[k].text
  {
    if |steps| == 0 then [] else Texts(steps[..|steps| - 1]) + [steps[|steps| - 1].text]
  }

  /** An `AbortController`; only its `aborted` flag is modelled. */
  class AbortController {
    var aborted: bool

    constructor ()
      ensures !aborted
    {
      aborted := false;
    }

    method Abort()
      modifies this
      ensures aborted
    {
      aborted := true;
    }
  }

  /** A conversation posted to the back end. */
  datatype SaveRequest = SaveRequest(id: string, name: string, messages: seq<Message>, lastUpdated: Option<int>)

  /**
   * How the save post ended: `fetch` or `response.json()` threw, or a JSON
   * body arrived, whatever its status, with the instant its `last_updated`
   * denotes (`None` when the field is missing, as in an error body, or does
   * not parse).
   */
  datatype SaveReply = Threw | Answered(stamp: Option<int>)

  /** One more line: its delta, if any, is appended to the deltas and merged into the content. */
  lemma LineAdvances(lines: seq<string>, i: nat, c: Content, ds: seq<string>, ev: Classifier)
    requires i < |lines| && ds == Deltas(lines[..i], ev)
    ensures ev(lines[i]).Delta? ==>
      Deltas(lines[..i + 1], ev) == ds + [ev(lines[i]).text]
      && MergeAll(c, ds + [ev(lines[i]).text]) == MergeDelta(MergeAll(c, ds), ev(lines[i]).text)
    ensures !ev(lines[i]).Delta? ==> Deltas(lines[..i + 1], ev) == ds
  {
    DeltasStep(lines, i, ev);
    if ev(lines[i]).Delta? {
      assert LineDelta(lines[i], ev) == [ev(lines[i]).text];
      MergeAllStep(c, ds, ev(lines[i]).text);
    } else {
      assert LineDelta(lines[i], ev) == [];
      assert ds + [] == ds;
    }
  }

  /** The id `handleSend` works on: the current one, or a fresh one when there is none (or it is empty). */
  function SendTarget(current: Option<string>, freshId: string): string
  {
    if current.None? || current.value == "" then freshId else current.value
  }

  class App {
    /** The list the chat window shows. */
    var messages: seq<Message>
    var messagesByConversation: map<string, seq<Message>>
    /** The sidebar list. */
    var conversations: seq<Entry>
    var currentId: Option<string>
    var currentName: string
    var abortController: AbortController?
    /** The conversations posted to the back end, oldest first. */
    var saves: seq<SaveRequest>
    /** The texts sent to the naming endpoint, oldest first. */
    var nameRequests: seq<string>

    constructor ()
      ensures messages == [] && messagesByConversation == map[] && conversations == []
      ensures currentId == None && currentName == "" && abortController == null
      ensures saves == [] && nameRequests == []
    {
      messages := [];
      messagesByConversation := map[];
      conversations := [];
      currentId := None;
      currentName := "";
      abortController := null;
      saves := [];
      nameRequests := [];
    }

    /**
     * `updateMessagesInUI` (and `updateUIWithUserMessage`, which differs
     * only in storing the array itself rather than a copy): the list is
     * stored for the conversation, and shown only if the conversation is the
     * one the calling render had open.
     */
    method UpdateMessagesInUI(id: string, list: seq<Message>, rendered: Option<string>)
      modifies this`messages, this`messagesByConversation
      ensures messagesByConversation == old(messagesByConversation)[id := list]
      ensures messages == (if rendered == Some(id) then list else old(messages))
    {
      messagesByConversation := messagesByConversation[id := list];
      if rendered == Some(id) {
        messages := list;
      }
    }

    /**
     * `processStreamChunk`: every `\n`-terminated line of the chunk is
     * decoded; each delta is merged into the assistant message, which then
     * replaces the last list element and is published. The unterminated
     * tail is returned. `ev` classifies a line (`ClassifierOf(parse)` for
     * the client's `JSON.parse`).
     */
    method ProcessStreamChunk(chunk: string, assistant: Content, updated: seq<Message>, id: string,
                              rendered: Option<string>, ev: Classifier)
      returns (residual: string, assistant': Content, updated': seq<Message>)
      requires |updated| > 0
      modifies this`messages, this`messagesByConversation
      ensures residual == LastPart(chunk, '\n')
      ensures var ds := ChunkDeltas(chunk, ev);
        assistant' == MergeAll(assistant, ds)
        && updated' == (if |ds| > 0 then updated[|updated| - 1 := Message(Assistant, assistant', None)] else updated)
        && messagesByConversation == (if |ds| > 0 then old(messagesByConversation)[id := updated'] else old(messagesByConversation))
        && messages == (if |ds| > 0 && rendered == Some(id) then updated' else old(messages))
    {
      var lines := Split(chunk, '\n');
      assistant' := assistant;
      updated' := updated;
      var i := 0;
      ghost var ds: seq<string> := [];
      assert lines[..0] == [];
      while i < |lines| - 1
        invariant 0 <= i <= |lines| - 1
        invariant ds == Deltas(lines[..i], ev)
        invariant assistant' == MergeAll(assistant, ds)
        invariant updated' == (if |ds| > 0 then updated[|updated| - 1 := Message(Assistant, assistant', None)] else updated)
        invariant Shows(|ds| > 0, id, rendered, updated', old(messagesByConversation), old(messages))
        decreases |lines| - 1 - i
      {
        assistant', updated', ds := LineStep(lines, i, assistant, updated, id, rendered, ev, ds, assistant', updated',
                                             old(messagesByConversation), old(messages));
        i := i + 1;
      }
      assert lines[..i] == CompleteParts(chunk, '\n');
      residual := lines[|lines| - 1];
    }

    /** One pass of the line loop of `processStreamChunk`: the loop's invariant at `i` holds again at `i + 1`. */
    method LineStep(lines: seq<string>, i: nat, assistant0: Content, updated: seq<Message>, id: string,
                    rendered: Option<string>, ev: Classifier, ghost ds: seq<string>, assistant: Content,
                    current: seq<Message>, ghost store0: map<string, seq<Message>>, ghost shown0: seq<Message>)
      returns (assistant': Content, current': seq<Message>, ghost ds': seq<string>)
      requires i < |lines| && |updated| > 0
      requires ds == Deltas(lines[..i], ev) && assistant == MergeAll(assistant0, ds)
      requires current == (if |ds| > 0 then updated[|updated| - 1 := Message(Assistant, assistant, None)] else updated)
      requires Shows(|ds| > 0, id, rendered, current, store0, shown0)
      modifies this`messages, this`messagesByConversation
      ensures ds' == Deltas(lines[..i + 1], ev) && assistant' == MergeAll(assistant0, ds')
      ensures current' == (if |ds'| > 0 then updated[|updated| - 1 := Message(Assistant, assistant', None)] else updated)
      ensures Shows(|ds'| > 0, id, rendered, current', store0, shown0)
    {
      LineAdvances(lines, i, assistant0, ds, ev);
      var grew;
      assistant', current', grew := ApplyLine(lines[i], assistant, current, id, rendered, ev);
      if grew {
        ds' := ds + [ev(lines[i]).text];
        if |ds| > 0 {
          OverwriteTwice(store0, id, current, current');
          ReplaceTwice(updated, |updated| - 1, Message(Assistant, assistant, None), Message(Assistant, assistant', None));
        }
      } else {
        ds' := ds;
      }
    }

    /** The list is stored for `id`, and shown if `id` is on screen, exactly when `published`. */
    ghost predicate Shows(published: bool, id: string, rendered: Option<string>, list: seq<Message>,
                          store0: map<string, seq<Message>>, shown0: seq<Message>)
      reads this
    {
      messagesByConversation == (if published then store0[id := list] else store0)
      && messages == (if published && rendered == Some(id) then list else shown0)
    }

    /** The body of the line loop of `processStreamChunk`, for one line. */
    method ApplyLine(line: string, assistant: Content, updated: seq<Message>, id: string,
                     rendered: Option<string>, ev: Classifier)
      returns (assistant': Content, updated': seq<Message>, grew: bool)
      requires |updated| > 0
      modifies this`messages, this`messagesByConversation
      ensures grew <==> ev(line).Delta?
      ensures grew ==>
        assistant' == MergeDelta(assistant, ev(line).text)
        && updated' == updated[|updated| - 1 := Message(Assistant, assistant', None)]
        && messagesByConversation == old(messagesByConversation)[id := updated']
        && messages == (if rendered == Some(id) then updated' else old(messages))
      ensures !grew ==>
        assistant' == assistant && updated' == updated
        && messagesByConversation == old(messagesByConversation) && messages == old(messages)
    {
      assistant', updated', grew := assistant, updated, false;
      match ev(line)
      case Delta(d) =>
        assistant' := MergeDelta(assistant, d);
        updated' := updated[|updated| - 1 := Message(Assistant, assistant', None)];
        UpdateMessagesInUI(id, updated', rendered);
        grew := true;
      case _ =>
    }

    /** `stopStreaming`: aborts the pending request, if there is one. */
    method StopStreaming()
      modifies abortController
      ensures abortController != null ==> abortController.aborted
    {
      if abortController != null {
        abortController.Abort();
      }
    }

    /** One read of the loop: a chunk is decoded, then offered to the throttled publisher. */
    method ReadChunk(text: string, now: int, assistant: Content, updated: seq<Message>, id: string,
                     rendered: Option<string>, ev: Classifier, throttle: Throttle)
      returns (assistant': Content, updated': seq<Message>)
      requires |updated| > 0 && throttle.Valid() && throttle.limit == DefaultLimit
      modifies this`messages, this`messagesByConversation, throttle
      ensures throttle.Valid() && throttle.limit == DefaultLimit
      ensures var ds := ChunkDeltas(text, ev);
        var fire := now - old(throttle.lastExecutionTime) >= DefaultLimit;
        assistant' == MergeAll(assistant, ds)
        && updated' == (if |ds| > 0 then updated[|updated| - 1 := Message(Assistant, assistant', None)] else updated)
        && throttle.lastExecutionTime == (if fire then now else old(throttle.lastExecutionTime))
        && messagesByConversation == (if |ds| > 0 || fire then old(messagesByConversation)[id := updated'] else old(messagesByConversation))
        && messages == (if (|ds| > 0 || fire) && rendered == Some(id) then updated' else old(messages))
    {
      var residual;
      residual, assistant', updated' := ProcessStreamChunk(text, assistant, updated, id, rendered, ev);
      var fired := throttle.Call(now);
      if fired {
        UpdateMessagesInUI(id, updated', rendered);
      }
    }
  
    /**
     * The screen agrees with the stream after progress `p`: the assistant
     * message holds the text so far and ends the list, and the list has been
     * stored (and shown) exactly when something was published.
     */
    ghost predicate Reflects(p: Progress, id: string, rendered: Option<string>, updated: seq<Message>,
                             assistant: Content, result: seq<Message>,
                             store0: map<string, seq<Message>>, shown0: seq<Message>)
      reads this
    {
      assistant == Str(p.content)
      && result == updated + [Message(Assistant, assistant, None)]
      && messagesByConversation == (if p.published then store0[id := result] else store0)
      && messages == (if p.published && rendered == Some(id) then result else shown0)
    }

    /** One pass of the read loop of `streamBotResponse`, on a stream that has not ended. */
    method StreamStep(r: Read, ghost p: Progress, id: string, rendered: Option<string>, updated: seq<Message>,
                      assistant: Content, result: seq<Message>, ev: Classifier, throttle: Throttle,
                      ghost store0: map<string, seq<Message>>, ghost shown0: seq<Message>)
      returns (assistant': Content, result': seq<Message>, ended: Option<Ending>)
      requires p.ending.None? && Reflects(p, id, rendered, updated, assistant, result, store0, shown0)
      requires throttle.Valid() && throttle.limit == DefaultLimit && throttle.lastExecutionTime == p.lastExecution
      requires abortController != null
      modifies this`messages, this`messagesByConversation, throttle, abortController
      ensures ended == Advance(p, r, ev).ending
      ensures Reflects(Advance(p, r, ev), id, rendered, updated, assistant', result', store0, shown0)
      ensures throttle.Valid() && throttle.limit == DefaultLimit
      ensures throttle.lastExecutionTime == Advance(p, r, ev).lastExecution
      ensures abortController != null && (r.Stop? ==> abortController.aborted)
    {
      assistant', result', ended := assistant, result, None;
      match r {
        case Chunk(text, now) =>
          ghost var ds := ChunkDeltas(text, ev);
          ghost var fire := now - p.lastExecution >= DefaultLimit;
          assistant', result' := ReadChunk(text, now, assistant, result, id, rendered, ev, throttle);
          if |ds| > 0 {
            MergeAllConcatenates(Str(p.content), ds);
            ReplaceLast(updated, Message(Assistant, assistant, None), Message(Assistant, assistant', None));
          } else {
            assert p.content + Concat(ds) == p.content;
          }
          if p.published && (|ds| > 0 || fire) {
            OverwriteTwice(store0, id, result, result');
          }
        case Stop =>
          StopStreaming();
          ended := Some(Aborted);
        case Fail =>
          ended := Some(Failed);
      }
    }

    /**
     * The reads of `streamBotResponse`, taken until the body runs out or the
     * stream ends, from the store and the screen the placeholder push left.
     * The `n` reads taken leave the screen as the stream specification says.
     */
    method ReadSteps(id: string, updated: seq<Message>, steps: seq<Read>, ev: Classifier, rendered: Option<string>)
      returns (assistant: Content, result: seq<Message>, n: nat, ended: Option<Ending>)
      requires abortController != null
      modifies this`messages, this`messagesByConversation, abortController
      ensures n <= |steps| && (ended.None? ==> n == |steps|)
      ensures ended == Streamed(steps[..n], ev).ending
      ensures Reflects(Streamed(steps[..n], ev), id, rendered, updated, assistant, result,
                       old(messagesByConversation), old(messages))
    {
      assistant := Str("");
      result := updated + [Message(Assistant, assistant, None)];
      var throttle := new Throttle(DefaultLimit);
      var controller := abortController;
      n := 0;
      ended := None;
      assert steps[..0] == [];
      while n < |steps| && ended.None?
        invariant 0 <= n <= |steps|
        invariant throttle.Valid() && throttle.limit == DefaultLimit
        invariant abortController == controller
        invariant ended == Streamed(steps[..n], ev).ending
        invariant throttle.lastExecutionTime == Streamed(steps[..n], ev).lastExecution
        invariant Reflects(Streamed(steps[..n], ev), id, rendered, updated, assistant, result,
                           old(messagesByConversation), old(messages))
      {
        StreamedStep(steps, n, ev);
        assistant, result, ended := StreamStep(steps[n], Streamed(steps[..n], ev), id, rendered, updated,
                                               assistant, result, ev, throttle,
                                               old(messagesByConversation), old(messages));
        n := n + 1;
      }
    }

    /**
     * The read loop of `streamBotResponse`: an empty assistant message is
     * pushed, and reads are taken until the body runs out or the stream ends.
     * The push goes into the very array `updateUIWithUserMessage` stored,
     * uncopied, for the conversation (and showed, when it was on screen), so
     * the store and the screen hold the placeholder from then on.
     */
    method ReadLoop(id: string, updated: seq<Message>, steps: seq<Read>, ev: Classifier, rendered: Option<string>)
      returns (assistant: Content, result: seq<Message>, n: nat, ended: Option<Ending>)
      requires abortController != null
      modifies this`messages, this`messagesByConversation, abortController
      ensures n <= |steps| && (ended.None? ==> n == |steps|)
      ensures ended == Streamed(steps[..n], ev).ending
      ensures var pushed := updated + [Message(Assistant, Str(""), None)];
        Reflects(Streamed(steps[..n], ev), id, rendered, updated, assistant, result,
                 old(messagesByConversation)[id := pushed], if rendered == Some(id) then pushed else old(messages))
    {
      var pushed := updated + [Message(Assistant, Str(""), None)];
      messagesByConversation := messagesByConversation[id := pushed];
      if rendered == Some(id) {
        messages := pushed;
      }
      assistant, result, n, ended := ReadSteps(id, updated, steps, ev, rendered);
    }

    /**
     * `streamBotResponse`: a refused request returns the list unchanged;
     * otherwise an empty assistant message is pushed into the stored array,
     * every chunk is decoded into it and offered to a 200 ms throttle, and a
     * body that runs out is published once more. A stop aborts the
     * controller, after which the pending read fails with `AbortError`.
     * Every path returns the list as built so far and clears the abort
     * handle; once the request is accepted, the store and the screen hold
     * that list, whether or not anything was published.
     */
    method StreamBotResponse(id: string, updated: seq<Message>, ok: bool, steps: seq<Read>,
                             ev: Classifier, rendered: Option<string>)
      returns (result: seq<Message>, ending: Ending)
      modifies this
      ensures abortController == null
      ensures result == StreamResult(updated, ok, steps, ev)
      ensures ending == (if ok then StreamOutcome(steps, ev).ending.value else Refused)
      ensures messagesByConversation == (if ok then old(messagesByConversation)[id := result] else old(messagesByConversation))
      ensures messages == (if ok && rendered == Some(id) then result else old(messages))
      ensures conversations == old(conversations) && currentId == old(currentId)
      ensures currentName == old(currentName)
      ensures saves == old(saves) && nameRequests == old(nameRequests)
    {
      var controller := new AbortController();
      abortController := controller;
      if !ok {
        result, ending := updated, Refused;
        abortController := null;
        return;
      }
      var assistant: Content;
      var n: nat;
      var ended: Option<Ending>;
      assistant, result, n, ended := ReadLoop(id, updated, steps, ev, rendered);
      ghost var pushed := updated + [Message(Assistant, Str(""), None)];
      UnpublishedIsEmpty(steps[..n], ev);
      if ended.Some? {
        StreamedIsFinal(steps[..n], steps[n..], ev);
        assert steps[..n] + steps[n..] == steps;
        if Streamed(steps[..n], ev).published {
          OverwriteTwice(old(messagesByConversation), id, pushed, result);
        }
        ending := ended.value;
      } else {
        assert steps[..n] == steps;
        UpdateMessagesInUI(id, result, rendered);
        OverwriteTwice(old(messagesByConversation), id, pushed, result);
        ending := Completed;
      }
      abortController := null;
    }

    /**
     * `createNewConversation`: reopens the first conversation still named
     * "New Conversation" if there is one, otherwise opens a fresh one at
     * the top of the sidebar. Either way the open conversation is then the
     * first unnamed one, so repeated clicks never add a second.
     */
    method CreateNewConversation(freshId: string, now: int)
      modifies this
      ensures match FindUnnamed(old(conversations))
        case Some(k) =>
          var e := old(conversations)[k];
          currentId == Some(e.id) && conversations == old(conversations)
          && messages == (if e.id in old(messagesByConversation) then old(messagesByConversation)[e.id] else [])
        case None =>
          currentId == Some(freshId) && messages == []
          && conversations == [Entry(freshId, NewConversation, Some(now))] + old(conversations)
      ensures currentName == NewConversation
      ensures FindUnnamed(conversations).Some? && currentId == Some(conversations[FindUnnamed(conversations).value].id)
      ensures messagesByConversation == old(messagesByConversation) && abortController == old(abortController)
      ensures saves == old(saves) && nameRequests == old(nameRequests)
    {
      var found := FindUnnamed(conversations);
      if found.Some? {
        var id := conversations[found.value].id;
        currentId := Some(id);
        currentName := NewConversation;
        messages := if id in messagesByConversation then messagesByConversation[id] else [];
        return;
      }
      currentId := Some(freshId);
      currentName := NewConversation;
      messages := [];
      conversations := [Entry(freshId, NewConversation, Some(now))] + conversations;
      assert HasName(NewConversation)(conversations[0]);
    }

    /**
     * `saveConversationToBackend`: the conversation is posted. The status is
     * never checked: any JSON answer renames and re-stamps the sidebar entry
     * (or adds it) with the answer's `last_updated`, which an error body
     * lacks, and re-sorts the list. Only a post or a body that throws leaves
     * the sidebar alone.
     */
    method SaveConversationToBackend(req: SaveRequest, reply: SaveReply)
      modifies this
      ensures saves == old(saves) + [req]
      ensures conversations == (if reply.Answered? then UpsertAfterSave(old(conversations), req.id, req.name, reply.stamp)
                                else old(conversations))
      ensures messages == old(messages) && messagesByConversation == old(messagesByConversation)
      ensures currentId == old(currentId) && currentName == old(currentName)
      ensures abortController == old(abortController) && nameRequests == old(nameRequests)
    {
      saves := saves + [req];
      if reply.Answered? {
        conversations := SortConversations(Upserted(conversations, req.id, req.name, reply.stamp));
      }
    }

    /**
     * `handleSend`. Without an open conversation (or with an empty id) a
     * fresh one is opened first. The user message is appended to the stored
     * list; a conversation still named "New Conversation" asks for a name
     * (for the text, or "Image message"); the reply is streamed; then the
     * conversation is saved exactly once, under the final name, with the
     * list the stream resolved with. `rendered` is the open conversation of
     * the render whose handler runs, so a fresh conversation is stored but
     * not shown until the next render. `stamp` is the `last_updated` the
     * post carries (the untyped client sends none).
     */
    method HandleSend(text: string, images: seq<string>, model: string, freshId: string, now: int,
                      nameReply: NameReply, ok: bool, steps: seq<Read>, ev: Classifier,
                      stamp: Option<int>, saveReply: SaveReply)
      modifies this
      ensures var isNew := old(currentId).None? || old(currentId) == Some("");
        var id := SendTarget(old(currentId), freshId);
        var name := if isNew then NewConversation else old(currentName);
        var finalName := if name == NewConversation then GeneratedName(nameReply) else name;
        var prev := if id in old(messagesByConversation) then old(messagesByConversation)[id] else [];
        var updated := prev + [UserMessage(text, images, model)];
        var result := StreamResult(updated, ok, steps, ev);
        var listed := if isNew then [Entry(id, NewConversation, Some(now))] + old(conversations) else old(conversations);
        var rendered := old(currentId);
        currentId == Some(id) && currentName == finalName
        && nameRequests == old(nameRequests) + (if name == NewConversation then [if text == "" then ImageMessage else text] else [])
        && saves == old(saves) + [SaveRequest(id, finalName, result, stamp)]
        && conversations == (if saveReply.Answered? then UpsertAfterSave(listed, id, finalName, saveReply.stamp) else listed)
        && messagesByConversation == old(messagesByConversation)[id := result]
        && messages == (if rendered == Some(id) then result else if isNew then [] else old(messages))
        && abortController == null
    {
      var rendered := currentId;
      var userMessage := UserMessage(text, images, model);
      var id, name := OpenForSend(freshId, now);
      var updated := StoreUserMessage(id, userMessage, rendered);
      var finalName := NameConversation(name, text, nameReply);
      var result, ending := StreamBotResponse(id, updated, ok, steps, ev, rendered);
      SaveConversationToBackend(SaveRequest(id, finalName, result, stamp), saveReply);
      OverwriteTwice(old(messagesByConversation), id, updated, result);
    }

    /** The opening of `handleSend`: the conversation to send into, and its name. */
    method OpenForSend(freshId: string, now: int) returns (id: string, name: string)
      modifies this
      ensures var isNew := old(currentId).None? || old(currentId) == Some("");
        id == SendTarget(old(currentId), freshId) && currentId == Some(id)
        && name == (if isNew then NewConversation else old(currentName)) && currentName == name
        && messages == (if isNew then [] else old(messages))
        && conversations == (if isNew then [Entry(id, NewConversation, Some(now))] + old(conversations) else old(conversations))
      ensures messagesByConversation == old(messagesByConversation) && abortController == old(abortController)
      ensures saves == old(saves) && nameRequests == old(nameRequests)
    {
      id := SendTarget(currentId, freshId);
      name := currentName;
      if currentId.None? || currentId == Some("") {
        name := NewConversation;
        currentId := Some(id);
        currentName := name;
        messages := [];
        conversations := [Entry(id, name, Some(now))] + conversations;
      }
    }

    /** `updateUIWithUserMessage` on the stored list of the conversation (empty when there is none) plus the new message. */
    method StoreUserMessage(id: string, userMessage: Message, rendered: Option<string>) returns (updated: seq<Message>)
      modifies this
      ensures updated == (if id in old(messagesByConversation) then old(messagesByConversation)[id] else []) + [userMessage]
      ensures messagesByConversation == old(messagesByConversation)[id := updated]
      ensures messages == (if rendered == Some(id) then updated else old(messages))
      ensures conversations == old(conversations) && currentId == old(currentId)
      ensures currentName == old(currentName) && abortController == old(abortController)
      ensures saves == old(saves) && nameRequests == old(nameRequests)
    {
      var prev := if id in messagesByConversation then messagesByConversation[id] else [];
      updated := prev + [userMessage];
      UpdateMessagesInUI(id, updated, rendered);
    }

    /** The name promise of `handleSend`: only "New Conversation" asks the naming endpoint, which never rejects. */
    method NameConversation(name: string, text: string, nameReply: NameReply) returns (finalName: string)
      modifies this
      ensures finalName == (if name == NewConversation then GeneratedName(nameReply) else name)
      ensures nameRequests == old(nameRequests) + (if name == NewConversation then [if text == "" then ImageMessage else text] else [])
      ensures currentName == (if name == NewConversation then finalName else old(currentName))
      ensures messages == old(messages) && messagesByConversation == old(messagesByConversation)
      ensures conversations == old(conversations) && currentId == old(currentId)
      ensures abortController == old(abortController) && saves == old(saves)
    {
      finalName := name;
      if name == NewConversation {
        nameRequests := nameRequests + [if text == "" then ImageMessage else text];
        finalName := GeneratedName(nameReply);
        currentName := finalName;
      }
    }
  }
}
