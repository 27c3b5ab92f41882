# ConversAI-Kit chat application — a verified model

ConversAI-Kit is a chat application:
- Three browser clients share one chat screen:
  - the typed React client `chatbot-ui/src/components/App.tsx`;
  - its untyped twin `App.js`;
  - the oldest client `src/components/App.js`.
- The Python back ends behind them are:
  - a Flask app (`app.py`, with `chat.py` and `database.py`);
  - a FastAPI app (`chatbot-api/src/fastapi_app.py`, with `chatbot-api/chat.py` and `chatbot-api/src/database.py`);
  - a layered FastAPI back end (`chatbot-api/src/chat/` and `chatbot-api/src/conversation/`).

This project models, in Dafny:
- **Streaming, server side:** how a reply is streamed as Server-Sent Events `data:` frames.
- **Streaming, browser side:** how each client decodes those frames into the assistant message:
  - with or without carrying a line cut across two network reads;
  - stopping, or not, at a server error;
  - behind a 200 ms throttle.
- **Browser bookkeeping:**
  - the sidebar list: ordering, upsert after a save, the unnamed-conversation lookup;
  - name cleaning;
  - date grouping.
- **Handlers:** the send, stop and new-conversation handlers of each client.
- **Back-end routes:** validation and error codes.
- **Storage:** the conversation table of every back end, modelled as an upsert keyed on the conversation id.
- **Layered back end:** the UTC normalisation of timestamps.

The modelling choices:
- **State:** mutable state is a Dafny `class`:
  - the screen state of each client;
  - the throttle;
  - each database table;
  - the repository;
  - a Python list that a callee extends in place (`Containers.PyList`).

  Each method is proved against a specification function of the old state and the inputs.
- **External services as parameters:** network answers, clock readings, fresh ids, the OpenAI client, `JSON.parse`, `json.dumps`/`json.loads` and Python's `str()`. Properties that need a round trip (a dump that loads back) say so in a `requires`.

Modules, one per file:
- **Shared helpers:**
  - `Wrappers`: Option, Result;
  - `Text`: split, trim, words, the case-insensitive search for "error";
  - `Json`;
  - `Lists`;
  - `StableSort`;
  - `Tables`: the SQL upsert;
  - `Http`: route responses;
  - `Containers`.
- **Browser:**
  - `StreamDecoder`: the SSE line decoder of the clients;
  - `Throttling`;
  - `Messages` and `MessageBubble`;
  - `ConversationIndex`;
  - `Sidebar`;
  - `ChatApp`: the newer clients;
  - `LegacyClient`: the oldest client.
- **Back end:**
  - `BotChat`: both `chat.py` files;
  - `FlaskDatabase`, `ApiDatabase`;
  - `FlaskApp`, `FastApiApp`;
  - `Domain`, `Repository`, `ConversationService`, `ChatLayer`.

## Model

| member | source | states |
|---|---|---|
| StreamDecoder.DeltasComeFromContentLines | chatbot-ui/src/components/App.tsx:266-289 | every delta the decoder takes is the `content` of a complete `data:` line, in order |
| StreamDecoder.ErrorLineIsSkipped | chatbot-ui/src/components/App.tsx:280-286 | a server-error line does not stop the newer clients: the lines after it still yield their deltas |
| StreamDecoder.CarryReassembles | src/components/App.js:389-430 | carrying the unterminated tail into the next read yields the lines and tail of the concatenated text |
| StreamDecoder.CarryIgnoresChunking | src/components/App.js:383-432 | two ways of cutting the same text into reads decode to the same lines |
| StreamDecoder.AlignedChunksDecodeAlike | chatbot-ui/src/components/App.tsx:330-339 | when every read ends at a line boundary, decoding each read on its own equals carrying the tail |
| StreamDecoder.SplitFrameLosesDelta | chatbot-ui/src/components/App.tsx:336 | the newer clients drop the tail: a frame `data: 1\n` delivered as `data: 1` then `\n` yields no delta |
| StreamDecoder.CarriedFrameKeepsDelta | src/components/App.js:389-430 | the carrying decoder reads the delta of that same split frame |
| StreamDecoder.StopAtErrorIsFinal | src/components/App.js:415-420 | once a server error is seen, no later line changes what the oldest client took |
| StreamDecoder.StopAtErrorWithoutErrors | src/components/App.js:392-427 | without a server error, the stopping decoder takes exactly the deltas of the newer one |
| StreamDecoder.StopAtFirstError | src/components/App.js:415-420 | with a server error, decoding keeps the deltas of the lines before the first one and returns that error |
| Throttling.Throttle.constructor | chatbot-ui/src/components/App.tsx:245-246 | a new throttle has `lastExecutionTime` 0 and has published nothing |
| Throttling.Throttle.Call | chatbot-ui/src/components/App.tsx:247-253 | a call fires iff at least `limit` ms passed since the last firing, and then records the time |
| Throttling.PublishedIsSpaced | chatbot-ui/src/components/App.js:206-215 | the firings of any run of calls are at least `limit` apart, and each is one of the call times |
| Throttling.QuietWithinLimit | chatbot-ui/src/components/App.js:210 | calls within `limit` of the last firing never fire |
| Messages.ImageParts | chatbot-ui/src/components/App.tsx:388-401 | one image part per attached image, in order |
| Messages.ImagePartKeepsPayload | chatbot-ui/src/components/App.tsx:392-397 | a data URL `header,payload` becomes a JPEG data URL with the same payload |
| Messages.MergeAllConcatenates | chatbot-ui/src/components/App.tsx:274-276 | after the deltas, the assistant content is the old text followed by every delta |
| MessageBubble.FirstText | chatbot-ui/src/components/MessageBubble.tsx:63 | the text shown is that of the first text part, or empty when there is none |
| MessageBubble.ImageUrls | chatbot-ui/src/components/MessageBubble.tsx:64-68 | the images shown are the urls of the image parts, in order, and nothing else |
| MessageBubble.ImageUrlsAppend | chatbot-ui/src/components/MessageBubble.tsx:64-68 | image extraction distributes over concatenated part lists |
| MessageBubble.BubbleShowsUserMessage | chatbot-ui/src/components/MessageBubble.tsx:59-73 | the bubble shows back the text and every image url that `handleSend` put into the user message |
| ConversationIndex.SortByLastUpdated | chatbot-ui/src/components/App.tsx:192-196 | the copy is a permutation of the input; when every stamp parses it is sorted newest first and keeps the order of ties |
| ConversationIndex.SortConversations | chatbot-ui/src/components/App.tsx:193-195 | copying the list into a fresh array and sorting that array in place gives the order `SortByLastUpdated` specifies |
| ConversationIndex.UpsertAfterSaveSpec | chatbot-ui/src/components/App.tsx:163-186 | after a save answers, the list holds the renamed, re-stamped entry (or one more entry) and is otherwise the old list; ids stay distinct; it is sorted newest first whenever every stamp parses, which a stamped answer to a fully stamped list keeps |
| ConversationIndex.UpsertedSpec | chatbot-ui/src/components/App.tsx:164-185 | before sorting: the first entry of the id is replaced, or the entry is appended |
| ConversationIndex.CleanNameSpec | chatbot-ui/src/components/App.tsx:213 | cleaning trims, then removes exactly one pair of enclosing quotes when the trimmed name is quoted |
| ConversationIndex.GeneratedNameFallback | chatbot-ui/src/components/App.tsx:207-217 | a failed or empty naming answer names the conversation "New Conversation" |
| ConversationIndex.LegacyGeneratedName | src/components/App.js:127-145 | the oldest client's name is the answer's name when non-empty, else the placeholder, and never empty |
| ConversationIndex.LegacyUpsertSpec | src/components/App.js:98-120 | the oldest client renames a known id in place (position kept) or appends; ids stay distinct |
| ConversationIndex.Rename | src/components/App.js:329-336 | every entry of the id gets the name; all other entries are untouched |
| Sidebar.Grouping | chatbot-ui/src/components/Sidebar.tsx:22-35 | Today iff same day; Yesterday iff another day less than 2 days back (or in the future); Previous 7 Days iff 2 to 7 days back; otherwise Older, including an unparsable date |
| Sidebar.FutureIsYesterday | chatbot-ui/src/components/Sidebar.tsx:28 | a timestamp in the future, on another day, is filed under "Yesterday" |
| Sidebar.GroupsPartition | chatbot-ui/src/components/Sidebar.tsx:38-45 | the four groups together hold every conversation exactly once |
| Sidebar.UnstampedAnswerIsOlder | chatbot-ui/src/components/App.tsx:161-185 | a save answered without a `last_updated` (an error body) lists the conversation with an invalid date, which the sidebar files under "Older" |
| Sidebar.GroupConversationsByDate | chatbot-ui/src/components/Sidebar.tsx:38-45 | the loop builds the map the `reduce` builds, so a group key is present iff it has entries, and it holds them in list order |
| Sidebar.GroupedIsGroupedAs | chatbot-ui/src/components/Sidebar.tsx:38-45 | for every list, the `reduce` result holds exactly the non-empty groups, each with its entries in list order |
| Sidebar.InGroupPrefix | chatbot-ui/src/components/Sidebar.tsx:39-41 | one more conversation joins its own group's list, at the end, and no other list |
| StableSort.SortDescSorted | chatbot-ui/src/components/App.tsx:193-195 | the reference sort orders by descending key |
| StableSort.SortDescPermutes | chatbot-ui/src/components/App.tsx:193-195 | the reference sort is a permutation of its input |
| StableSort.SortDescStable | chatbot-ui/src/components/App.tsx:193-195 | elements with equal keys keep their input order |
| StableSort.SortInPlace | chatbot-ui/src/components/App.js:151-153 | the in-place sort leaves the array equal to the reference sort of its old contents |
| ChatApp.StreamedIsFinal | chatbot-ui/src/components/App.tsx:330-350 | reads after the one that ended the stream are never looked at |
| ChatApp.UnpublishedIsEmpty | chatbot-ui/src/components/App.tsx:273-279 | every delta is published as it arrives, so a stream that has published nothing has no assistant text |
| ChatApp.StreamedCollectsDeltas | chatbot-ui/src/components/App.tsx:330-339 | without a stop or a failure, the assistant text is the concatenated deltas of every read, each decoded on its own |
| ChatApp.App.constructor | chatbot-ui/src/components/App.tsx:72-77 | the screen starts with no messages, no conversations, no open id, an empty name and no abort handle |
| ChatApp.App.UpdateMessagesInUI | chatbot-ui/src/components/App.tsx:233-242 | the list is stored for the id, and shown only when the id is the one the render had open; nothing else changes |
| ChatApp.App.ProcessStreamChunk | chatbot-ui/src/components/App.tsx:257-292 | returns the unterminated tail; the assistant content merges the chunk's deltas, and list, store and screen change only when a delta arrived |
| ChatApp.App.ApplyLine | chatbot-ui/src/components/App.tsx:267-287 | a line changes the state iff it carries a delta, and then by exactly that delta |
| ChatApp.App.StopStreaming | chatbot-ui/src/components/App.tsx:358-360 | a pending request's controller is aborted |
| ChatApp.App.ReadChunk | chatbot-ui/src/components/App.tsx:334-338 | one read is decoded, then offered to the 200 ms throttle, which publishes iff due |
| ChatApp.App.StreamStep | chatbot-ui/src/components/App.tsx:330-339 | one pass of the read loop advances the screen exactly as the stream specification advances |
| ChatApp.App.LineStep | chatbot-ui/src/components/App.tsx:266-289 | one complete line of a chunk: its delta, if any, joins the deltas taken, is merged into the assistant content and written over the last message, which is stored and shown exactly when a delta has arrived |
| ChatApp.LineAdvances | chatbot-ui/src/components/App.tsx:266-289 | a line with a delta adds exactly that delta to the decoded deltas and merges it into the content; any other line adds nothing |
| ChatApp.App.ReadSteps | chatbot-ui/src/components/App.tsx:322-339 | from the store and screen the push left, the reads taken (all of them, or up to the one that ends the stream) leave the list, store and screen as the stream specification says |
| ChatApp.App.ReadLoop | chatbot-ui/src/components/App.tsx:319-339 | the empty assistant message is pushed into the array the store holds (and the screen, when on screen); the reads then leave the list, store and screen as the stream specification says; sidebar, name and saves are untouched |
| ChatApp.App.StreamBotResponse | chatbot-ui/src/components/App.tsx:295-355 | a refused request returns the list unchanged and changes nothing; otherwise it returns the list with the streamed assistant message, which the store (and the screen, when on screen) then holds, even after a stop or failure before any text; the abort handle is cleared |
| ChatApp.App.CreateNewConversation | chatbot-ui/src/components/App.tsx:473-500 | reopens the first "New Conversation" or prepends a fresh one; either way the open conversation is then the first unnamed one |
| ChatApp.App.SaveConversationToBackend | chatbot-ui/src/components/App.tsx:152-189 | posts the conversation; any JSON answer, whatever its status, applies the sorted upsert with the answer's stamp, which is invalid when the body has none; only a thrown post or body leaves the sidebar alone |
| ChatApp.App.HandleSend | chatbot-ui/src/components/App.tsx:381-452 | opens a conversation if needed, appends the user message, names a "New Conversation", streams, and saves exactly once under the final name with the streamed list, which the store then holds; the sidebar changes as the save answer says |
| ChatApp.App.OpenForSend | chatbot-ui/src/components/App.tsx:403-424 | without an open id, a fresh one is opened and prepended as "New Conversation" |
| ChatApp.App.StoreUserMessage | chatbot-ui/src/components/App.tsx:426-429 | the stored list (empty if none) plus the user message is stored, and shown if the conversation is on screen |
| ChatApp.App.NameConversation | chatbot-ui/src/components/App.tsx:431-441 | only "New Conversation" asks for a name, with the text or "Image message" |
| LegacyClient.StoreKey | src/components/App.js:308-311 | a `null` id is stored under the key "null" |
| LegacyClient.LegacyDecodingIgnoresChunking | src/components/App.js:383-432 | the oldest client's decoding does not depend on where the network cut the text |
| LegacyClient.LegacyTakesEveryDelta | src/components/App.js:392-427 | without server errors, the oldest client takes every delta of every carried line |
| LegacyClient.LegacyKeepsSplitFrame | src/components/App.js:389-430 | the frame cut in two, which the newer clients lose, is decoded whole |
| LegacyClient.LegacyApp.constructor | src/components/App.js:11-15 | the oldest screen starts empty, with no open conversation |
| LegacyClient.LegacyApp.CreateNewConversation | src/components/App.js:470-486 | always opens a fresh conversation, appended to the sidebar |
| LegacyClient.LegacyApp.SaveConversationToBackend | src/components/App.js:85-124 | posts; once answered, renames the entry in place or appends it |
| LegacyClient.LegacyApp.ProcessChunk | src/components/App.js:387-431 | the tail and the read are split; the content is the deltas of the stopping decoder over all lines so far; the tail is kept |
| LegacyClient.LegacyApp.ProcessLine | src/components/App.js:393-425 | one line advances the content and the error exactly as the stopping decoder does |
| LegacyClient.LegacyApp.ReadChunks | src/components/App.js:383-432 | chunks are read with the residual carried into the next, until they run out or a server error arrives; content, error and alert are those the carry decoder gives for the chunks read, and the store and screen show the assistant text |
| LegacyClient.DecodedStops | src/components/App.js:419-424 | once a server error has been decoded, the later chunks change neither the deltas nor the error |
| LegacyClient.LegacyApp.StreamReply | src/components/App.js:350-441 | the bot-response promise settles as the stream specification says, and the shown list holds every delta taken |
| LegacyClient.LegacyApp.StoreUserMessage | src/components/App.js:299-315 | the stored list of the open id plus the user message is stored and shown |
| LegacyClient.LegacyApp.NameConversation | src/components/App.js:322-346 | "New Conversation" asks for a name and renames the sidebar entries of the id |
| LegacyClient.LegacyApp.HandleSend | src/components/App.js:298-456 | the user message is stored and shown, the name generated when needed, the reply streamed; only a resolved stream is saved, under the final name |
| Tables.Lookup | chatbot-api/src/database.py:72-74 | `None` iff no row has the key; otherwise a stored row with that key |
| Tables.UpsertCount | chatbot-api/src/database.py:38-50 | an upsert adds a row exactly when the key is new |
| Tables.UpsertThenLookup | chatbot-api/src/database.py:38-50 | after an upsert, looking up its key gives the row saved |
| Tables.UpsertLeavesOthers | chatbot-api/src/database.py:38-50 | an upsert does not change what any other key looks up |
| Tables.UpsertKeepsOrder | chatbot-api/src/database.py:38-50 | rows keep their positions; a new row goes last |
| Tables.UpsertKeepsUniqueKeys | chatbot-api/src/database.py:31-50 | distinct keys stay distinct |
| FlaskDatabase.Database.constructor | database.py:7-22 | the table starts empty |
| FlaskDatabase.Database.SaveConversation | database.py:26-49 | updates the rows of the id, or inserts one |
| FlaskDatabase.Database.GetConversations | database.py:53-65 | every row with its three columns, in table order |
| FlaskDatabase.Database.GetConversation | database.py:67-84 | `None` iff no row has the id; otherwise a row with that id |
| FlaskDatabase.SaveThenGet | database.py:26-84 | a save and then a read of the id gives back the three strings saved |
| FlaskDatabase.SaveLeavesOtherIds | database.py:26-49 | a save leaves every other id's row as it was |
| FlaskDatabase.SaveAddsOnlyNewIds | database.py:26-49 | a save adds a row only for an id not yet stored |
| ApiDatabase.Summaries | chatbot-api/src/database.py:64 | one summary per row, with its id, name and timestamp |
| ApiDatabase.Database.constructor | chatbot-api/src/database.py:7-23 | the table starts empty |
| ApiDatabase.Database.SaveConversation | chatbot-api/src/database.py:26-53 | upserts the row, stamped with the given time or now |
| ApiDatabase.Database.GetConversations | chatbot-api/src/database.py:57-67 | the summaries of all rows, in table order |
| ApiDatabase.Database.GetConversation | chatbot-api/src/database.py:69-87 | `None` iff no row has the id; otherwise a row with that id |
| ApiDatabase.SaveThenGet | chatbot-api/src/database.py:26-87 | a read after a save gives the saved messages and the saved or current stamp |
| ApiDatabase.SecondSaveOverwrites | chatbot-api/src/database.py:38-44 | a second save of an id replaces the first |
| ApiDatabase.NewConversationIsListedLast | chatbot-api/src/database.py:45-50 | a new id is listed after all older rows |
| ApiDatabase.SaveKeepsIdsUnique | chatbot-api/src/database.py:31-50 | saves keep ids distinct |
| BotChat.Prompted | chatbot-api/chat.py:48-54 | non-o1 models get the system prompt in front unless the list already starts with one; o1 models get the list as is; for other models an empty list raises |
| BotChat.NonEmpty | chatbot-api/chat.py:68-71 | only non-empty pieces are kept, in order |
| BotChat.NonEmptyKeepsText | chatbot-api/chat.py:68-71 | dropping empty pieces does not change the joined text |
| BotChat.ContentChunks | chatbot-api/chat.py:71 | one `{'content': piece}` chunk per piece |
| BotChat.StreamCarriesTheCompletion | chatbot-api/chat.py:45-78 | for a streaming model the chunks are the content of every non-empty piece, in order and with all the text, then `{'error': text}` with the failure's text if the stream failed |
| BotChat.O1AnswersInOneChunk | chatbot-api/chat.py:48-78 | an o1 model gets the list as it came and yields exactly one chunk: the whole reply (null when absent) or the error's text; the streaming client plays no part |
| BotChat.EmptyRequestIsOneError | chatbot-api/chat.py:51-53 | a streaming model with no messages yields only the `IndexError` text as an error chunk |
| BotChat.OldStreamIsDefaultModel | chat.py:31-53 | the older stream is the newer one fixed to gpt-4o |
| BotChat.KeepNonEmpty | chatbot-api/chat.py:68-71 | the loop yields the content chunks of the non-empty pieces |
| BotChat.BotResponseStream | chatbot-api/chat.py:45-78 | yields the specified chunks; the caller's list gains the system prompt in place exactly when the source inserts it |
| BotChat.OldBotResponseStream | chat.py:31-53 | the same for the older stream |
| BotChat.GetBotResponse | chatbot-api/chat.py:27-42 | the stripped reply to the system prompt and the user message, or the text of the exception |
| BotChat.BotReplyIsStripped | chat.py:23 | a successful reply has no surrounding whitespace |
| BotChat.GeneratedNameIsFirstFourWords | chatbot-api/chat.py:98-100 | a generated name is the reply's first four words (at most), single-spaced |
| FastApiApp.ProcessedMessages | chatbot-api/src/fastapi_app.py:191-198 | role and content are kept; model is included iff it is non-empty; order and length are unchanged |
| FastApiApp.Frames | chatbot-api/src/fastapi_app.py:202-203 | one `data: <json>\n\n` frame per chunk |
| FastApiApp.StreamChat | chatbot-api/src/fastapi_app.py:185-219 | 400 "Invalid messages format" for no messages; otherwise one frame per chunk of the bot stream |
| FastApiApp.FrameDecodes | chatbot-api/src/fastapi_app.py:203 | a frame of a dumped dict decodes in the browser to that dict's content |
| FastApiApp.FramesDecode | chatbot-api/src/fastapi_app.py:202-205 | the frames decode, read by read, to the chunks' contents |
| FastApiApp.StreamRoundTrip | chatbot-api/src/fastapi_app.py:200-205 | however the framed stream is cut, the carrying decoder reads exactly the chunks' contents and buffers nothing; the per-chunk decoder reads the same when each read is one frame |
| FastApiApp.StreamedChunkTexts | chatbot-api/src/fastapi_app.py:204-205 | a final error frame adds no text |
| FastApiApp.BrowserReceivesTheCompletion | chatbot-api/src/fastapi_app.py:185-215 | end to end: the browser's joined deltas are the completion's text, whatever the chunking |
| FastApiApp.Chat | chatbot-api/src/fastapi_app.py:169-183 | 400 iff no messages; otherwise the reply to the last message's text (its first part's text for list content), or a 500 with the error text when that message has no text to send |
| FastApiApp.GenerateName | chatbot-api/src/fastapi_app.py:157-167 | 500 iff the name is empty or contains "error" in any case; otherwise 200 with the name |
| FastApiApp.TimeoutBecomesName | chatbot-api/src/fastapi_app.py:161 | a timed-out naming call is answered 200 with the name "Request timed out." |
| FastApiApp.GenerateNameReported | chatbot-api/src/fastapi_app.py:157-167 | with failures kept apart from names, every failure is a 500 and every success carries the generated name |
| FastApiApp.PartsRoundTrip | chatbot-api/src/fastapi_app.py:105-111 | the dumps of a part list rebuild to the same parts |
| FastApiApp.MessagesRoundTrip | chatbot-api/src/fastapi_app.py:104-123 | the dumped messages rebuild to the same messages |
| FastApiApp.NormalizeItems | chatbot-api/src/fastapi_app.py:106-111 | the loop gives the specified parts: dicts validated, other items wrapped as text parts of `str(item)` |
| FastApiApp.NormalizeMessage | chatbot-api/src/fastapi_app.py:105-122 | one stored message rebuilt as specified, or the first failure |
| FastApiApp.NormalizeMessages | chatbot-api/src/fastapi_app.py:103-123 | the loop rebuilds every message in order, or stops at the first failure |
| FastApiApp.GetConversationById | chatbot-api/src/fastapi_app.py:94-134 | 404 "Conversation not found" iff no row has the id; otherwise the rebuilt conversation or a 500 with the error text |
| FastApiApp.SaveConversationRoute | chatbot-api/src/fastapi_app.py:136-155 | one upsert of the dumped messages stamped now; 201 echoing id, name and that stamp |
| FastApiApp.ListConversations | chatbot-api/src/fastapi_app.py:86-92 | the stored summaries, in table order |
| FastApiApp.SaveThenFetch | chatbot-api/src/fastapi_app.py:136-153 | a save then a fetch returns the id, name, the same messages and the save's stamp |
| Domain.TagUtc | chatbot-api/src/conversation/service.py:35-37 | the wall clock is kept and labelled UTC |
| Repository.EnsureUtc | chatbot-api/src/conversation/repository.py:40-44 | a naive value is labelled UTC; an aware one is converted to the same instant in UTC |
| Repository.EnsureUtcIdempotent | chatbot-api/src/conversation/repository.py:40-44 | normalising twice is normalising once |
| Repository.StoredAll | chatbot-api/src/conversation/repository.py:109-119 | one stored message per message, with its timestamp in UTC |
| Repository.Reparsed | chatbot-api/src/conversation/repository.py:77-86 | string content that parses to a list becomes that list; anything else is kept |
| Repository.ReadMessages | chatbot-api/src/conversation/repository.py:76-97 | one domain message per stored message, in order |
| Repository.Summaries | chatbot-api/src/conversation/repository.py:52-59 | one summary per row with its UTC timestamp |
| Repository.SqliteRepository.constructor | chatbot-api/src/conversation/repository.py:20-38 | the table starts empty |
| Repository.SqliteRepository.GetConversations | chatbot-api/src/conversation/repository.py:46-59 | the summaries of all rows, newest first, as a permutation of the table |
| Repository.SqliteRepository.GetConversation | chatbot-api/src/conversation/repository.py:61-104 | `None` iff the id is unknown; otherwise the first row of the id with every message read back |
| Repository.SqliteRepository.SaveConversation | chatbot-api/src/conversation/repository.py:106-158 | upserts the conversation's row with UTC timestamps |
| Repository.SaveThenGet | chatbot-api/src/conversation/repository.py:61-158 | a read after a save gives the id, the name, the UTC stamp and every message with its UTC timestamp and its content re-parsed: text that reads as a JSON list comes back as the list, any other content as saved |
| Repository.SaveRowCount | chatbot-api/src/conversation/repository.py:129-157 | a save adds a row only for a new id |
| Repository.SaveKeepsIdsUnique | chatbot-api/src/conversation/repository.py:122-157 | saves keep ids distinct |
| ConversationService.Tagged | chatbot-api/src/conversation/service.py:33-37 | a naive `last_updated` is labelled UTC; an aware one and all other fields are kept |
| ConversationService.TaggingIsInvisibleInStore | chatbot-api/src/conversation/service.py:33-38 | tagging before the save stores the same row as saving untagged |
| ConversationService.GenerateName | chatbot-api/src/conversation/service.py:40-63 | a provider exception is raised again; a reply without content fails; otherwise a name |
| ConversationService.GenerateNameAsWritten | chatbot-api/src/conversation/service.py:44-63 | the unawaited call: an `async` provider always fails with the coroutine's missing `content`; only a synchronous provider with a reply gives a name |
| ConversationService.UnawaitedProviderNeverNames | chatbot-api/src/conversation/service.py:45 | with a provider that follows the `async` protocol and has a reply, the service as written fails and its route answers 500, while the awaited service names the conversation and its route answers 200 |
| ConversationService.GeneratedNameIsFirstFourWords | chatbot-api/src/conversation/service.py:57-58 | the name is the reply's first four words (at most), single-spaced |
| ConversationService.Service.GetConversations | chatbot-api/src/conversation/service.py:20-23 | the repository's summaries, newest first |
| ConversationService.Service.GetConversation | chatbot-api/src/conversation/service.py:25-28 | the repository's answer, unchanged |
| ConversationService.Service.SaveConversation | chatbot-api/src/conversation/service.py:30-38 | one repository save; the caller's record becomes the tagged one |
| ConversationService.DomainConversation | chatbot-api/src/conversation/routes.py:76-90 | id kept; an empty or missing name becomes "New Conversation"; structured content is dumped; a missing timestamp and `last_updated` are now |
| ConversationService.SaveConversationRoute | chatbot-api/src/conversation/routes.py:67-99 | one save of the domain record; the request is echoed with `last_updated` set to now |
| ConversationService.GetConversationRoute | chatbot-api/src/conversation/routes.py:55-65 | 404 "Conversation not found" iff the id is unknown; 200 with the repository's conversation iff every content passes `str \| dict \| list[dict]`; otherwise 500 |
| ConversationService.ListOfNumbersFailsResponse | chatbot-api/src/conversation/repository.py:77-86 | the text `[1, 2]` is valid content when saved but is read back as a list of numbers, which the response check refuses |
| ConversationService.GenerateNameRouteAsWritten | chatbot-api/src/conversation/routes.py:101-109 | the route as written: always 500 with a provider whose `generate_response` is async; with a synchronous one, 200 with the name exactly when the naming succeeds |
| ConversationService.GenerateNameRoute | chatbot-api/src/conversation/routes.py:101-109 | the route over the corrected service that awaits the provider: 200 with the name iff the naming succeeds, otherwise 500 |
| ConversationService.SaveRouteThenGet | chatbot-api/src/conversation/routes.py:76-92 | saving through the route then reading gives the name, every role and model, and the UTC stamp of now; text comes back re-parsed, a list whose dump loads back comes back as that list, and an object comes back as its dump |
| ChatLayer.UserMessage | chatbot-api/src/chat/service.py:14 | a user message with the text, no model and the load-time default timestamp |
| ChatLayer.Sent | chatbot-api/src/chat/service.py:13-16 | the provider gets the history followed by that user message |
| ChatLayer.ChatService.WithUserMessage | chatbot-api/src/chat/service.py:13-14 | a non-empty history of the caller's is extended in place; `None` or an empty list leaves the caller's list alone |
| ChatLayer.ChatService.ProcessMessage | chatbot-api/src/chat/service.py:11-16 | the provider's answer to the history plus the user message |
| ChatLayer.ChatService.StreamResponse | chatbot-api/src/chat/service.py:18-24 | exactly the provider's chunks, in order, and its failure |
| ChatLayer.NoHistorySendsOneMessage | chatbot-api/src/chat/service.py:13 | with no history the provider sees only the user message |
| ChatLayer.DomainMessages | chatbot-api/src/chat/routes.py:21-28 | request messages are converted one for one, keeping role, content and model; a missing timestamp becomes now |
| ChatLayer.ProviderInput | chatbot-api/src/chat/routes.py:30-33 | the history is all messages but the last; the message is the last one's content |
| ChatLayer.Chat | chatbot-api/src/chat/routes.py:15-39 | 500 for no messages, a provider failure or a reply without text; otherwise reply, model and timestamp copied from the provider |
| ChatLayer.RawFrames | chatbot-api/src/chat/routes.py:60 | one `data: <chunk>\n\n` frame per chunk, the chunk's raw text |
| ChatLayer.StreamChat | chatbot-api/src/chat/routes.py:41-69 | the frames of the provider's chunks; an empty request or a provider failure breaks the stream off |
| ChatLayer.RawFrameYieldsNothing | chatbot-api/src/chat/routes.py:60 | a plain-text chunk framed raw gives the JSON-parsing browser no delta |
| ChatLayer.RawStreamLosesReply | chatbot-api/src/chat/routes.py:60 | the reply "Hello" reaches the browser as no text at all |
| FlaskApp.LastContent | app.py:30 | the last message's `content`, a KeyError for a dict without it, a TypeError otherwise |
| FlaskApp.Chat | app.py:18-39 | a body that is not an object is a 500 with Python's attribute error; otherwise 400 iff the id is falsy or messages are missing, empty or not a list; a success is the reply to the last message's content |
| FlaskApp.GenerateName | app.py:43-59 | a body that is not an object is a 500; otherwise 400 iff the message is falsy or missing; then 500 iff the name is empty or mentions "error"; else the name |
| FlaskApp.SaveFields | app.py:66-71 | the three fields, present iff all are truthy |
| FlaskApp.BoundText | database.py:31-46 | the text a `TEXT NOT NULL` column keeps: a string as is, a bool as "1"/"0", a 64-bit integer as its decimal text, with its sign; nothing for lists, dicts, wider integers and null |
| FlaskApp.SaveConversationRoute | app.py:63-77 | 400 and no save unless id, name and messages are all truthy; a 500 and no change when the id or the name cannot be bound; otherwise one save of the bound id and name with the dumped messages, and a 201 |
| FlaskApp.DecodedRows | app.py:82-84 | every row with its messages decoded, ids and names unchanged; fails iff some row does not decode |
| FlaskApp.GetConversationsRoute | app.py:81-86 | the loop gives the decoded list, or a 500 when a row does not decode |
| FlaskApp.SaveThenList | app.py:74-84 | after a save whose dump loads back, the list shows that conversation with the saved messages |

## Left out

- Network and rendering: `fetch`, response reading, React re-render timing, URL navigation and `console` output. The answers a handler receives are parameters.
- `alert` boxes of the newer clients: not modelled. The oldest client's alerts are kept as a list of texts.
- Concurrency: the name and stream promises of `handleSend` are joined as one sequential step in which both results are available.
- Servers and wiring: async generators, FastAPI/Flask/uvicorn servers, CORS and dependency wiring are not modelled. Python generators are modelled as the complete list of what they yield.
- The OpenAI client: it is a function parameter that returns text or a sequence of pieces, or fails.
- The JSON grammar: `json.dumps`, `json.loads` and `JSON.parse` are parameters. Properties that need them to agree state that in their `requires`.
- Python's `str()` and exception texts: these are parameters. The exceptions are `TypeError` and pydantic's validation errors.
- `Date` parsing and `toDateString`:
  - Timestamps on the browser side are integers in milliseconds.
  - "Same calendar day" is a parameter.
  - A `datetime` is a wall-clock reading with an optional UTC offset; there is no calendar arithmetic.
- SQL `ORDER BY last_updated DESC`: modelled as a stable sort on the instant. The order of ties in SQLite is not specified, so any order it picks is allowed only up to a permutation.
- SQLite: connections, files and `init_db` on an existing file are not modelled.
- Aliasing in the browser: the assistant message object is shared between the loop and the list, and the array `updateUIWithUserMessage` stores is the one `streamBotResponse` pushes into. The model passes values, writes the push into the store and the screen explicitly, and states the lists that result.
- ConversationIndex.SortByLastUpdated: with an invalid date among the entries, the comparator is inconsistent and the engine's order is implementation-defined. The model keeps the list in its order there and promises only a permutation.
- ConversationService.Service.SaveConversation: returns the tagged record. It does not model writing the tag into the caller's object through the shared reference.
- Repository.SqliteRepository.GetConversation: models the stored messages as already decoded values. The outer `json.dumps`/`json.loads` of the message list is not modelled, and neither are the invalid-timestamp errors of `fromisoformat`.
- ChatLayer.Chat: the response model's validation of a reply without text is modelled as one server error. Pydantic's message is not modelled.
- FastApiApp.StreamChat: the `except` branch of the outer handler cannot be reached once the stream has started, and is not modelled.
- FlaskApp.BoundText: JSON numbers are integers only. A float id or name, stored by SQLite as the text of a real, is not modelled.
- MessageInput, ChatWindow, ModelSelector and the components of the oldest client other than `App.js` hold no logic beyond rendering, and are not modelled.

## Findings

| source | as written | input that shows it | evidently intended | confidence | as-written member | corrected member |
|---|---|---|---|---|---|---|
| chatbot-ui/src/components/App.tsx:336 | the newer clients keep the returned tail in `buffer` but never prepend it to the next read, so a line cut across two reads is dropped | the frame `data: 1\n` arriving as the reads `data: 1` and `\n` | carry the tail into the next read, as the oldest client does | not executed | StreamDecoder.SplitFrameLosesDelta | StreamDecoder.CarriedFrameKeepsDelta |
| chatbot-api/src/chat/routes.py:60 | the chat router frames each chunk as raw text, while the typed client that calls `/chat/stream` (App.tsx:66) JSON-parses every payload and reads its `content` | the provider streams "Hello": the frame `data: Hello` fails to parse and yields no text | frame each chunk as a JSON object carrying `content`, as `fastapi_app.py` does | not executed | ChatLayer.RawStreamLosesReply | FastApiApp.StreamRoundTrip |
| chatbot-api/src/conversation/service.py:45 | `generate_name` calls the provider's `generate_response` without `await`, while the provider protocol and `OpenAIProvider` declare it `async def`; reading `content` off the coroutine raises | an `OpenAIProvider` with a reply: the naming route answers 500 | await the call, as the chat service does | not executed | ConversationService.UnawaitedProviderNeverNames | ConversationService.GenerateName |
| chatbot-api/src/fastapi_app.py:161 | a naming failure is told apart from a name only by the word "error" in the text that `generate_conversation_name` returns in place of a name | the naming call times out with "Request timed out." and the route answers 200 with that text as the name | report naming failures apart from names, so that every failure is a 500 | not executed | FastApiApp.TimeoutBecomesName | FastApiApp.GenerateNameReported |
