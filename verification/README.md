# Qiro 2.0 — a verified model of its deterministic core

Qiro is a search-augmented chat assistant. A FastAPI server runs an agent graph: a model node, a router and a tool node. It streams each answer to a React client as server-sent events and stores chat histories in MongoDB. A Telegram bot gives access to the same graph.

This project models, in Dafny, the parts of that system that the repository itself decides. Everything external becomes a parameter:

- the language model, the search engine and the graph's scheduling;
- MongoDB, replaced by an in-memory table;
- Telegram, reduced to the list of replies sent;
- React and `EventSource`, reduced to the events delivered;
- `uuid4` and the clock, replaced by fresh-id and timestamp arguments.

The modules follow the program's structure:

- `AgentGraph` (agent_graph.dfy): the router and the tool node of server/app.py.
  - The search tool is an oracle from a call's arguments to its printed result or its exception.
  - `RunToolNode` is the tool node's loop, proved against the function `ToolMessages`.
- `ChatStream` (chat_stream.dfy): `generate_chat_responses`.
  - It covers chunk serialisation, the `str.replace` escaping of content and queries, URL extraction and `json.dumps` of the URL list with `ensure_ascii`.
  - It also covers the framing of the whole stream.
  - The graph run is an oracle from (message, thread id) to the events it emits, followed either by completion or by an exception.
  - `GenerateChatResponses` is the generator as a loop. Its specification is `StreamSpec`.
- `ChatStore` (chat_store.dfy): the `/chats` endpoints.
  - They are a class `ChatTable` holding the collection as a sequence of documents.
  - Its methods are tied to pure functions that state the filter, the inserted document, the `$set` and the error responses.
- `TelegramBot` (telegram_bot.dfy): server/telegram_handler.py.
  - The class `Conversations` holds `user_conversations` as a map that `/start`, `/clear` and ordinary messages update.
  - Reply extraction and 4096-character splitting are loops proved against specification functions.
- `ClientApp` (client_app.dfy): the chat page of client/src/App.jsx.
  - The class `ChatView` holds the component's state. Its methods are the submit handler, the `onmessage`/`onerror` handlers, New Chat and the auto-save decision.
  - The per-event update of the last message (`ApplyEvent`) is a pure function. `Replay` folds it over a stream.
- `Common` (common.dfy): `Option`, `Result`, truthiness of an optional string, string concatenation and substring search.

In these places the code does something one might not expect; the model follows the code:

- a search exception inside the tool node is not turned into an error message; it aborts the node (server/app.py:81);
- a stream whose graph run raises, or that meets a chunk that is not an AI message chunk, stops without the `end` line (server/app.py:170-209);
- an update without `messages` or `checkpoint_id` sets them to null (server/app.py:270-271);
- a missing chat is answered with status 500 and the detail `404: Chat not found`, because the blanket `except` re-raises the 404 (server/app.py:240-244, 286-290, 302-306).

Notes on the escaping:

- The escaped content is placed between double quotes without escaping `"` or `\`. The frames are therefore only "JSON-ish": a content line carrying `\'` is not valid JSON.
- The model records the exact text between the quotes rather than parsing it back.
- `EscapeContentNotInjective` shows that two different fragments yield the same line.
- Carriage returns are not escaped by either replacement (`CarriageReturnPassesEscaping`), so the line-feed guarantees below say nothing about them.

## Model

| member | source | states |
|---|---|---|
| AgentGraph.ToolsRouter | server/app.py:56-62 | the route is the tool node exactly when the newest message is an assistant message with at least one tool call, END otherwise |
| AgentGraph.SearchCalls | server/app.py:73-79 | the calls acted on are exactly the calls naming `tavily_search_results_json`, and there are no more of them than calls |
| AgentGraph.ToolMessages | server/app.py:64-93 | on success the node adds exactly one message per search call; calls to other tools add nothing |
| AgentGraph.ToolMessagesPairing | server/app.py:64-93 | the node fails exactly when some search call's search raises; otherwise it yields one tool result per search call, in call order, each carrying that call's id, the tool name and the printed search output |
| AgentGraph.ToolMessagesKeepsFirstError | server/app.py:73-90 | once a search raises, the calls after it change nothing: the node's outcome is that exception |
| AgentGraph.RouterEndMeansNoToolResults | server/app.py:56-93 | when the router ends the turn, the tool node would add no tool results |
| AgentGraph.RunToolNode | server/app.py:64-93 | the loop over the newest message's tool calls computes `ToolMessages`; on success it yields as many results as search calls, result k answering search call k by id |
| ChatStream.SerialiseChunk | server/app.py:127-133 | an AI message chunk yields its content; any other chunk raises the type error naming its type |
| ChatStream.ReplaceChar | server/app.py:176 | `str.replace` of one character: with a replacement free of that character, none of it is left, and a non-empty replacement never shortens the text |
| ChatStream.EscapeContent | server/app.py:176 | escaped content holds no raw line feed and is never shorter than the fragment |
| ChatStream.EscapeQuery | server/app.py:189 | an escaped query holds no raw line feed and is never shorter than the query |
| ChatStream.EscapeContentAppend | server/app.py:176 | content escaping works character by character: escaping a concatenation escapes each part |
| ChatStream.EscapeQueryAppend | server/app.py:189 | query escaping works character by character: escaping a concatenation escapes each part |
| ChatStream.EscapedContentShape | server/app.py:176 | escaped content holds no raw newline, and every `'` in it follows a backslash |
| ChatStream.EscapedQueryShape | server/app.py:189 | an escaped query holds no raw newline, and every `'` and every `"` in it follows a backslash |
| ChatStream.ContentEscapingLeavesOthers | server/app.py:176 | content without `'` or newlines is sent unchanged, so `"` and `\` pass through raw |
| ChatStream.DoubleQuoteEscapedOnlyInQueries | server/app.py:176-189 | for any text around it, a double quote stays raw in content but becomes `\"` in a query, and the text around it is escaped as usual |
| ChatStream.CarriageReturnPassesEscaping | server/app.py:176-189 | for any text around it, a carriage return passes both escapings raw |
| ChatStream.EscapeContentNotInjective | server/app.py:176 | a real newline and the two characters `\n` escape to the same text |
| ChatStream.UnescapeEscapeContent | server/app.py:176 | on text without backslashes, reading `\'` and `\n` back recovers the original content |
| ChatStream.JsonDumps | server/app.py:205 | the dump is a bracketed list, and `[]` for no URLs |
| ChatStream.JsonDumpsPrintable | server/app.py:205-206 | `json.dumps` of the URL list (ASCII-only, surrogate pairs for astral characters) is printable ASCII and holds no newline |
| ChatStream.Urls | server/app.py:199-202 | there are never more URLs than result items |
| ChatStream.UrlsWithoutDicts | server/app.py:199-202 | a result list without dictionaries yields no URLs |
| ChatStream.UrlsMembership | server/app.py:197-202 | the extracted URLs are exactly the `url` values of the dictionary items that have one |
| ChatStream.UrlsAppend | server/app.py:200-202 | URL extraction keeps the items' order: the URLs of a concatenation are the concatenation of the URLs |
| ChatStream.ExtractUrls | server/app.py:199-202 | the loop appends, in order, the `url` of each dictionary item that has one and skips every other item |
| ChatStream.Payload | server/app.py:156-209 | every payload is a brace-delimited object |
| ChatStream.Render | server/app.py:156-209 | every yielded text is exactly `data: `, the frame's payload and a blank line |
| ChatStream.RenderLineFeeds | server/app.py:156-209 | a frame without line feeds in its text fields has a payload without line feeds, so its only line feeds are the closing pair |
| ChatStream.QueryOf | server/app.py:187 | the query is the `query` argument when present and "" otherwise |
| ChatStream.FramesFor | server/app.py:170-206 | per event: a model chunk yields one content frame with the escaped content, or raises; a model end yields `search_start` with the escaped `query` of the first search call (default "") exactly when there is a search call; a search tool end yields `search_results` with the URLs exactly when the output is a list; anything else yields nothing |
| ChatStream.EventFrames | server/app.py:170-206 | the frames of the event loop have no line feed in their text fields and are never checkpoint or end frames |
| ChatStream.EventFramesPrefix | server/app.py:170-206 | the stream is append-only, and after an exception nothing more is yielded |
| ChatStream.ThreadIdFor | server/app.py:136-168 | the thread is the fresh id for a new conversation and the given checkpoint id otherwise |
| ChatStream.StreamSpec | server/app.py:135-209 | a checkpoint frame appears exactly when no checkpoint id was given, and then first with the thread id; the end frame appears exactly when the run and every event complete, once and last |
| ChatStream.CheckpointFraming | server/app.py:136-156 | the checkpoint frame leads the stream exactly for a new conversation |
| ChatStream.EndFraming | server/app.py:208-209 | the end frame comes only after every other frame and only on completion |
| ChatStream.StreamPayloadsHaveNoLineFeed | server/app.py:156-209 | when the thread id is sent (a new conversation) and has no line feed, no yielded payload contains a line feed |
| ChatStream.YieldFor | server/app.py:170-206 | the body of the event loop yields what `FramesFor` states for the event |
| ChatStream.StreamEvents | server/app.py:170-206 | the event loop yields the frames of each event in turn and stops at the first exception |
| ChatStream.GenerateChatResponses | server/app.py:135-209 | the thread id is the given checkpoint id or the fresh one; the yielded frames and the final exception are those of `StreamSpec`, with the checkpoint and end framing above |
| ChatStore.GetOr | server/app.py:253-256 | `chat_data.get(key, default)`: the default for a missing key, the sent value (possibly null) otherwise |
| ChatStore.Matches | server/app.py:224-239 | the empty filter matches every chat; a matching chat has the filter's id and user id wherever the filter sets them |
| ChatStore.OwnerFilter | server/app.py:234-237 | the filter is on the chat id, plus `user_id` exactly when the given user id is truthy |
| ChatStore.ListFilter | server/app.py:224 | the listing filter is on `user_id` exactly when it is truthy, otherwise it is empty |
| ChatStore.FirstMatch | server/app.py:239 | the document acted on is the first that matches, and none matches when no index is returned |
| ChatStore.MatchingChats | server/app.py:225 | the listed documents are exactly the matching ones |
| ChatStore.ListChats | server/app.py:219-228 | the listing is a prefix of the matching documents of length min(matches, 50) |
| ChatStore.FindChat | server/app.py:230-244 | a chat is found exactly when some document matches the owner filter; the result has the requested id and owner; otherwise the error is 500 "404: Chat not found" |
| ChatStore.NewChat | server/app.py:249-259 | the inserted document has the fresh id, the given `user_id` and `checkpoint_id`, and `title` and `messages` defaulting to "New Chat" and [] only when the key is missing |
| ChatStore.UpdateFor | server/app.py:269-275 | the `$set` carries the sent messages and checkpoint id, null for a key not sent, the title field as sent, and the current time |
| ChatStore.ApplyUpdate | server/app.py:269-285 | `$set` overwrites `messages`, `checkpoint_id` and `updated_at`, overwrites `title` only when it was sent, and keeps id, owner and creation time |
| ChatStore.UpdateChats | server/app.py:265-290 | an update fails with 500 "404: Chat not found" and leaves the table alone exactly when nothing matches; otherwise exactly one matching document is updated and no other changes |
| ChatStore.DeleteChats | server/app.py:292-306 | a delete fails with the re-wrapped 404 and leaves the table alone exactly when nothing matches; otherwise exactly one matching document is removed |
| ChatStore.CreateThenFind | server/app.py:230-263 | a created chat is found again by its id, by its owner or without an owner, exactly as inserted |
| ChatStore.TitleOnlyUpdateClearsMessages | server/app.py:269-275 | an update sending only a title nulls `messages` and `checkpoint_id`; one without a title keeps the old title |
| ChatStore.OwnerScoping | server/app.py:224-239 | with a truthy user id, another user's chat is never listed or fetched |
| ChatStore.ChatTable.GetChats | server/app.py:219-228 | the listing is `ListChats` of the table, so every listed chat belongs to a truthy requesting user |
| ChatStore.ChatTable.GetChat | server/app.py:230-244 | the fetch builds the owner filter and returns `FindChat` of the table |
| ChatStore.ChatTable.CreateChat | server/app.py:246-263 | the table gains exactly the new document, and the response carries the fresh id |
| ChatStore.ChatTable.UpdateChat | server/app.py:265-290 | response and new table are those of `UpdateChats` |
| ChatStore.ChatTable.DeleteChat | server/app.py:292-306 | response and new table are those of `DeleteChats` |
| TelegramBot.ErrorText | server/telegram_handler.py:134-136 | the error reply quotes the exception text and always mentions `/clear` |
| TelegramBot.LastAIIndex | server/telegram_handler.py:101-105 | the position found holds an AI message with content, and no later message is one |
| TelegramBot.LastAIIndexIs | server/telegram_handler.py:101-105 | an AI message with content that no later one follows is the one found |
| TelegramBot.ReplyOf | server/telegram_handler.py:97-113 | the reply is empty for no messages; it is the last AI reply's content when that is non-empty, and otherwise the last message's content, or its printed form when it has none |
| TelegramBot.ExtractReply | server/telegram_handler.py:97-113 | the reply is the content of the last AI message with content; if that is missing or empty, it is the last message's content or printed form; it is empty for no messages |
| TelegramBot.SplitReply | server/telegram_handler.py:115-122 | the slices concatenate to the reply; each holds at most 4096 characters and all but the last exactly 4096; there are ceil(n/4096) of them for a reply over 4096 characters and exactly one otherwise |
| TelegramBot.ChunkCount | server/telegram_handler.py:115-122 | a reply of at most 4096 characters is one message; a longer one of n characters takes the least k with n <= 4096·k |
| TelegramBot.Conversations.constructor | server/telegram_handler.py:17 | the table starts empty |
| TelegramBot.Conversations.Start | server/telegram_handler.py:19-39 | `/start` adds a fresh entry with an empty history only for an absent user and leaves an existing entry unchanged |
| TelegramBot.Conversations.Clear | server/telegram_handler.py:52-62 | `/clear` replaces an existing entry with a fresh checkpoint and an empty history; an absent user stays absent |
| TelegramBot.Conversations.HandleMessage | server/telegram_handler.py:64-137 | an entry exists afterwards and its checkpoint is the thread id used; other users are untouched; on an exception one error reply is sent and the history is unchanged; otherwise the replies are the split answer (at most 4096 characters each, all but the last exactly 4096) and the history grows by the user turn then the assistant turn |
| ClientApp.Placeholder | client/src/App.jsx:62-71 | the placeholder is an AI message with empty content, no sources and every step idle |
| ClientApp.Trim | client/src/App.jsx:53 | `input.trim()` is never longer than the input, and is empty exactly when every character is JavaScript white space |
| ClientApp.ApplyEvent | client/src/App.jsx:84-131 | the event changes a message only if it is an AI message: `search_start` activates searching with the query; `search_results` completes searching, activates reading with the URLs and sets the sources; `content` completes whichever step was active, activates writing and sets the content to the accumulated text; `end` completes writing; `checkpoint` changes nothing |
| ClientApp.UpdateLast | client/src/App.jsx:87-131 | an event changes only the last message, as `ApplyEvent` states, and keeps the list length |
| ClientApp.ContentOf | client/src/App.jsx:77-122 | a stream without content events accumulates no content |
| ClientApp.ContentOfHoldsFragments | client/src/App.jsx:77-122 | every content fragment received occurs in the accumulated content |
| ClientApp.Replay | client/src/App.jsx:77-122 | after any events, the accumulated text is the starting text followed by every content fragment; an AI message stays an AI message and any other message is untouched |
| ClientApp.ReplayContent | client/src/App.jsx:77-122 | over any stream, the shown answer is the concatenation of every content fragment received so far |
| ClientApp.ContentSettlesSearch | client/src/App.jsx:106-122 | once content has arrived with no later search event, neither searching nor reading is active and writing is |
| ClientApp.StreamEndsSettled | client/src/App.jsx:106-131 | a stream that ends after content with no later search leaves no step active and writing completed |
| ClientApp.FirstUserIndex | client/src/App.jsx:180 | the index found is of the first user message, and none exists when no index is returned |
| ClientApp.ChatTitle | client/src/App.jsx:180-181 | the title is the first min(50, length) characters of the first user message, or "New Chat" when there is none |
| ClientApp.SavePlan | client/src/App.jsx:174-209 | nothing is saved without a signed-in user; with a truthy chat id the chat is updated (PUT), otherwise created (POST), with the title, messages and checkpoint id as body |
| ClientApp.ChatView.constructor | client/src/App.jsx:17-22 | the page starts with no messages, empty input, not loading, and no checkpoint or chat id |
| ClientApp.ChatView.HandleSubmit | client/src/App.jsx:51-77 | blank input or a running request changes nothing and opens no stream; otherwise the input is cleared, the user message and the idle AI placeholder are appended in that order, loading starts, and the stream is opened for the untrimmed text with the checkpoint id only when it is truthy |
| ClientApp.ChatView.OnMessage | client/src/App.jsx:80-138 | the accumulated content grows by content fragments, the messages are `UpdateLast` of the event, `checkpoint` sets the checkpoint id and leaves the messages alone, and `end` closes the stream and stops loading |
| ClientApp.ChatView.OnError | client/src/App.jsx:140-144 | an error closes the stream and stops loading, and touches nothing else |
| ClientApp.ChatView.HandleNewChat | client/src/App.jsx:152-157 | New Chat empties the messages and clears the checkpoint id, the chat id and the input |
| ClientApp.ChatView.AutoSave | client/src/App.jsx:216-220 | a save happens only with messages present and nothing loading, and then it is `SavePlan` of the current state |
| ClientApp.ChatView.OnChatCreated | client/src/App.jsx:204-208 | after a successful POST the current chat id is the created one, so later saves update it |

## Left out

- The language model, the search API and graph compilation and scheduling (server/app.py:32-48, 102-113) are not modelled. This includes `system_node`, the `model`→`system_node` edge and `MemorySaver`. The model output, the search results and the graph's event run are inputs.
- MongoDB's connection and failures other than "not found" are not modelled. The collection is an in-memory sequence.
- ChatStore.ListChats: the database's descending sort on `created_at` is not modelled. With more than fifty matches the model lists the fifty earliest rows in table order, whereas the server lists the fifty newest.
- Non-string search-call arguments and `url` fields are not modelled: they are always strings here. In the code a null `query` makes `.replace` raise (server/app.py:189), so the stream stops without the `end` line, and a null `url` is appended and dumped as `null` (server/app.py:201-205).
- Request-body values are strings or null in the model, and each display message is kept as opaque JSON text.
- The error reply in TelegramBot.ErrorText omits its leading emoji. The welcome, help and cleared texts are not modelled; `/help` sends a fixed text and changes no state.
- Telegram transport failures are not modelled. For example, Telegram rejects an empty reply, which would raise inside the `try` and turn the turn into an error reply. The model sends the empty text and records the turn. The typing indicator and the log line are left out as well.
- Concurrency is not modelled. Handlers run to completion one at a time, so the model does not capture a `/clear` that interleaves with a running turn, where the history would be appended to the replaced entry.
- ClientApp.ChatView.OnMessage: React's in-place mutation of shared message objects and the deferred state updates are not modelled. Messages are values, and each event is applied to the list at once. An event arriving when the list is empty (after New Chat) leaves it unchanged, whereas the code would fail on the missing last message.
- Malformed stream data is not modelled. A `JSON.parse` failure only logs and changes nothing, and an unknown event type changes nothing.
- Loading a saved chat (`handleSelectChat`), the fetch calls themselves and all rendering are not modelled.
- ClientApp.ChatTitle and ClientApp.Trim work on Unicode code points, not UTF-16 code units. They differ from `substring` and `trim` only for characters outside the Basic Multilingual Plane.
- ChatStream.RenderLineFeeds: only line feeds are excluded. A carriage return in content or in a query passes both escapings raw (ChatStream.CarriageReturnPassesEscaping). A server-sent-event parser treats it as a line end, so such a frame can still be split into two lines.
- URL encoding of the stream request and the shape of the request URL are not modelled.
