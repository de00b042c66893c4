# Contact-centre assistant core, modelled in Dafny

This project models the sequential core of a contact-centre assistant. A FastAPI
backend places outbound phone calls, relays the call audio and its transcription
to agent browsers, and asks a chat model for recommendations. The chat model may
call customer-service tools. A React panel starts calls and formats what it shows.

The model covers these parts:

- **Chat** (`backend/oai.py`): the streaming tool-call processor
  `process_response_stream`. The model's successive response streams are a
  finite list, so the list's length bounds the recursion.
- **Chat prelude** (`backend/oai.py`): the history rewrite at the start of
  `generate_response`.
- **Tokenizer** (`backend/oai.py`): the `reply_to_customer` tokenizer, the
  pattern `\s+|\w+|[^\w\s]`.
- **Tools** (`backend/tools.py`): the `tools_mapping` registry.
  - Handlers are called as `handler(**kwargs)`, so Python's keyword binding is
    modelled: an undeclared or missing keyword raises `TypeError`.
  - The template and lookup handlers are modelled in full.
  - The spreadsheet and random handlers read their data from a
    `Backends` record given as a parameter.
- **Session** (`backend/app.py`): the `ConnectionManager`, the per-call
  transcription results, the effective `on_recognized`, `broadcast`, and the
  `process_message_queue` drain. Whether each send succeeds is given as a list
  of booleans.
- **Endpoints** (`backend/app.py`):
  - the webhook `callbacks`;
  - `outbound_call_handler`, with `urljoin`, `urlencode` and `create_call` as
    parameters;
  - the agent-socket command loop;
  - `get_recommendation`.
- **AudioSocket** (`backend/app.py`): the audio-socket frame dispatcher. Its
  state is the sample rate, unbound until metadata arrives. Its output is a list
  of broadcasts and recognizer-stream writes.
- **Base64**: base 64 as in section 4 of RFC 4648, with a round-trip lemma.
- **CallPanel** (`frontend/src/components/CallPanel.js`): `formatDuration`,
  `formatPhoneNumber`, `getCallStatusText` and the `handleStartCall` guard.
- **Wrappers, Json, Text**: support modules.
  - Wrappers holds `Option` and `Result`.
  - Json holds a JSON value with Python truthiness, `str()` and whether it can be a dict key.
  - Text holds string helpers and decimal rendering.

JSON parsing is a partial function given as a parameter. So are the model
provider's streams, hang-up and call creation. Every exception that ends a
generator or a handler is an explicit outcome.

### Behaviour of the code worth knowing

- **AudioData before any AudioMetadata.** `sample_rate` is a local of the
  audio-socket handler that is still unbound until an AudioMetadata message
  arrives, so building the broadcast raises and the loop ends before anything
  is sent; no default sample rate is used.
- **Order of broadcast and decode.** The audio handler broadcasts the base64
  text first and only then decodes it. Text that does not decode is therefore
  broadcast once before the loop ends.
- **Unknown tool name.** The chat client looks the tool name up in
  `available_functions` before the reply is yielded or anything is recorded,
  so an unknown name leaves no trace in the history.
- **A tool call carrying `reply_to_customer`.** Every parsed argument is passed
  to the handler, and no handler accepts that keyword, so the call raises
  `TypeError`; `get_recommendation` then answers 500. See Findings.
- **Disconnecting.** `disconnect` is idempotent, but neither socket endpoint
  calls it: the call at `app.py:513` is commented out. A closed agent stays in
  `active_connections`.
- **Shadowed `on_recognized`.** The effective `on_recognized` is the
  three-argument definition at `app.py:248`. It shadows the one at `app.py:227`.

## Model

| member | source | states |
|---|---|---|
| Chat.Absorb | backend/oai.py:68-92 | One part appends its non-empty content to the collected text and its argument fragment to the argument string. The collecting flag becomes set by a non-empty fragment and then stays set. It replaces name and id only when the part names a function. |
| Chat.ScanFrom | backend/oai.py:68-162 | A turn reads parts until one ends it; the count read never exceeds the stream. A turn ends on the first part whose finish applies to the state reached. It is exhausted only when every part was read and the last did not end it. |
| Chat.ScanCollectsText | backend/oai.py:68-77 | Parts without choices contribute nothing. Every non-empty content delta of the parts read is collected, in stream order. |
| Chat.ScanCollectsArguments | backend/oai.py:89-92 | The argument string is the in-order concatenation of every fragment of the parts read. |
| Chat.ScanSetsCollecting | backend/oai.py:89-92 | The collecting flag is set exactly when some fragment read was non-empty. |
| Chat.ScanNamesLatest | backend/oai.py:84-87 | Name and id are those of the latest part read that carried a non-empty function name, or the initial ones when none did. |
| Chat.ScanIgnoresRest | backend/oai.py:95-162 | Once a part ends the turn, parts appended after the stream change nothing. |
| Chat.ToolFinishNeedsFragments | backend/oai.py:95 | A tool_calls finish ends the turn only after a non-empty argument fragment. |
| Chat.CompleteToolCall | backend/oai.py:97-136 | The messages a finished tool call records are only assistant and tool messages. |
| Chat.EndTurn | backend/oai.py:156-162 | A turn without a tool call yields exactly its text. It extends the history only by assistant messages. |
| Chat.Process | backend/oai.py:57-162 | The processor only appends to the history. Its output begins with the first stream's text. |
| Chat.ProcessAppendsOnlyAssistantAndTool | backend/oai.py:109-161 | Across all recursive streams, everything appended to the history is an assistant or tool message. |
| Chat.StopRecordsText | backend/oai.py:156-162 | On stop, the yielded tokens are the stream's non-empty contents and the run completes. One assistant message with the joined text is appended exactly when that text has a non-whitespace character; otherwise the history is unchanged. |
| Chat.UnfinishedStreamKeepsHistory | backend/oai.py:68-95 | A stream with no applicable finish yields all its text and leaves the history unchanged. It completes exactly when iterating the stream did not raise. |
| Chat.RejectedToolCallHasNoEffect | backend/oai.py:98-99 | Unparseable arguments, or a name not in the registry, abort the turn. Only the turn's earlier text is yielded, nothing is recorded, and the outcome names the reason. The run is the same whatever the registered tools do. |
| Chat.CompleteToolCallSucceeds | backend/oai.py:109-136 | A successful call records exactly two messages, in order: the assistant message (reply, id, name, raw argument string), then the tool message (same id and name, the result). The reply tokens are what is yielded. |
| Chat.CompletedToolCallRecorded | backend/oai.py:100-153 | After a successful tool call, the output is the turn's text, then the reply tokens, then the next stream's output. The tool gets the parsed arguments with out_queue set. The next stream starts from the history extended by the two messages. |
| Chat.ToolRaisedAborts | backend/oai.py:124-127 | A tool that raises ends the run. The reply was already yielded and the assistant message recorded; no tool message is recorded and no further stream is read. |
| Chat.ReplyAbortsAsWritten | backend/oai.py:125-127 | With the registry as written, any registered tool called with a string reply_to_customer aborts the run with TypeError, after the reply was yielded and the call recorded. |
| Chat.ProcessIgnoresRestOfStream | backend/oai.py:148-153 | After a part ends the turn, the rest of that stream, and whether it would raise, never affect the run. |
| Chat.Prelude | backend/oai.py:167-184 | The result starts with the system prompt and ends with the new user turn, which carries an image part when a frame is given. An empty history gives [system, user]. A non-empty history keeps every entry after its head, and the user text appears twice at the end. |
| Chat.GenerateResponse | backend/oai.py:165-196 | The history after a response starts with the prelude's result. |
| Tokenizer.Tokenize | backend/oai.py:104 | The tokens concatenate back to the reply. Each is a non-empty run of one class, with punctuation tokens single characters. No two neighbours could have been one longer match. |
| Tokenizer.TokenizeUnique | backend/oai.py:104 | Any split into tokens that concatenates back to the text, with no mergeable neighbours, is exactly the tokenizer's output. |
| Tools.Invoke | backend/oai.py:127 | A missing parameter, or a keyword the handler does not declare, raises TypeError whatever the handler. Once the arguments bind, every handler succeeds except the account update, the product lookup and the customer lookup. The product lookup succeeds exactly when its id can be a dict key. Only the account update can raise AttributeError. |
| Tools.WithoutReply | backend/oai.py:100-127 | The corrected keyword set lacks reply_to_customer and keeps every other argument unchanged. |
| Tools.RegistryNames | backend/tools.py:105-115 | The registry binds exactly the ten names of tools_mapping, among them the three advertised to the model. |
| Tools.RegistryAsWritten | backend/tools.py:105-115 | tools_mapping binds the names of the ten mapped handlers, and each raises TypeError whenever the arguments carry reply_to_customer. |
| Tools.Registry | backend/tools.py:105-115 | The corrected registry binds the same names, and each tool behaves as the one written, run on the arguments without reply_to_customer. |
| Tools.ExactKeywordsBind | backend/tools.py:33-103 | Passing exactly the declared parameters of a handler binds. |
| Tools.RaiseTicketReply | backend/tools.py:33-34 | The ticket reply is the fixed sentence around customer_id and issue, and out_queue does not affect it. |
| Tools.CancelOrderDependsOnPhoneAndReason | backend/tools.py:45-50 | The cancellation reply succeeds and depends only on phone_number and reason: not on out_queue, the random amount or the date. |
| Tools.TemplateHandlersDependOnTheirArguments | backend/tools.py:52-67 | Callback scheduling and returns succeed, and ignore out_queue and the backends. |
| Tools.UpdateAccountInfoCapitalises | backend/tools.py:78-79 | The field is embedded with its first character upper-cased and the rest lower-cased, followed by the value verbatim. |
| Tools.UpdateAccountInfoNeedsStringField | backend/tools.py:78-79 | A field that is not a string raises AttributeError. |
| Tools.ProductInfoLookup | backend/tools.py:69-76 | A list or object product id raises TypeError, and only such an id does. Otherwise the reply succeeds, after the customer prefix, and is the JSON string "Product not found" exactly when the id is not P001, P002 or P003. |
| Tools.CustomerInfoKnown | backend/tools.py:81-95 | C001 to C003 are reported as JSON with customer_id, membership_level and account_status, in that order. |
| Tools.CustomerInfoUnknown | backend/tools.py:81-97 | A list or object id raises TypeError whatever the queue. An unknown hashable id with out_queue None gives the not-found sentence. With a truthy out_queue it raises, because the queue becomes the lookup default and is subscripted. |
| Tools.ShipmentStatusIsListed | backend/tools.py:100-103 | The shipment reply always names one of the four listed statuses. |
| Tools.MappedHandlersTakeNoExtraKeywords | backend/tools.py:33-103 | No mapped handler declares reply_to_customer or accepts extra keywords. |
| Tools.ReplyBreaksRegistryAsWritten | backend/tools.py:105-115 | As written, every registered tool called with a reply_to_customer keyword raises TypeError. |
| Tools.RegistryIgnoresReply | backend/oai.py:125-127 | The corrected registry runs the handler on the arguments without the reply. Changing the reply never changes the result. |
| Tools.OrderLookupReply | backend/tools.py:55-63 | The order lookup answers with the sheet rows for the phone number, or the not-found sentence. out_queue may be omitted. |
| Tools.OrderLookupName | backend/tools.py:105 | get_all_order_for_customer is served by the order-status handler. |
| Tools.OrderLookupDropsReply | backend/tools.py:55-63 | Once the reply is taken out, an order lookup with phone, reply and queue binds and answers from the sheet. |
| Tools.OrderLookupWithReply | backend/tools.py:55-63 | Through the corrected registry, the order lookup with a reply answers from the sheet. |
| Tools.OrderLookupCounterexample | backend/oai.py:125-127 | Concrete case: phone 9999999999 with the reply "Let me check that." raises TypeError as written and succeeds when corrected. |
| Session.Connect | backend/app.py:87-91 | The id becomes active and keeps the order of the others. Only a non-audio id gets a fresh empty transcript; every other transcript and the recognizer sets are unchanged. |
| Session.Disconnect | backend/app.py:93-104 | The id loses its connection and transcript and nothing else does. The recognizer is stopped exactly for an audio id whose call holds one; only then are that call's recognizer and stream dropped. |
| Session.DisconnectTwice | backend/app.py:93-104 | Disconnecting again changes nothing and stops nothing. |
| Session.ConnectionsForBroadcast | backend/app.py:144-146 | The targets are exactly the active ids that are not audio sockets. |
| Session.ConnectedAgentHasEmptyTranscript | backend/app.py:87-146 | A freshly connected agent has an empty transcript and is a broadcast target. |
| Session.AudioSocketNotTargeted | backend/app.py:87-146 | An audio socket is active but never a transcription target. |
| Session.AddTranscription | backend/app.py:121-139 | One entry is appended to the call's results, creating the list if absent, and to every tracked non-audio transcript. Every other call, audio transcript, connection, queue and call id is unchanged. |
| Session.AgentSeesNewLine | backend/app.py:121-142 | A tracked agent's transcript grows by exactly the new line. An untracked client still sees none. |
| Session.OnRecognized | backend/app.py:248-263 | Empty text changes nothing. Otherwise the call's results and every tracked non-audio client's transcript grow by the line with its speaker and time. Audio transcripts, other calls' results, the connections and the current call id are unchanged. Exactly one transcription message is queued, targeting the non-audio sockets active at that moment. |
| Session.RecognizedLineReachesAgent | backend/app.py:248-263 | For a connected agent, the transcript get_transcriptions reports ends with the recognized line, and the one message queued for the line targets that agent. |
| Session.Deliver | backend/app.py:575-579 | Each delivery carries the message to one of the targets. |
| Session.DeliverReaches | backend/app.py:575-579 | A target receives the message exactly when one of its send attempts succeeded. Failures are isolated. |
| Session.Broadcast | backend/app.py:106-115 | A broadcast reaches only active sockets, with the given message. |
| Session.BroadcastReachesEverySocket | backend/app.py:106-115 | Every active socket whose send succeeds, audio sockets included, gets the broadcast, and no other socket does. |
| Session.DrainAppend | backend/app.py:571-583 | Draining two queues in turn is draining their concatenation, so messages leave in FIFO order. |
| Session.ProcessMessageQueue | backend/app.py:571-583 | The loop sends exactly the FIFO drain: each message in queue order to its targets, where a failed send does not stop the others. |
| Endpoints.NoticeOf | backend/app.py:301-347 | CallConnected and CallDisconnected broadcast callStatus "connected" and "disconnected". MediaStreamingStarted and MediaStreamingStopped broadcast mediaStatus "started" and "stopped". A streaming failure broadcasts the error text. Each carries the event's connection id. A missing contentType or error message is a failure. Any other type is silent. |
| Endpoints.Webhook | backend/app.py:293-349 | The answer is 200 or 500. A successful batch leaves the last event's connection id as the current one. |
| Endpoints.WebhookAnnounces | backend/app.py:295-349 | The handler answers 200 exactly when no event misses a field, and then broadcasts one status per known event, in order. |
| Endpoints.WebhookStep | backend/app.py:295-298 | Each event overwrites the connection id before its type is read, and contributes its status ahead of the rest. |
| Endpoints.WebhookSplits | backend/app.py:295-349 | Handling a batch is handling its first part, then the rest, starting from the connection id the first part left. |
| Endpoints.Outbound | backend/app.py:381-456 | With no call placed, nothing changes and nothing is broadcast. The answer is 202 exactly when a call was requested and succeeded. |
| Endpoints.OutboundValidation | backend/app.py:384-392 | A missing phone number gives 400 "Phone number is required", checked before the bot id. A missing bot id gives 400 "Bot ID is required". Neither places a call or broadcasts. |
| Endpoints.OutboundPlacesCall | backend/app.py:384-427 | A valid request places one call to the given number. The source is the given one, or +18772246445 when the key is absent. The media URL is under WEBSOCKET_URL and the webhook URL is built from the callback base, guid and caller id. |
| Endpoints.OutboundOutcome | backend/app.py:421-456 | A successful call becomes current, is announced once with its number and source, and gets a 202 answer. A failing one answers 500 with the error text and changes nothing. |
| Endpoints.Command | backend/app.py:467-506 | A command that does not raise never touches the manager, the queue or the current call, and sends at most one reply or broadcast. |
| Endpoints.GetTranscriptionAnswers | backend/app.py:467-481 | getTranscription raises exactly when callId is a truthy list or object. Otherwise it returns the named call's lines when the call is known, and the requesting client's own transcript when it is not. It changes nothing. |
| Endpoints.ClearTranscriptionOnlyKnown | backend/app.py:483-490 | clearTranscription raises exactly when callId is a truthy list or object. Otherwise it empties only a known call's lines and acknowledges it; an unknown call changes nothing and gets no reply. |
| Endpoints.Serve | backend/app.py:463-512 | A session ended by the peer closing ends with a clientDisconnected broadcast. |
| Endpoints.ServeKeepsManager | backend/app.py:463-513 | The command loop never changes the connection manager. |
| Endpoints.ClosedAgentStaysConnected | backend/app.py:460-513 | An agent whose socket closed is still active and still has a transcript. |
| Endpoints.Lines | backend/app.py:358 | Each conversation line becomes "speaker: text", in order. |
| Endpoints.GetRecommendation | backend/app.py:353-377 | The chat client runs tools_mapping as written. No conversation gives 200 with the no-context sentence and an untouched history. Otherwise the answer is 200 or 500. |
| Endpoints.RecommendationUsesConversation | backend/app.py:353-377 | With a conversation and the registry as written, the answer is 200 with all tokens joined exactly when the generation completed. The history starts with the prelude for the prompt. |
| Endpoints.RecommendationFailsOnReply | backend/app.py:367-375 | A first stream that ends in a call of a registered tool with a string reply_to_customer makes the recommendation answer 500 "Failed to generate recommendation.". |
| Endpoints.PromptOfOneLine | backend/app.py:358-366 | One line gives the fixed head, the line and the fixed tail. |
| Endpoints.JoinWithAppend | backend/app.py:358 | Joining with one more line appends the separator and the line. |
| Endpoints.LinesAppend | backend/app.py:358 | A further conversation entry adds one line at the end. |
| Endpoints.PromptGrows | backend/app.py:358-366 | A further entry appears, after a newline, just before the prompt's tail. |
| AudioSocket.StepOf | backend/app.py:527-561 | A frame changes the sample rate only when it is text, and has at most two effects. |
| AudioSocket.Dispatch | backend/app.py:523-561 | The loop reads at most the frames given, all of them while nothing stops it. A frame that stops it is the last one read. |
| AudioSocket.StoppedIgnoresLaterFrames | backend/app.py:554-561 | Once the loop has stopped, later frames are never read. |
| AudioSocket.NonJsonSkipped | backend/app.py:542-543 | Non-JSON text is dropped without effect and the loop goes on. |
| AudioSocket.DataBeforeMetadataFails | backend/app.py:533-539 | Audio data before any metadata ends the loop with nothing broadcast. |
| AudioSocket.MetadataThenData | backend/app.py:530-541 | After metadata, customer audio is broadcast verbatim with the announced rate. Its decoding, the original bytes, is then written to the customer stream. |
| AudioSocket.UndecodableDataBroadcastThenFails | backend/app.py:534-540 | Text that is not base64 is broadcast once, and then the loop stops without writing. |
| AudioSocket.AgentChunkRelayed | backend/app.py:544-553 | An agent chunk is written to the agent stream, then broadcast as exactly its base64 encoding, which decodes to the same bytes. |
| AudioSocket.StepAnnounces | backend/app.py:527-561 | Within one frame, a customer write immediately follows the broadcast of its own base64 text. |
| AudioSocket.DispatchAnnouncesCustomerWrites | backend/app.py:527-561 | Over the whole loop, every customer write immediately follows the broadcast of a base64 text that decodes to exactly the bytes written. |
| Base64.Encode | backend/app.py:550 | The encoding has four characters per started group of three bytes, all from the alphabet or padding. |
| Base64.Decode | backend/app.py:540 | Decoding succeeds only on text whose length is a multiple of four. It gives three bytes per four characters, less at most two for padding. |
| Base64.DecodeEncode | backend/app.py:540-550 | Decoding what was encoded gives back the original bytes. |
| CallPanel.PadStart2 | frontend/src/components/CallPanel.js:26 | Padding keeps strings of two or more characters and pads shorter ones to two. The original is always the suffix. |
| CallPanel.Rem60 | frontend/src/components/CallPanel.js:25 | The remainder takes the sign of the dividend, with magnitude below 60, and differs from it by a multiple of 60. |
| CallPanel.FormatDuration | frontend/src/components/CallPanel.js:22-27 | A missing or zero duration shows 00:00. |
| CallPanel.DurationShortcutAgrees | frontend/src/components/CallPanel.js:23-26 | The general formula also gives 00:00 at zero. |
| CallPanel.DurationFormula | frontend/src/components/CallPanel.js:24-26 | For whole seconds s >= 0, the clock is the padded s div 60, a colon and the padded s mod 60. |
| CallPanel.PaddedValue | frontend/src/components/CallPanel.js:26 | A padded rendering of n is all digits, at least two long, exactly two below 100, and denotes n. |
| CallPanel.ClockReadsBack | frontend/src/components/CallPanel.js:26 | The clock text for m minutes and sec < 60 seconds reads back as those two numbers. |
| CallPanel.DurationFields | frontend/src/components/CallPanel.js:24-26 | The seconds field is two digits worth s mod 60, so 00 to 59. The minutes field has at least two digits and is worth s div 60 in full, never truncated. Together they give back s. |
| CallPanel.Digits | frontend/src/components/CallPanel.js:31 | Removing non-digits leaves only digits and never lengthens the text. |
| CallPanel.FormatPhoneNumber | frontend/src/components/CallPanel.js:29-33 | A falsy input gives ''. Fewer than 11 digits gives the digits alone, in order. Otherwise the result starts with + and is six characters longer than the digits. |
| CallPanel.LayoutPositions | frontend/src/components/CallPanel.js:32 | The long layout places +, the first digit, the three digit groups and the separators at fixed positions, followed by the remaining digits. |
| CallPanel.PhoneLayout | frontend/src/components/CallPanel.js:31-32 | With 11 or more digits, the result is "+d (ddd) ddd-dddd" followed by the remaining digits. |
| CallPanel.LayoutDigits | frontend/src/components/CallPanel.js:32 | Deleting the inserted characters from the long layout gives back the digit string. |
| CallPanel.PhoneKeepsDigits | frontend/src/components/CallPanel.js:31-32 | The digits of the formatted number are exactly the digits of the input. |
| CallPanel.PhoneFormatIdempotent | frontend/src/components/CallPanel.js:29-33 | Formatting an already formatted number changes nothing. |
| CallPanel.CallStatusText | frontend/src/components/CallPanel.js:35-48 | Exactly the statuses outside idle, initiating, connected and disconnected read "Unknown status". |
| CallPanel.StatusTextsDistinct | frontend/src/components/CallPanel.js:35-48 | Different known statuses never share a caption. |
| CallPanel.StartedCallPassesValidation | frontend/src/components/CallPanel.js:8-16 | The backend refuses the body {phoneNumber, botId} with 400 exactly when the panel would alert instead of starting the call. |
| Text.NatToString | frontend/src/components/CallPanel.js:26 | The decimal rendering is non-empty and all digits. It has a leading zero only for 0 and is one character long exactly below 10. |
| Text.NatToStringRoundTrip | frontend/src/components/CallPanel.js:26 | Reading the rendering back gives the number. |

## Left out

- The SDK calls are parameters.
  - The model provider's `chat.completions.create` is the next stream in a list; an empty list is a failed request.
  - `create_call`, `hang_up` and `json.loads` are parameters.
  - `get_call_properties` on CallConnected is assumed to succeed.
  - The speech recognizers are reduced to the writes into their input streams.
- The setup code is not modelled: `setup_speech_recognizer`, which is dead; `setup_dual_speech_recognizers`; the recognizer start and stop calls, beyond a flag.
- The concurrency is not modelled: the background thread that runs `process_message_queue`, `asyncio.sleep`, and concurrent mutation of the manager. The drain is a sequential FIFO loop over the queue as it stands.
- `send_personal_message` is unused by the core and is not modelled.
- `Session.AddTranscription`: the clock is read once, as `now`. The source calls `time.time()` separately for each append, so the timestamps could differ by a millisecond.
- `urljoin` and `urlencode` are parameters. `str()` and `json.dumps` of a JSON value are abstract, except for strings and None.
- Base64.Decode: decodes canonical text only. Python's default lenient decoding also accepts surplus '=' ("QUJD=" gives b'ABC'), stops at a completed padded group ("QQ==QUJD" gives b'A') and discards characters outside the alphabet. On such an AudioData frame the model stops the audio loop where the handler writes the bytes and goes on.
- Character classes are ASCII: `\s`, `\w`, `str.strip`, `str.capitalize` and `\D`. There is no Unicode.
- CallPanel.FormatDuration: takes whole seconds. The callers pass `(new Date() - connectedTime) / 1000`, usually a fraction. For s >= 0 the JavaScript result equals that for floor(s), which is what the model computes. Negative fractions are not modelled. `getCallStatusText` takes a string status.
- The spreadsheet and random-choice handlers take their data from `Backends`. pandas and Excel are not modelled. `fetch_relevant_documents` and its search client are not in `tools_mapping` and are not modelled.
- Tools.CustomerInfoUnknown: a truthy `out_queue` always raises TypeError. A JSON object as queue would be subscripted as a dict in Python (KeyError, or a reply). The chat client always passes its own queue object or None, so this never arises.
- `pcm_to_wav`, `pcm_to_numpy` and the `__main__` blocks are not modelled.
- The rest of the frontend is not modelled: AgentAudioPanel.js, App.js, AgentPanel.js, TranscriptionPanel.js and the workers.
- `Endpoints.Outbound`: a request body that is not a JSON object answers 500 without the exception text.
- `Endpoints.Webhook`:
  - A missing `data` or `type` key is not modelled. Only the keys read in the logging lines are tracked.
  - Each event's `type` is classified by `TypeOf` before the handler runs.
- Only `OutMsg` values are sent, not their JSON text.

## Findings

| source | as written | input that shows it | evidently intended | confidence | as-written member | corrected member |
|---|---|---|---|---|---|---|
| backend/oai.py:125-127 | Every parsed argument, `reply_to_customer` included, is passed to the handler as a keyword. No handler in `tools_mapping` (backend/tools.py:105-115) declares that parameter or `**kwargs`, so the call raises `TypeError`. The reply has already been spoken and the call recorded, and the turn ends with no tool result. | Tool call `get_all_order_for_customer` with arguments `{"phone_number": "9999999999", "reply_to_customer": "Let me check that."}` | `reply_to_customer` is consumed by the chat client (line 100) and the tool runs on the remaining arguments | high (not executed) | Tools.ReplyBreaksRegistryAsWritten, Tools.OrderLookupCounterexample, Chat.ReplyAbortsAsWritten, Endpoints.RecommendationFailsOnReply | Tools.Registry, Tools.RegistryIgnoresReply, Tools.OrderLookupWithReply |
