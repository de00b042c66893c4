/**
 * The backend's HTTP and agent-socket handlers: the call-automation webhook,
 * the outbound-call request, the agent socket's commands and the
 * recommendation request.  Calls into the telephony service (`create_call`,
 * `hang_up`) are oracles; `urljoin` and `urlencode` are given functions.
 */
module Endpoints {
  import opened Wrappers
  import opened Json
  import opened Text
  import opened Session
  import Chat
  import Tools

  /** The body of an HTTP response. */
  datatype Body =
    | Empty
    | ErrorMessage(error: string)            // {"error": <text>}
    | Unexplained                            // {"error": str(e)} for an exception whose text is not modelled
    | CallAccepted(callConnectionId: Value, callId: string)
    | Recommendation(text: string)

  datatype Response = Response(status: int, body: Body)

  // ---------------------------------------------------------------- webhook

  /** The event types the webhook tells apart; any other type is ignored. */
  datatype EventType = CallConnected | MediaStreamingStarted | MediaStreamingStopped | MediaStreamingFailed
                     | CallDisconnected | OtherType

  /** The `type` field of an event, read against the names the handler compares it with. */
  function TypeOf(name: string): EventType {
    if name == "Microsoft.Communication.CallConnected" then CallConnected
    else if name == "Microsoft.Communication.MediaStreamingStarted" then MediaStreamingStarted
    else if name == "Microsoft.Communication.MediaStreamingStopped" then MediaStreamingStopped
    else if name == "Microsoft.Communication.MediaStreamingFailed" then MediaStreamingFailed
    else if name == "Microsoft.Communication.CallDisconnected" then CallDisconnected
    else OtherType
  }

  /**
   * One webhook event: its `type` as TypeOf classifies it, `data.callConnectionId`
   * (None when absent),
   * whether `data.mediaStreamingUpdate.contentType` is present, and
   * `data.resultInformation.message` when present.
   */
  datatype Event = Event(kind: EventType, connectionId: Value, hasContentType: bool, failure: Option<Value>)

  /** What one event makes the handler do: broadcast a status, nothing, or fail on a missing field. */
  datatype Notice = Announce(message: OutMsg) | Silent | MissingField

  /** Lines 301-347: the status message each known event type broadcasts. */
  function NoticeOf(e: Event): (n: Notice)
    ensures n.MissingField? <==> (e.kind in {MediaStreamingStarted, MediaStreamingStopped} && !e.hasContentType)
                                 || (e.kind == MediaStreamingFailed && e.failure.None?)
    ensures n.Silent? <==> e.kind == OtherType
    ensures n.Announce? ==> (n.message.CallStatus? || n.message.MediaStatus? || n.message.MediaFailed?) && n.message.callId == e.connectionId
    ensures e.kind == MediaStreamingFailed && e.failure.Some? ==> n == Announce(MediaFailed(e.connectionId, e.failure.value))
    ensures e.kind == CallConnected ==> n == Announce(CallStatus("connected", e.connectionId))
    ensures e.kind == CallDisconnected ==> n == Announce(CallStatus("disconnected", e.connectionId))
    ensures e.kind == MediaStreamingStarted && e.hasContentType ==> n == Announce(MediaStatus("started", e.connectionId))
    ensures e.kind == MediaStreamingStopped && e.hasContentType ==> n == Announce(MediaStatus("stopped", e.connectionId))
  {
    match e.kind
    case CallConnected => Announce(CallStatus("connected", e.connectionId))
    case MediaStreamingStarted => if e.hasContentType then Announce(MediaStatus("started", e.connectionId)) else MissingField
    case MediaStreamingStopped => if e.hasContentType then Announce(MediaStatus("stopped", e.connectionId)) else MissingField
    case MediaStreamingFailed =>
      if e.failure.Some? then Announce(MediaFailed(e.connectionId, e.failure.value)) else MissingField
    case CallDisconnected => Announce(CallStatus("disconnected", e.connectionId))
    case OtherType => Silent
  }

  /** The webhook's effect: the last `call_connection_id`, the broadcasts made, and the status returned. */
  datatype WebhookRun = WebhookRun(connection: Value, broadcasts: seq<OutMsg>, status: int)

  /**
   * Lines 293-349.  Events are handled in order; each overwrites the call
   * connection id before its type is looked at.  A missing field raises and
   * the request fails with 500, after the broadcasts already made.
   */
  function Webhook(connection: Value, events: seq<Event>): (r: WebhookRun)
    ensures r.status == 200 || r.status == 500
    ensures events != [] && r.status == 200 ==> r.connection == events[|events| - 1].connectionId
    decreases |events|
  {
    if events == [] then WebhookRun(connection, [], 200)
    else
      var e := events[0];
      match NoticeOf(e)
      case MissingField => WebhookRun(e.connectionId, [], 500)
      case Silent => Webhook(e.connectionId, events[1..])
      case Announce(m) =>
        var rest := Webhook(e.connectionId, events[1..]);
        rest.(broadcasts := [m] + rest.broadcasts)
  }

  /** The status messages of a sequence of events none of which misses a field, in order. */
  function Announcements(events: seq<Event>): seq<OutMsg> {
    if events == [] then []
    else (match NoticeOf(events[0]) case Announce(m) => [m] case _ => []) + Announcements(events[1..])
  }

  /**
   * The handler succeeds exactly when no event misses a field; it then
   * broadcasts one status per known event, in order.
   */
  lemma {:induction false} WebhookAnnounces(connection: Value, events: seq<Event>)
    ensures var r := Webhook(connection, events);
            && (r.status == 200 <==> forall i :: 0 <= i < |events| ==> !NoticeOf(events[i]).MissingField?)
            && (r.status == 200 ==> r.broadcasts == Announcements(events))
    decreases |events|
  {
    if events != [] {
      WebhookAnnounces(events[0].connectionId, events[1..]);
      assert forall i :: 1 <= i < |events| ==> events[i] == events[1..][i - 1];
    }
  }

  /** The status messages one notice contributes. */
  function Emitted(n: Notice): seq<OutMsg> {
    if n.Announce? then [n.message] else []
  }

  /** An event that misses no field contributes its status, then the handler goes on with its connection id. */
  lemma WebhookStep(connection: Value, events: seq<Event>)
    requires events != [] && !NoticeOf(events[0]).MissingField?
    ensures var rest := Webhook(events[0].connectionId, events[1..]);
            Webhook(connection, events) == rest.(broadcasts := Emitted(NoticeOf(events[0])) + rest.broadcasts)
  {
    if NoticeOf(events[0]).Silent? {
      assert Emitted(NoticeOf(events[0])) == [];
    }
  }

  /**
   * Handling a batch is handling its first part, then the rest with the
   * connection id the first part left: events are processed in array order.
   */
  lemma {:induction false} WebhookSplits(connection: Value, first: seq<Event>, second: seq<Event>)
    requires Webhook(connection, first).status == 200
    ensures var a := Webhook(connection, first);
            var b := Webhook(a.connection, second);
            Webhook(connection, first + second) == WebhookRun(b.connection, a.broadcasts + b.broadcasts, b.status)
    decreases |first|
  {
    if first == [] {
      assert first + second == second;
    } else {
      var e := first[0];
      var emitted := Emitted(NoticeOf(e));
      var a := Webhook(e.connectionId, first[1..]);
      var b := Webhook(a.connection, second);
      assert Webhook(connection, first) == a.(broadcasts := emitted + a.broadcasts) by {
        WebhookStep(connection, first);
      }
      assert Webhook(e.connectionId, first[1..] + second) == WebhookRun(b.connection, a.broadcasts + b.broadcasts, b.status) by {
        WebhookSplits(e.connectionId, first[1..], second);
      }
      assert Webhook(connection, first + second)
          == WebhookRun(b.connection, emitted + (a.broadcasts + b.broadcasts), b.status) by {
        var both := first + second;
        assert both[0] == e;
        assert both[1..] == first[1..] + second;
        WebhookStep(connection, both);
      }
      assert emitted + (a.broadcasts + b.broadcasts) == (emitted + a.broadcasts) + b.broadcasts;
    }
  }

  // ---------------------------------------------------------- outbound call

  const DefaultSourceNumber := "+18772246445"

  /** `urljoin(base, path)` and `urlencode({"callerId": source})`. */
  datatype UrlLib = UrlLib(join: (string, string) -> string, encodeCaller: Value -> string)

  /** The arguments `create_call` is called with. */
  datatype CallRequest = CallRequest(target: Value, source: Value, callbackUrl: string, transportUrl: string)

  /** Lines 399-402: the webhook address for one call, carrying the caller id. */
  function CallbackUrl(websocketUrl: string, guid: string, source: Value, urls: UrlLib): string {
    urls.join(ReplaceAll(websocketUrl, "wss://", "https://"), "api/callbacks") + "/" + guid + "?" + urls.encodeCaller(source)
  }

  /** Line 405: the media-streaming socket address for one call. */
  function TransportUrl(websocketUrl: string, guid: string): (r: string)
    ensures StartsWith(r, websocketUrl) && r[|websocketUrl|..] == "/ws/audio/" + guid
  {
    websocketUrl + "/ws/audio/" + guid
  }

  /** The handler's effect: response, new call connection id, broadcasts, and the `create_call` request if one was made. */
  datatype OutboundRun = OutboundRun(response: Response, connection: Value, broadcasts: seq<OutMsg>, request: Option<CallRequest>)

  /**
   * Lines 381-456.  `guid` is the fresh `uuid4`; `websocketUrl` is the
   * configured `WEBSOCKET_URL` (None when unset); `createCall` answers with
   * the new call connection id or the text of the exception it raised.
   */
  function Outbound(body: Document, websocketUrl: Option<string>, guid: string, urls: UrlLib,
                    createCall: CallRequest -> Result<Value, string>, connection: Value): (r: OutboundRun)
    ensures r.request.None? ==> r.connection == connection && r.broadcasts == []
    ensures r.response.status == 202 <==> r.request.Some? && createCall(r.request.value).Success?
  {
    match body
    case NotObject => OutboundRun(Response(500, Unexplained), connection, [], None)
    case Object(fields) =>
      var target := Get(fields, "phoneNumber");
      var source := if "sourcePhoneNumber" in fields then fields["sourcePhoneNumber"] else Str(DefaultSourceNumber);
      var bot := Get(fields, "botId");
      if !Truthy(target) then OutboundRun(Response(400, ErrorMessage("Phone number is required")), connection, [], None)
      else if !Truthy(bot) then OutboundRun(Response(400, ErrorMessage("Bot ID is required")), connection, [], None)
      else if websocketUrl.None? then
        OutboundRun(Response(500, ErrorMessage("'NoneType' object has no attribute 'replace'")), connection, [], None)
      else
        var ws := websocketUrl.value;
        var request := CallRequest(target, source, CallbackUrl(ws, guid, source, urls), TransportUrl(ws, guid));
        match createCall(request)
        case Failure(error) => OutboundRun(Response(500, ErrorMessage(error)), connection, [], Some(request))
        case Success(id) =>
          OutboundRun(Response(202, CallAccepted(id, guid)), id, [CallInitiated(id, target, source)], Some(request))
  }

  /**
   * A missing or empty phone number is rejected first, then a missing bot
   * id; in either case no call is placed and nothing is broadcast.
   */
  lemma OutboundValidation(fields: map<string, Value>, websocketUrl: Option<string>, guid: string, urls: UrlLib,
                           createCall: CallRequest -> Result<Value, string>, connection: Value)
    ensures var r := Outbound(Object(fields), websocketUrl, guid, urls, createCall, connection);
            && (!Truthy(Get(fields, "phoneNumber")) ==>
                      r == OutboundRun(Response(400, ErrorMessage("Phone number is required")), connection, [], None))
            && (Truthy(Get(fields, "phoneNumber")) && !Truthy(Get(fields, "botId")) ==>
                      r == OutboundRun(Response(400, ErrorMessage("Bot ID is required")), connection, [], None))
  {
  }

  /**
   * A valid request places exactly one call: to the given number, from the
   * given source or the default when the key is absent, with the media socket
   * at `<WEBSOCKET_URL>/ws/audio/<guid>` and the webhook at
   * `<callback base>/<guid>?<caller id>`.
   */
  lemma OutboundPlacesCall(fields: map<string, Value>, ws: string, guid: string, urls: UrlLib,
                           createCall: CallRequest -> Result<Value, string>, connection: Value)
    requires Truthy(Get(fields, "phoneNumber")) && Truthy(Get(fields, "botId"))
    ensures var r := Outbound(Object(fields), Some(ws), guid, urls, createCall, connection);
            var source := if "sourcePhoneNumber" in fields then fields["sourcePhoneNumber"] else Str(DefaultSourceNumber);
            && r.request.Some?
            && r.request.value.target == fields["phoneNumber"]
            && r.request.value.source == source
            && r.request.value.transportUrl[|ws|..] == "/ws/audio/" + guid
            && StartsWith(r.request.value.transportUrl, ws)
            && r.request.value.callbackUrl == CallbackUrl(ws, guid, source, urls)
  {
  }

  /**
   * A placed call that succeeds becomes the current call and is announced
   * once with its number and source; one that fails answers 500 with the
   * error text and changes nothing.
   */
  lemma OutboundOutcome(fields: map<string, Value>, ws: string, guid: string, urls: UrlLib,
                        createCall: CallRequest -> Result<Value, string>, connection: Value)
    requires Truthy(Get(fields, "phoneNumber")) && Truthy(Get(fields, "botId"))
    ensures var r := Outbound(Object(fields), Some(ws), guid, urls, createCall, connection);
            var request := r.request.value;
            && (createCall(request).Success? ==>
                  && r.connection == createCall(request).value
                  && r.broadcasts == [CallInitiated(r.connection, request.target, request.source)]
                  && r.response == Response(202, CallAccepted(r.connection, guid)))
            && (createCall(request).Failure? ==>
                  r == OutboundRun(Response(500, ErrorMessage(createCall(request).error)), connection, [], Some(request)))
  {
  }

  // ------------------------------------------------------------ agent socket

  /** What arrives on an agent socket: a text frame (None when it is not JSON), or the peer closing. */
  datatype AgentFrame = Received(message: Option<Document>) | PeerClosed

  /** The effect of one command: the new state, replies to the socket, broadcasts to all. */
  datatype Handled = Handled(server: Server, replies: seq<OutMsg>, broadcasts: seq<OutMsg>)

  /** A call id the client named, when it is a known call: `call_id and call_id in transcription_results`. */
  function KnownCall(s: Server, callId: Value): Option<string> {
    if Truthy(callId) && callId.Str? && callId.s in s.results then Some(callId.s) else None
  }

  /**
   * Lines 467-506, one command.  None when the handler raises: the message is
   * not an object with a "type", or a transcription command names a truthy
   * `callId` that cannot be a dict key.  `hangUp` answers None on success or the
   * text of the exception.
   */
  function Command(s: Server, clientId: string, message: Document, hangUp: Value -> Option<string>): (r: Option<Handled>)
    ensures r.Some? ==> r.value.server.manager == s.manager && r.value.server.queue == s.queue
    ensures r.Some? ==> r.value.server.callConnection == s.callConnection
    ensures r.Some? ==> |r.value.replies| + |r.value.broadcasts| <= 1
  {
    match message
    case NotObject => None
    case Object(fields) =>
      if "type" !in fields then None
      else
        var kind := fields["type"];
        var callId := Get(fields, "callId");
        var known := KnownCall(s, callId);
        if kind in {Str("getTranscription"), Str("clearTranscription")} && Truthy(callId) && !Hashable(callId) then None
        else if kind == Str("getTranscription") then
          Some(Handled(s, [if known.Some? then Transcriptions(known, s.results[known.value])
                           else Transcriptions(None, GetTranscriptions(s.manager, clientId))], []))
        else if kind == Str("clearTranscription") then
          Some(if known.Some? then Handled(s.(results := s.results[known.value := []]), [TranscriptionCleared(known.value)], [])
               else Handled(s, [], []))
        else if kind == Str("endCall") && Truthy(s.callConnection) then
          Some(match hangUp(s.callConnection)
               case None => Handled(s, [], [CallStatus("disconnected", s.callConnection)])
               case Some(error) => Handled(s, [ErrorReport("Failed to end call: " + error)], []))
        else Some(Handled(s, [], []))
  }

  /**
   * `getTranscription` answers with the named call's lines when that call is
   * known, else with the client's own transcript; a truthy list or object
   * `callId` makes the membership test raise, ending the handler.
   */
  lemma GetTranscriptionAnswers(s: Server, clientId: string, fields: map<string, Value>, hangUp: Value -> Option<string>)
    requires "type" in fields && fields["type"] == Str("getTranscription")
    ensures var r := Command(s, clientId, Object(fields), hangUp);
            var id := Get(fields, "callId");
            && (r.None? <==> Truthy(id) && !Hashable(id))
            && (r.Some? ==> r.value.server == s && r.value.broadcasts == [])
            && (id.Str? && id.s != "" && id.s in s.results ==>
                      r.Some? && r.value.replies == [Transcriptions(Some(id.s), s.results[id.s])])
            && (!(id.Str? && id.s in s.results) && r.Some? ==>
                      r.value.replies == [Transcriptions(None, GetTranscriptions(s.manager, clientId))])
  {
  }

  /**
   * `clearTranscription` empties exactly the named call's lines and
   * acknowledges; for an unknown call nothing changes and nothing is sent,
   * and a truthy list or object `callId` makes the membership test raise.
   */
  lemma ClearTranscriptionOnlyKnown(s: Server, clientId: string, fields: map<string, Value>, hangUp: Value -> Option<string>)
    requires "type" in fields && fields["type"] == Str("clearTranscription")
    ensures var r := Command(s, clientId, Object(fields), hangUp);
            var id := Get(fields, "callId");
            && (r.None? <==> Truthy(id) && !Hashable(id))
            && (id.Str? && id.s != "" && id.s in s.results ==>
                  && r.Some?
                  && r.value.server.results.Keys == s.results.Keys
                  && r.value.server.results[id.s] == []
                  && (forall c :: c in s.results && c != id.s ==> r.value.server.results[c] == s.results[c])
                  && r.value.replies == [TranscriptionCleared(id.s)])
            && (!(id.Str? && id.s in s.results) && r.Some? ==> r.value == Handled(s, [], []))
  {
  }

  /** How an agent session ends: frames still to come, the peer closed, or the handler raised. */
  datatype AgentEnd = StillOpen | Closed | Crashed

  datatype AgentRun = AgentRun(server: Server, replies: seq<OutMsg>, broadcasts: seq<OutMsg>, end: AgentEnd)

  /** Lines 463-513: the command loop over the frames received. */
  function Serve(s: Server, clientId: string, frames: seq<AgentFrame>, hangUp: Value -> Option<string>): (r: AgentRun)
    ensures r.end == Closed ==> |r.broadcasts| >= 1 && r.broadcasts[|r.broadcasts| - 1] == ClientDisconnected(clientId)
    decreases |frames|
  {
    if frames == [] then AgentRun(s, [], [], StillOpen)
    else match frames[0]
      case PeerClosed => AgentRun(s, [], [ClientDisconnected(clientId)], Closed)
      case Received(None) => AgentRun(s, [], [], Crashed)
      case Received(Some(message)) =>
        match Command(s, clientId, message, hangUp)
        case None => AgentRun(s, [], [], Crashed)
        case Some(h) =>
          var rest := Serve(h.server, clientId, frames[1..], hangUp);
          AgentRun(rest.server, h.replies + rest.replies, h.broadcasts + rest.broadcasts, rest.end)
  }

  /** Lines 460-513: connect, then serve. */
  function AgentSession(s: Server, clientId: string, frames: seq<AgentFrame>, hangUp: Value -> Option<string>): AgentRun {
    Serve(s.(manager := Connect(s.manager, clientId)), clientId, frames, hangUp)
  }

  /** Commands never touch the connection manager. */
  lemma {:induction false} ServeKeepsManager(s: Server, clientId: string, frames: seq<AgentFrame>, hangUp: Value -> Option<string>)
    ensures Serve(s, clientId, frames, hangUp).server.manager == s.manager
    decreases |frames|
  {
    if frames != [] && frames[0].Received? && frames[0].message.Some? {
      var h := Command(s, clientId, frames[0].message.value, hangUp);
      if h.Some? {
        ServeKeepsManager(h.value.server, clientId, frames[1..], hangUp);
      }
    }
  }

  /**
   * An agent whose socket closes stays registered: it is still an active
   * connection with its transcript, since the session never disconnects it.
   */
  lemma ClosedAgentStaysConnected(s: Server, clientId: string, frames: seq<AgentFrame>, hangUp: Value -> Option<string>)
    requires !IsAudio(clientId)
    ensures var r := AgentSession(s, clientId, frames, hangUp);
            clientId in r.server.manager.active && clientId in r.server.manager.transcriptions
  {
    ServeKeepsManager(s.(manager := Connect(s.manager, clientId)), clientId, frames, hangUp);
  }

  // --------------------------------------------------------- recommendation

  const PromptHead := "Given the following conversation between an agent and a customer, provide a concise and helpful recommendation for the customer:"
  const PromptTail := "Recommendation:\n    "

  /** `f"{t['speaker']}: {t['text']}"` for each line, in order. */
  function Lines(conversation: seq<Entry>): (r: seq<string>)
    ensures |r| == |conversation|
    ensures forall i :: 0 <= i < |r| ==> r[i] == conversation[i].speaker + ": " + conversation[i].text
  {
    if conversation == [] then [] else [conversation[0].speaker + ": " + conversation[0].text] + Lines(conversation[1..])
  }

  /** Lines 358-366: the prompt around the newline-joined conversation. */
  function Prompt(conversation: seq<Entry>): string {
    PromptHead + "\n\n" + JoinWith("\n", Lines(conversation)) + "\n\n" + PromptTail
  }

  /** The recommendation request's effect: the response and the chat client's history afterwards. */
  datatype RecommendationRun = RecommendationRun(response: Response, history: seq<Chat.Message>)

  /**
   * Lines 353-377.  The chat client is the manager's (line 85): no output
   * queue, and `tools_mapping` as written, whose handlers receive every parsed
   * argument; `history` is its message list so far and `streams` what the
   * model answers.  A completed generation answers with all tokens
   * joined; any exception during it answers 500, the history keeping
   * whatever it had recorded.
   */
  function GetRecommendation(m: Manager, clientId: string, backends: Tools.Backends, parse: string -> Option<Document>,
                             history: seq<Chat.Message>, systemPrompt: string, streams: seq<Chat.Stream>): (r: RecommendationRun)
    ensures GetTranscriptions(m, clientId) == [] ==>
                  r == RecommendationRun(Response(200, Recommendation("No conversation context available.")), history)
    ensures r.response.status == 200 || r.response.status == 500
  {
    var conversation := GetTranscriptions(m, clientId);
    if conversation == [] then RecommendationRun(Response(200, Recommendation("No conversation context available.")), history)
    else
      var client := Chat.Client(Tools.RegistryAsWritten(backends), parse, Null);
      var run := Chat.GenerateResponse(client, history, Prompt(conversation), systemPrompt, None, streams);
      if run.outcome.Completed? then RecommendationRun(Response(200, Recommendation(Concat(run.tokens))), run.history)
      else RecommendationRun(Response(500, ErrorMessage("Failed to generate recommendation.")), run.history)
  }

  /**
   * With a conversation, the prompt is the fixed head, the speaker-labelled
   * lines, and the fixed tail; the answer is 200 with every token joined
   * exactly when the generation completed, and the history always starts
   * with the prelude for that prompt.
   */
  lemma RecommendationUsesConversation(m: Manager, clientId: string, backends: Tools.Backends,
                                       parse: string -> Option<Document>, history: seq<Chat.Message>,
                                       systemPrompt: string, streams: seq<Chat.Stream>)
    requires GetTranscriptions(m, clientId) != []
    ensures var conversation := GetTranscriptions(m, clientId);
            var client := Chat.Client(Tools.RegistryAsWritten(backends), parse, Null);
            var run := Chat.GenerateResponse(client, history, Prompt(conversation), systemPrompt, None, streams);
            var r := GetRecommendation(m, clientId, backends, parse, history, systemPrompt, streams);
            var start := Chat.Prelude(history, Prompt(conversation), systemPrompt, None);
            && (r.response.status == 200 <==> run.outcome.Completed?)
            && (run.outcome.Completed? ==> r.response.body == Recommendation(Concat(run.tokens)))
            && |start| <= |r.history| && r.history[..|start|] == start
  {
  }

  /**
   * A tool call carrying `reply_to_customer` makes the recommendation fail:
   * the handler raises `TypeError` (see Chat.ReplyAbortsAsWritten), which
   * escapes the generator and is answered with 500.
   */
  lemma RecommendationFailsOnReply(m: Manager, clientId: string, backends: Tools.Backends,
                                   parse: string -> Option<Document>, history: seq<Chat.Message>,
                                   systemPrompt: string, streams: seq<Chat.Stream>, args: map<string, Value>)
    requires GetTranscriptions(m, clientId) != []
    requires streams != [] && Chat.ScanFrom(streams[0].parts, Chat.Fresh).ending == Chat.ToolFinish
    requires var st := Chat.ScanFrom(streams[0].parts, Chat.Fresh).state;
             && parse(st.args) == Some(Object(args))
             && st.name in Tools.Mapping
             && "reply_to_customer" in args && args["reply_to_customer"].Str?
    ensures GetRecommendation(m, clientId, backends, parse, history, systemPrompt, streams).response
         == Response(500, ErrorMessage("Failed to generate recommendation."))
  {
    var client := Chat.Client(Tools.RegistryAsWritten(backends), parse, Null);
    var start := Chat.Prelude(history, Prompt(GetTranscriptions(m, clientId)), systemPrompt, None);
    Chat.ReplyAbortsAsWritten(client, backends, start, streams, args);
  }

  /** A one-line conversation yields the prompt with that line alone between head and tail. */
  lemma PromptOfOneLine(e: Entry)
    ensures Prompt([e]) == PromptHead + "\n\n" + e.speaker + ": " + e.text + "\n\n" + PromptTail
  {
  }

  /** Further lines are appended after a newline, in order. */
  lemma {:induction false} JoinWithAppend(sep: string, parts: seq<string>, last: string)
    requires parts != []
    ensures JoinWith(sep, parts + [last]) == JoinWith(sep, parts) + sep + last
    decreases |parts|
  {
    if |parts| == 1 {
      assert parts + [last] == [parts[0], last];
      assert [parts[0], last][1..] == [last];
    } else {
      assert (parts + [last])[1..] == parts[1..] + [last];
      JoinWithAppend(sep, parts[1..], last);
    }
  }

  lemma LinesAppend(conversation: seq<Entry>, e: Entry)
    ensures Lines(conversation + [e]) == Lines(conversation) + [e.speaker + ": " + e.text]
  {
  }

  /** Adding a line to the conversation inserts it, after a newline, just before the prompt's tail. */
  lemma PromptGrows(conversation: seq<Entry>, e: Entry)
    requires conversation != []
    ensures Prompt(conversation + [e])
         == PromptHead + "\n\n" + (JoinWith("\n", Lines(conversation)) + "\n" + (e.speaker + ": " + e.text)) + "\n\n" + PromptTail
  {
    LinesAppend(conversation, e);
    JoinWithAppend("\n", Lines(conversation), e.speaker + ": " + e.text);
  }
}
