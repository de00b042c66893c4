/**
 * The chat client's streaming processor and its history prelude.
 *
 * A model response is a finite stream of parts; each part's first choice may
 * carry a text delta, a tool-call delta (name, id, argument fragment) and a
 * finish reason.  Text deltas are yielded as they arrive.  When a tool call
 * finishes, its accumulated arguments are parsed, the customer reply is
 * tokenized and yielded, the call and its result are recorded in the history,
 * and the processor continues on the model's next stream.  The model's
 * streams are given up front as a list: the first is the answer to the
 * history as it stands, each later one the answer after one more tool result,
 * so the list's length bounds the recursion.
 */
module Chat {
  import opened Wrappers
  import opened Json
  import opened Text
  import Tokenizer
  import Tools

  // ------------------------------------------------------------- stream parts

  datatype ToolCallDelta = ToolCallDelta(id: Option<string>, name: Option<string>, arguments: Option<string>)

  /** A choice's delta; an absent tool-call list is the empty list. */
  datatype Delta = Delta(content: Option<string>, toolCalls: seq<ToolCallDelta>)

  datatype Choice = Choice(delta: Delta, finishReason: Option<string>)

  datatype Part = Part(choices: seq<Choice>)

  /** One model response; `broken` when iterating it raises after its last part. */
  datatype Stream = Stream(parts: seq<Part>, broken: bool)

  // ------------------------------------------------------------------ history

  /** The descriptor of the tool call an assistant message requested. */
  datatype ToolCall = ToolCall(id: Option<string>, name: string, arguments: string)

  datatype UserContent = Plain(text: string) | WithImage(text: string, imageUrl: string)

  datatype Message =
    | System(content: string)
    | User(body: UserContent)
    | Assistant(text: string)
    | AssistantToolCall(reply: Value, call: ToolCall)
    | ToolResult(toolCallId: Option<string>, name: string, result: string)

  /** What the processor needs of its client: the tool registry, `json.loads`, and the `out_queue` it injects. */
  datatype Client = Client(registry: map<string, Tools.Tool>, parse: string -> Option<Document>, outQueue: Value)

  /** Why a turn was abandoned; each is an exception escaping the generator. */
  datatype Failure =
    | MalformedArguments          // json.loads raised
    | UnknownTool(name: string)   // available_functions[name] raised KeyError
    | ArgumentsNotObject          // .get on a parsed value that is not an object
    | ReplyNotText                // re.findall on a truthy reply that is not a string
    | ToolRaised(error: Tools.PyError)
    | StreamBroken                // iterating the model's stream raised
    | ProviderFailed              // the request for the next stream raised

  datatype Outcome = Completed | Aborted(reason: Failure)

  /** Everything yielded, the history afterwards, and how the generator ended. */
  datatype Run = Run(tokens: seq<string>, history: seq<Message>, outcome: Outcome)

  // ----------------------------------------------------------- one stream turn

  /** The per-turn variables of `process_response_stream`. */
  datatype TurnState = TurnState(collected: seq<string>, name: string, id: Option<string>, args: string, collecting: bool)

  const Fresh: TurnState := TurnState([], "", Some(""), "", false)

  /** The text a part yields: its first choice's content, when non-empty. */
  function ContentOf(part: Part): seq<string> {
    if part.choices != [] && part.choices[0].delta.content.Some? && part.choices[0].delta.content.value != ""
    then [part.choices[0].delta.content.value]
    else []
  }

  /** The argument fragment a part contributes. */
  function FragmentOf(part: Part): string {
    if part.choices != [] && part.choices[0].delta.toolCalls != []
       && part.choices[0].delta.toolCalls[0].arguments.Some?
    then part.choices[0].delta.toolCalls[0].arguments.value
    else ""
  }

  /** The function name and call id a part announces, when its name is non-empty. */
  function NamedIn(part: Part): Option<(string, Option<string>)> {
    if part.choices != [] && part.choices[0].delta.toolCalls != []
       && part.choices[0].delta.toolCalls[0].name.Some? && part.choices[0].delta.toolCalls[0].name.value != ""
    then Some((part.choices[0].delta.toolCalls[0].name.value, part.choices[0].delta.toolCalls[0].id))
    else None
  }

  /** Every text yielded by `parts`, in stream order. */
  function Contents(parts: seq<Part>): seq<string> {
    if parts == [] then [] else ContentOf(parts[0]) + Contents(parts[1..])
  }

  /** Every argument fragment of `parts`, concatenated in stream order. */
  function Fragments(parts: seq<Part>): string {
    if parts == [] then "" else FragmentOf(parts[0]) + Fragments(parts[1..])
  }

  /** The name and id of the last part of `parts` that announces a function name. */
  function LatestNamed(parts: seq<Part>): Option<(string, Option<string>)> {
    if parts == [] then None
    else match LatestNamed(parts[1..])
      case Some(later) => Some(later)
      case None => NamedIn(parts[0])
  }

  /** Lines 69-92: take in one part's text and tool-call delta. */
  function Absorb(st: TurnState, part: Part): (r: TurnState)
    ensures r.collected == st.collected + ContentOf(part)
    ensures r.args == st.args + FragmentOf(part)
    ensures r.collecting == (st.collecting || FragmentOf(part) != "")
    ensures NamedIn(part).None? ==> r.name == st.name && r.id == st.id
    ensures NamedIn(part).Some? ==> (r.name, r.id) == NamedIn(part).value
  {
    if part.choices == [] then st
    else
      var delta := part.choices[0].delta;
      var st1 := if delta.content.Some? && delta.content.value != "" then st.(collected := st.collected + [delta.content.value]) else st;
      if delta.toolCalls == [] then st1
      else
        var call := delta.toolCalls[0];
        var st2 := if call.name.Some? && call.name.value != "" then st1.(name := call.name.value, id := call.id) else st1;
        if call.arguments.Some? && call.arguments.value != "" then st2.(args := st2.args + call.arguments.value, collecting := true)
        else st2
  }

  datatype Ending = ToolFinish | StopFinish | Exhausted

  /** Lines 95 and 156: does the part (already absorbed into `st`) end the turn? */
  function FinishOf(st: TurnState, part: Part): Option<Ending> {
    if part.choices == [] then None
    else if part.choices[0].finishReason == Some("tool_calls") && st.collecting then Some(ToolFinish)
    else if part.choices[0].finishReason == Some("stop") then Some(StopFinish)
    else None
  }

  /** Where a turn ended: the state reached, how it ended, and how many parts were read. */
  datatype Scan = Scan(state: TurnState, ending: Ending, used: nat)

  /** Reads parts until one ends the turn; the parts after it are never read. */
  function ScanFrom(parts: seq<Part>, st: TurnState): (r: Scan)
    ensures r.used <= |parts|
    ensures r.ending == Exhausted <==> r.used == |parts| && (r.used == 0 || FinishOf(r.state, parts[r.used - 1]).None?)
    ensures r.ending != Exhausted ==> r.used >= 1 && FinishOf(r.state, parts[r.used - 1]) == Some(r.ending)
    decreases |parts|
  {
    if parts == [] then Scan(st, Exhausted, 0)
    else
      var next := Absorb(st, parts[0]);
      match FinishOf(next, parts[0])
      case Some(ending) => Scan(next, ending, 1)
      case None =>
        var r := ScanFrom(parts[1..], next);
        assert r.used > 0 ==> parts[1..][r.used - 1] == parts[r.used];
        r.(used := r.used + 1)
  }

  /** The name and id after a turn state took in the latest announcement, if any. */
  function NameAndId(st: TurnState, latest: Option<(string, Option<string>)>): (string, Option<string>) {
    match latest
    case None => (st.name, st.id)
    case Some(pair) => pair
  }

  /** A part that does not end the turn hands the rest of the scan to the remaining parts. */
  lemma ScanStep(parts: seq<Part>, st: TurnState)
    requires parts != [] && FinishOf(Absorb(st, parts[0]), parts[0]).None?
    ensures var inner := ScanFrom(parts[1..], Absorb(st, parts[0]));
            && ScanFrom(parts, st) == inner.(used := inner.used + 1)
            && parts[..inner.used + 1] == [parts[0]] + parts[1..][..inner.used]
  {
  }

  /** A scan collects every non-empty text of the parts it read, in stream order. */
  lemma {:induction false} ScanCollectsText(parts: seq<Part>, st: TurnState)
    ensures var r := ScanFrom(parts, st);
            r.state.collected == st.collected + Contents(parts[..r.used])
    decreases |parts|
  {
    if parts != [] {
      var next := Absorb(st, parts[0]);
      if FinishOf(next, parts[0]).Some? {
        assert parts[..1] == [parts[0]];
        assert parts[..1][1..] == [];
      } else {
        ScanStep(parts, st);
        var inner := ScanFrom(parts[1..], next);
        ScanCollectsText(parts[1..], next);
        var innerRead := parts[1..][..inner.used];
        var read := [parts[0]] + innerRead;
        assert read[1..] == innerRead;
        assert Contents(read) == ContentOf(parts[0]) + Contents(innerRead);
      }
    }
  }

  /** The argument string is the in-order concatenation of every fragment the scan read. */
  lemma {:induction false} ScanCollectsArguments(parts: seq<Part>, st: TurnState)
    ensures var r := ScanFrom(parts, st);
            r.state.args == st.args + Fragments(parts[..r.used])
    decreases |parts|
  {
    if parts != [] {
      var next := Absorb(st, parts[0]);
      if FinishOf(next, parts[0]).Some? {
        assert parts[..1] == [parts[0]];
        assert parts[..1][1..] == [];
        assert Fragments(parts[..1]) == FragmentOf(parts[0]);
      } else {
        ScanStep(parts, st);
        var inner := ScanFrom(parts[1..], next);
        ScanCollectsArguments(parts[1..], next);
        var innerRead := parts[1..][..inner.used];
        var read := [parts[0]] + innerRead;
        assert read[1..] == innerRead;
        assert Fragments(read) == FragmentOf(parts[0]) + Fragments(innerRead);
      }
    }
  }

  /** The collecting flag is set exactly when some fragment the scan read was non-empty. */
  lemma {:induction false} ScanSetsCollecting(parts: seq<Part>, st: TurnState)
    ensures var r := ScanFrom(parts, st);
            r.state.collecting == (st.collecting || Fragments(parts[..r.used]) != "")
    decreases |parts|
  {
    if parts != [] {
      var next := Absorb(st, parts[0]);
      if FinishOf(next, parts[0]).Some? {
        assert parts[..1] == [parts[0]];
        assert parts[..1][1..] == [];
        assert Fragments(parts[..1]) == FragmentOf(parts[0]);
      } else {
        ScanStep(parts, st);
        var inner := ScanFrom(parts[1..], next);
        ScanSetsCollecting(parts[1..], next);
        var innerRead := parts[1..][..inner.used];
        var read := [parts[0]] + innerRead;
        assert read[1..] == innerRead;
        assert Fragments(read) == FragmentOf(parts[0]) + Fragments(innerRead);
      }
    }
  }

  /** Name and id come from the latest part of the turn that named a function. */
  lemma {:induction false} ScanNamesLatest(parts: seq<Part>, st: TurnState)
    ensures var r := ScanFrom(parts, st);
            (r.state.name, r.state.id) == NameAndId(st, LatestNamed(parts[..r.used]))
    decreases |parts|
  {
    if parts != [] {
      var next := Absorb(st, parts[0]);
      if FinishOf(next, parts[0]).Some? {
        assert parts[..1] == [parts[0]];
        assert parts[..1][1..] == [];
      } else {
        ScanStep(parts, st);
        var inner := ScanFrom(parts[1..], next);
        ScanNamesLatest(parts[1..], next);
        var innerRead := parts[1..][..inner.used];
        var read := [parts[0]] + innerRead;
        assert read[1..] == innerRead;
      }
    }
  }

  /** A scan that ended on a finish reason reads nothing past that part. */
  lemma {:induction false} ScanIgnoresRest(parts: seq<Part>, rest: seq<Part>, st: TurnState)
    requires ScanFrom(parts, st).ending != Exhausted
    ensures ScanFrom(parts + rest, st) == ScanFrom(parts, st)
    decreases |parts|
  {
    assert (parts + rest)[0] == parts[0];
    var next := Absorb(st, parts[0]);
    if FinishOf(next, parts[0]).None? {
      assert (parts + rest)[1..] == parts[1..] + rest;
      ScanIgnoresRest(parts[1..], rest, next);
    }
  }

  // ------------------------------------------------------------ one tool call

  /** The outcome of a finished tool call: tokens to yield, messages to append, and how it went. */
  datatype ToolTurn =
    | ToolAbort(reply: seq<string>, appended: seq<Message>, reason: Failure)
    | ToolDone(reply: seq<string>, appended: seq<Message>)

  /** The tokens yielded for a `reply_to_customer` value. */
  function ReplyTokens(reply: Value): seq<string> {
    if reply.Str? && reply.s != "" then Tokenizer.Tokenize(reply.s) else []
  }

  /** Lines 97-136: parse, look up, yield the reply, record the call, run the tool, record its result. */
  function CompleteToolCall(client: Client, st: TurnState): (t: ToolTurn)
    ensures AllByProcessor(t.appended)
  {
    match client.parse(st.args)
    case None => ToolAbort([], [], MalformedArguments)
    case Some(doc) =>
      if st.name !in client.registry then ToolAbort([], [], UnknownTool(st.name))
      else match doc
        case NotObject => ToolAbort([], [], ArgumentsNotObject)
        case Object(args) =>
          var reply := Get(args, "reply_to_customer");
          if Truthy(reply) && !reply.Str? then ToolAbort([], [], ReplyNotText)
          else
            var request := AssistantToolCall(reply, ToolCall(st.id, st.name, st.args));
            match client.registry[st.name](args["out_queue" := client.outQueue])
            case Failure(error) => ToolAbort(ReplyTokens(reply), [request], ToolRaised(error))
            case Success(result) => ToolDone(ReplyTokens(reply), [request, ToolResult(st.id, st.name, result)])
  }

  /** Lines 156-162: the assistant message a stop records, if any. */
  function StopMessages(collected: seq<string>): seq<Message> {
    if collected != [] && HasNonSpace(Concat(collected)) then [Assistant(Concat(collected))] else []
  }

  /** A message the processor itself may append. */
  predicate ByProcessor(m: Message) {
    m.Assistant? || m.AssistantToolCall? || m.ToolResult?
  }

  predicate AllByProcessor(ms: seq<Message>) {
    forall m :: m in ms ==> ByProcessor(m)
  }

  /** A turn that ended without a tool call: on stop the text may be recorded, else nothing is. */
  function EndTurn(text: seq<string>, history: seq<Message>, ending: Ending, broken: bool): (r: Run)
    requires ending != ToolFinish
    ensures r.tokens == text
    ensures |history| <= |r.history| && r.history[..|history|] == history
    ensures AllByProcessor(r.history[|history|..])
  {
    if ending == StopFinish then
      var appended := StopMessages(text);
      assert (history + appended)[|history|..] == appended;
      Run(text, history + appended, Completed)
    else Run(text, history, if broken then Aborted(StreamBroken) else Completed)
  }

  /**
   * `process_response_stream` over the first stream, recursing into the next
   * one after each completed tool call.  The history only grows, and the first
   * thing yielded is the text of the first stream.
   */
  function Process(client: Client, history: seq<Message>, streams: seq<Stream>): (r: Run)
    ensures |history| <= |r.history| && r.history[..|history|] == history
    ensures streams != [] ==> var text := ScanFrom(streams[0].parts, Fresh).state.collected;
                              |text| <= |r.tokens| && r.tokens[..|text|] == text
    decreases |streams|
  {
    if streams == [] then Run([], history, Aborted(ProviderFailed))
    else
      var scan := ScanFrom(streams[0].parts, Fresh);
      var text := scan.state.collected;
      if scan.ending != ToolFinish then EndTurn(text, history, scan.ending, streams[0].broken)
      else
        var turn := CompleteToolCall(client, scan.state);
        var extended := history + turn.appended;
        assert extended[|history|..] == turn.appended;
        if turn.ToolAbort? then
          Run(text + turn.reply, extended, Aborted(turn.reason))
        else
          var next := Process(client, extended, streams[1..]);
          assert next.history[..|history|] == extended[..|history|];
          Run(text + turn.reply + next.tokens, next.history, next.outcome)
  }

  /** The appended part of a turn without a tool call holds only assistant messages. */
  lemma AppendsWithoutToolCall(client: Client, history: seq<Message>, streams: seq<Stream>)
    requires streams != [] && ScanFrom(streams[0].parts, Fresh).ending != ToolFinish
    ensures AllByProcessor(Process(client, history, streams).history[|history|..])
  {
    var scan := ScanFrom(streams[0].parts, Fresh);
    assert Process(client, history, streams) == EndTurn(scan.state.collected, history, scan.ending, streams[0].broken);
  }

  /** An abandoned tool call leaves at most its assistant message behind. */
  lemma AppendsAbortedToolCall(client: Client, history: seq<Message>, streams: seq<Stream>)
    requires streams != [] && ScanFrom(streams[0].parts, Fresh).ending == ToolFinish
    requires CompleteToolCall(client, ScanFrom(streams[0].parts, Fresh).state).ToolAbort?
    ensures AllByProcessor(Process(client, history, streams).history[|history|..])
  {
    var turn := CompleteToolCall(client, ScanFrom(streams[0].parts, Fresh).state);
    assert Process(client, history, streams).history == history + turn.appended;
    assert (history + turn.appended)[|history|..] == turn.appended;
  }

  /** A completed tool call appends its two messages, then whatever the next stream appends. */
  lemma AppendsCompletedToolCall(client: Client, history: seq<Message>, streams: seq<Stream>)
    requires streams != [] && ScanFrom(streams[0].parts, Fresh).ending == ToolFinish
    requires CompleteToolCall(client, ScanFrom(streams[0].parts, Fresh).state).ToolDone?
    requires var extended := history + CompleteToolCall(client, ScanFrom(streams[0].parts, Fresh).state).appended;
             AllByProcessor(Process(client, extended, streams[1..]).history[|extended|..])
    ensures AllByProcessor(Process(client, history, streams).history[|history|..])
  {
    var turn := CompleteToolCall(client, ScanFrom(streams[0].parts, Fresh).state);
    var extended := history + turn.appended;
    var next := Process(client, extended, streams[1..]);
    assert Process(client, history, streams).history == next.history;
    SuffixAfterPrefix(next.history, history, turn.appended);
  }

  /** A sequence that starts with `a + b` continues, after `a`, with `b`. */
  lemma SuffixAfterPrefix<T>(s: seq<T>, a: seq<T>, b: seq<T>)
    requires |a + b| <= |s| && s[..|a + b|] == a + b
    ensures s[|a|..] == b + s[|a + b|..]
  {
    assert s == (a + b) + s[|a + b|..];
    assert s[|a|..] == (b + s[|a + b|..]);
  }

  /** Everything the processor appends to the history is an assistant or tool message. */
  lemma {:induction false} ProcessAppendsOnlyAssistantAndTool(client: Client, history: seq<Message>, streams: seq<Stream>)
    ensures AllByProcessor(Process(client, history, streams).history[|history|..])
    decreases |streams|
  {
    if streams == [] {
      assert Process(client, history, streams).history[|history|..] == [];
    } else {
      var scan := ScanFrom(streams[0].parts, Fresh);
      if scan.ending != ToolFinish {
        AppendsWithoutToolCall(client, history, streams);
      } else {
        var turn := CompleteToolCall(client, scan.state);
        if turn.ToolAbort? {
          AppendsAbortedToolCall(client, history, streams);
        } else {
          ProcessAppendsOnlyAssistantAndTool(client, history + turn.appended, streams[1..]);
          AppendsCompletedToolCall(client, history, streams);
        }
      }
    }
  }

  // ------------------------------------------------------------ turn endings

  /**
   * A stream that stops yields exactly its non-empty text deltas, in order,
   * and records one assistant message with their concatenation exactly when
   * that text is not all whitespace.
   */
  lemma StopRecordsText(client: Client, history: seq<Message>, streams: seq<Stream>)
    requires streams != [] && ScanFrom(streams[0].parts, Fresh).ending == StopFinish
    ensures var read := streams[0].parts[..ScanFrom(streams[0].parts, Fresh).used];
            var text := Concat(Contents(read));
            var r := Process(client, history, streams);
            && r.tokens == Contents(read)
            && r.outcome == Completed
            && (HasNonSpace(text) ==> r.history == history + [Assistant(text)])
            && (!HasNonSpace(text) ==> r.history == history)
  {
    var scan := ScanFrom(streams[0].parts, Fresh);
    ScanCollectsText(streams[0].parts, Fresh);
    assert scan.state.collected == Contents(streams[0].parts[..scan.used]);
    assert Process(client, history, streams) == Run(scan.state.collected, history + StopMessages(scan.state.collected), Completed);
    if scan.state.collected == [] {
      assert !HasNonSpace(Concat(scan.state.collected));
    }
  }

  /**
   * A stream that ends with no finish reason that applies (including a
   * "tool_calls" finish with no argument fragment) yields its text and leaves
   * the history unchanged.
   */
  lemma UnfinishedStreamKeepsHistory(client: Client, history: seq<Message>, streams: seq<Stream>)
    requires streams != [] && ScanFrom(streams[0].parts, Fresh).ending == Exhausted
    ensures var r := Process(client, history, streams);
            && r.tokens == Contents(streams[0].parts)
            && r.history == history
            && (r.outcome == Completed <==> !streams[0].broken)
  {
    ScanCollectsText(streams[0].parts, Fresh);
    assert streams[0].parts[..|streams[0].parts|] == streams[0].parts;
  }

  /** A "tool_calls" finish with no argument fragment so far does not end the turn. */
  lemma ToolFinishNeedsFragments(parts: seq<Part>)
    requires ScanFrom(parts, Fresh).ending == ToolFinish
    ensures Fragments(parts[..ScanFrom(parts, Fresh).used]) != ""
  {
    ScanSetsCollecting(parts, Fresh);
  }

  /**
   * When the arguments do not parse or name no registered tool, the turn is
   * abandoned before anything of the call is yielded or recorded, and no tool
   * runs: the run is the same whatever the registered tools would do.
   */
  lemma RejectedToolCallHasNoEffect(client: Client, other: map<string, Tools.Tool>, history: seq<Message>, streams: seq<Stream>)
    requires streams != [] && ScanFrom(streams[0].parts, Fresh).ending == ToolFinish
    requires other.Keys == client.registry.Keys
    requires var st := ScanFrom(streams[0].parts, Fresh).state;
             client.parse(st.args).None? || st.name !in client.registry
    ensures var st := ScanFrom(streams[0].parts, Fresh).state;
            var r := Process(client, history, streams);
            && r.tokens == st.collected
            && r.history == history
            && r.outcome == Aborted(if client.parse(st.args).None? then MalformedArguments else UnknownTool(st.name))
            && r == Process(client.(registry := other), history, streams)
  {
  }

  /**
   * A completed tool call yields the reply tokens after the turn's text, then
   * the next stream's output; it records the call (reply, id, name and the raw
   * argument string) and the tool's result under the same id, and nothing of
   * the text streamed before it.  The tool receives the parsed arguments with
   * `out_queue` set to the client's queue.  (What the turn's text, argument
   * string, name and id are is stated by ScanCollectsText,
   * ScanCollectsArguments, ScanSetsCollecting and ScanNamesLatest.)
   */
  lemma CompletedToolCallRecorded(client: Client, history: seq<Message>, streams: seq<Stream>,
                                  args: map<string, Value>, result: string)
    requires streams != [] && ScanFrom(streams[0].parts, Fresh).ending == ToolFinish
    requires var st := ScanFrom(streams[0].parts, Fresh).state;
             && client.parse(st.args) == Some(Object(args))
             && st.name in client.registry
             && (!Truthy(Get(args, "reply_to_customer")) || Get(args, "reply_to_customer").Str?)
             && client.registry[st.name](args["out_queue" := client.outQueue]) == Success(result)
    ensures var st := ScanFrom(streams[0].parts, Fresh).state;
            var reply := Get(args, "reply_to_customer");
            var next := Process(client, history + [AssistantToolCall(reply, ToolCall(st.id, st.name, st.args)),
                                                   ToolResult(st.id, st.name, result)], streams[1..]);
            Process(client, history, streams) == Run(st.collected + ReplyTokens(reply) + next.tokens, next.history, next.outcome)
  {
    CompleteToolCallSucceeds(client, ScanFrom(streams[0].parts, Fresh).state, args, result);
    ProcessAfterToolCall(client, history, streams);
  }

  /** The two messages a successful tool call records. */
  lemma CompleteToolCallSucceeds(client: Client, st: TurnState, args: map<string, Value>, result: string)
    requires client.parse(st.args) == Some(Object(args))
    requires st.name in client.registry
    requires !Truthy(Get(args, "reply_to_customer")) || Get(args, "reply_to_customer").Str?
    requires client.registry[st.name](args["out_queue" := client.outQueue]) == Success(result)
    ensures var reply := Get(args, "reply_to_customer");
            var call := AssistantToolCall(reply, ToolCall(st.id, st.name, st.args));
            CompleteToolCall(client, st) == ToolDone(ReplyTokens(reply), [call, ToolResult(st.id, st.name, result)])
  {
  }

  /** One unfolding of the processor after a completed tool call. */
  lemma ProcessAfterToolCall(client: Client, history: seq<Message>, streams: seq<Stream>)
    requires streams != [] && ScanFrom(streams[0].parts, Fresh).ending == ToolFinish
    requires CompleteToolCall(client, ScanFrom(streams[0].parts, Fresh).state).ToolDone?
    ensures var scan := ScanFrom(streams[0].parts, Fresh);
            var turn := CompleteToolCall(client, scan.state);
            var next := Process(client, history + turn.appended, streams[1..]);
            Process(client, history, streams) == Run(scan.state.collected + turn.reply + next.tokens, next.history, next.outcome)
  {
  }

  /**
   * A tool that raises ends the run: the reply has been yielded and the call
   * recorded, but no result is, and nothing further is streamed.
   */
  lemma ToolRaisedAborts(client: Client, history: seq<Message>, streams: seq<Stream>,
                         args: map<string, Value>, error: Tools.PyError)
    requires streams != [] && ScanFrom(streams[0].parts, Fresh).ending == ToolFinish
    requires var st := ScanFrom(streams[0].parts, Fresh).state;
             && client.parse(st.args) == Some(Object(args))
             && st.name in client.registry
             && (!Truthy(Get(args, "reply_to_customer")) || Get(args, "reply_to_customer").Str?)
             && client.registry[st.name](args["out_queue" := client.outQueue]) == Failure(error)
    ensures var st := ScanFrom(streams[0].parts, Fresh).state;
            var reply := Get(args, "reply_to_customer");
            var recorded := history + [AssistantToolCall(reply, ToolCall(st.id, st.name, st.args))];
            Process(client, history, streams) == Run(st.collected + ReplyTokens(reply), recorded, Aborted(ToolRaised(error)))
  {
  }

  /**
   * With the registry as written, any registered tool called with a
   * `reply_to_customer` argument aborts the run with a `TypeError`, after
   * the reply was spoken and the call recorded.
   */
  lemma ReplyAbortsAsWritten(client: Client, backends: Tools.Backends, history: seq<Message>, streams: seq<Stream>,
                             args: map<string, Value>)
    requires client.registry == Tools.RegistryAsWritten(backends)
    requires streams != [] && ScanFrom(streams[0].parts, Fresh).ending == ToolFinish
    requires var st := ScanFrom(streams[0].parts, Fresh).state;
             && client.parse(st.args) == Some(Object(args))
             && st.name in Tools.Mapping
             && "reply_to_customer" in args && args["reply_to_customer"].Str?
    ensures var st := ScanFrom(streams[0].parts, Fresh).state;
            var reply := args["reply_to_customer"];
            var recorded := history + [AssistantToolCall(reply, ToolCall(st.id, st.name, st.args))];
            Process(client, history, streams) == Run(st.collected + ReplyTokens(reply), recorded, Aborted(ToolRaised(Tools.TypeError)))
  {
    var st := ScanFrom(streams[0].parts, Fresh).state;
    Tools.ReplyBreaksRegistryAsWritten(backends, st.name, args["out_queue" := client.outQueue]);
    ToolRaisedAborts(client, history, streams, args, Tools.TypeError);
  }

  /** Once a part ends the turn, the rest of that stream is never read. */
  lemma ProcessIgnoresRestOfStream(client: Client, history: seq<Message>, parts: seq<Part>, rest: seq<Part>,
                                   broken1: bool, broken2: bool, later: seq<Stream>)
    requires ScanFrom(parts, Fresh).ending != Exhausted
    ensures Process(client, history, [Stream(parts + rest, broken1)] + later)
         == Process(client, history, [Stream(parts, broken2)] + later)
  {
    ScanIgnoresRest(parts, rest, Fresh);
    assert ([Stream(parts + rest, broken1)] + later)[1..] == later;
    assert ([Stream(parts, broken2)] + later)[1..] == later;
  }

  // ----------------------------------------------------------------- prelude

  /** The last user message of a turn: with an image part when a frame is given. */
  function FinalUser(input: string, frame: Option<string>): Message {
    if frame.Some? && frame.value != "" then User(WithImage(input, "data:image/jpeg;base64," + frame.value))
    else User(Plain(input))
  }

  /**
   * Lines 167-184.  The system message always heads the result.  An empty
   * history becomes system plus user.  Otherwise everything after the old
   * head is kept and the new user text ends the history twice: once from
   * the append on line 167, once from the append on line 173 or 184.
   */
  function Prelude(history: seq<Message>, input: string, systemPrompt: string, frame: Option<string>): (r: seq<Message>)
    ensures |r| >= 2 && r[0] == System(systemPrompt) && r[|r| - 1] == FinalUser(input, frame)
    ensures history == [] ==> r == [System(systemPrompt), FinalUser(input, frame)]
    ensures history != [] ==> |r| == |history| + 2 && r[1..|history|] == history[1..]
                              && r[|history|] == User(Plain(input))
  {
    var appended := history + [User(Plain(input))];
    var reseeded := [System(systemPrompt)] + appended[1..];
    assert history != [] ==> appended[1..] == history[1..] + [User(Plain(input))];
    reseeded + [FinalUser(input, frame)]
  }

  /** `generate_response`: the prelude, then the processor on the model's streams. */
  function GenerateResponse(client: Client, history: seq<Message>, input: string, systemPrompt: string,
                            frame: Option<string>, streams: seq<Stream>): (r: Run)
    ensures var start := Prelude(history, input, systemPrompt, frame);
            |start| <= |r.history| && r.history[..|start|] == start
  {
    Process(client, Prelude(history, input, systemPrompt, frame), streams)
  }
}
