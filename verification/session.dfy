/**
 * The backend's session bookkeeping: the `ConnectionManager` (open sockets,
 * per-client transcripts, recognizer handles), the per-call transcription
 * results, the current call connection id and the FIFO queue the speech
 * callbacks fill and a background loop drains.  Sockets are named by their
 * client id; sending is an oracle that says, attempt by attempt, whether the
 * send succeeded.
 */
module Session {
  import opened Wrappers
  import opened Json
  import opened Text

  /** One transcript line: `{"text", "speaker", "timestamp"}`. */
  datatype Entry = Entry(text: string, speaker: string, timestamp: int)

  /** The JSON messages the backend sends to its sockets. */
  datatype OutMsg =
    | Transcription(call: string, text: string, speaker: string)
    | CallStatus(status: string, callId: Value)
    | CallInitiated(callId: Value, to: Value, from: Value)
    | MediaStatus(status: string, callId: Value)
    | MediaFailed(callId: Value, error: Value)
    | AudioStream(call: string, sampleRate: Value, data: Value)
    | AgentAudio(encoded: string)
    | Transcriptions(forCall: Option<string>, entries: seq<Entry>)
    | TranscriptionCleared(call: string)
    | ErrorReport(message: string)
    | ClientDisconnected(clientId: string)

  /** Sockets opened by the media-streaming service are named `audio_<call id>`. */
  predicate IsAudio(id: string) {
    StartsWith(id, "audio_")
  }

  predicate Distinct<T(==)>(s: seq<T>) {
    forall i, j :: 0 <= i < j < |s| ==> s[i] != s[j]
  }

  /**
   * `ConnectionManager`: the keys of `active_connections` in insertion order,
   * the per-client transcripts, and the call ids holding a speech recognizer
   * and an audio input stream.
   */
  datatype Manager = Manager(active: seq<string>, transcriptions: map<string, seq<Entry>>,
                             recognizers: set<string>, audioStreams: set<string>)

  /** A queued broadcast: the message and the client ids it targets. */
  datatype Queued = Queued(message: OutMsg, targets: seq<string>)

  /**
   * The module-level state of the backend: the manager, `transcription_results`
   * per call, `call_connection_id` and the message queue.
   */
  datatype Server = Server(manager: Manager, results: map<string, seq<Entry>>, callConnection: Value, queue: seq<Queued>)

  /** A message delivered to one socket. */
  datatype Sent = Sent(to: string, message: OutMsg)

  /** `d.get(key, [])`. */
  function Lookup(d: map<string, seq<Entry>>, key: string): seq<Entry> {
    if key in d then d[key] else []
  }

  // ------------------------------------------------------------ connections

  /** `s` without `x`, the rest in order. */
  function Remove(s: seq<string>, x: string): (r: seq<string>)
    ensures forall y :: y in r <==> y in s && y != x
    ensures |r| <= |s|
  {
    if s == [] then []
    else if s[0] == x then Remove(s[1..], x)
    else [s[0]] + Remove(s[1..], x)
  }

  /** The ids of `s` that are not audio sockets, in order. */
  function NonAudio(s: seq<string>): (r: seq<string>)
    ensures forall y :: y in r <==> y in s && !IsAudio(y)
    ensures |r| <= |s|
  {
    if s == [] then []
    else if IsAudio(s[0]) then NonAudio(s[1..])
    else [s[0]] + NonAudio(s[1..])
  }

  /**
   * Lines 87-91.  The id becomes active (a reconnecting id keeps its place in
   * the order); a non-audio id gets a fresh empty transcript, an audio one
   * none.  Every other id's transcript is untouched.
   */
  function Connect(m: Manager, id: string): (r: Manager)
    ensures id in r.active && |m.active| <= |r.active| && r.active[..|m.active|] == m.active
    ensures forall x :: x in r.active <==> x in m.active || x == id
    ensures Distinct(m.active) ==> Distinct(r.active)
    ensures !IsAudio(id) ==> id in r.transcriptions && r.transcriptions[id] == []
    ensures IsAudio(id) ==> r.transcriptions == m.transcriptions
    ensures forall k :: k != id ==> (k in r.transcriptions <==> k in m.transcriptions)
    ensures forall k :: k != id && k in m.transcriptions ==> r.transcriptions[k] == m.transcriptions[k]
    ensures r.recognizers == m.recognizers && r.audioStreams == m.audioStreams
  {
    var active := if id in m.active then m.active else m.active + [id];
    assert active[..|m.active|] == m.active;
    m.(active := active,
       transcriptions := if IsAudio(id) then m.transcriptions else m.transcriptions[id := []])
  }

  /** `id[6:]` for an audio socket id: the call id. */
  function CallOf(id: string): string
    requires IsAudio(id)
  {
    id[6..]
  }

  /**
   * Lines 93-104.  The id is no longer active and has no transcript.  For an
   * audio id whose call holds a recognizer, the recognizer is stopped
   * (`stopped`) and both it and the call's audio stream are dropped; nothing
   * else changes.
   */
  function Disconnect(m: Manager, id: string): (r: (Manager, bool))
    ensures id !in r.0.active && id !in r.0.transcriptions
    ensures forall x :: x != id ==> (x in r.0.active <==> x in m.active)
    ensures forall k :: k != id && k in m.transcriptions ==> k in r.0.transcriptions && r.0.transcriptions[k] == m.transcriptions[k]
    ensures r.1 <==> IsAudio(id) && CallOf(id) in m.recognizers
    ensures r.1 ==> r.0.recognizers == m.recognizers - {CallOf(id)} && r.0.audioStreams == m.audioStreams - {CallOf(id)}
    ensures !r.1 ==> r.0.recognizers == m.recognizers && r.0.audioStreams == m.audioStreams
  {
    var kept := m.(active := Remove(m.active, id), transcriptions := m.transcriptions - {id});
    if IsAudio(id) && CallOf(id) in m.recognizers then
      (kept.(recognizers := m.recognizers - {CallOf(id)}, audioStreams := m.audioStreams - {CallOf(id)}), true)
    else (kept, false)
  }

  lemma {:induction false} RemoveTwice(s: seq<string>, x: string)
    ensures Remove(Remove(s, x), x) == Remove(s, x)
    decreases |s|
  {
    if s != [] {
      RemoveTwice(s[1..], x);
      if s[0] != x {
        assert ([s[0]] + Remove(s[1..], x))[1..] == Remove(s[1..], x);
      }
    }
  }

  /** Disconnecting twice is the same as once, and the second call stops nothing. */
  lemma DisconnectTwice(m: Manager, id: string)
    ensures Disconnect(Disconnect(m, id).0, id) == (Disconnect(m, id).0, false)
  {
    var once := Disconnect(m, id).0;
    RemoveTwice(m.active, id);
    assert once.transcriptions - {id} == once.transcriptions;
    assert !(IsAudio(id) && CallOf(id) in once.recognizers);
  }

  /** `get_connections_for_broadcast`: the active sockets that are not audio sockets, in order. */
  function ConnectionsForBroadcast(m: Manager): (r: seq<string>)
    ensures forall x :: x in r <==> x in m.active && !IsAudio(x)
  {
    NonAudio(m.active)
  }

  /** `get_transcriptions`: the client's transcript, or an empty one. */
  function GetTranscriptions(m: Manager, clientId: string): (r: seq<Entry>)
    ensures clientId !in m.transcriptions ==> r == []
    ensures clientId in m.transcriptions ==> r == m.transcriptions[clientId]
  {
    Lookup(m.transcriptions, clientId)
  }

  /** A connected agent starts with an empty transcript. */
  lemma ConnectedAgentHasEmptyTranscript(m: Manager, id: string)
    requires !IsAudio(id)
    ensures GetTranscriptions(Connect(m, id), id) == []
    ensures id in ConnectionsForBroadcast(Connect(m, id))
  {
  }

  /** An audio socket is never a broadcast target for transcriptions. */
  lemma AudioSocketNotTargeted(m: Manager, id: string)
    requires IsAudio(id)
    ensures id !in ConnectionsForBroadcast(Connect(m, id))
    ensures id in Connect(m, id).active
  {
  }

  // ---------------------------------------------------------- transcriptions

  /**
   * Lines 121-139.  One entry is appended to the call's result list (created
   * when absent) and to every tracked non-audio client's transcript; the
   * clock is read once, as `now`.
   */
  function AddTranscription(s: Server, callId: string, text: string, speaker: string, now: int): (r: Server)
    ensures callId in r.results && r.results[callId] == Lookup(s.results, callId) + [Entry(text, speaker, now)]
    ensures forall c :: c != callId ==> (c in r.results <==> c in s.results)
    ensures forall c :: c != callId && c in s.results ==> r.results[c] == s.results[c]
    ensures r.manager.transcriptions.Keys == s.manager.transcriptions.Keys
    ensures forall k :: k in s.manager.transcriptions && !IsAudio(k)
              ==> r.manager.transcriptions[k] == s.manager.transcriptions[k] + [Entry(text, speaker, now)]
    ensures forall k :: k in s.manager.transcriptions && IsAudio(k)
              ==> r.manager.transcriptions[k] == s.manager.transcriptions[k]
    ensures r.manager.active == s.manager.active && r.queue == s.queue && r.callConnection == s.callConnection
  {
    var entry := Entry(text, speaker, now);
    var ts := s.manager.transcriptions;
    s.(results := s.results[callId := Lookup(s.results, callId) + [entry]],
       manager := s.manager.(transcriptions := map k | k in ts :: if IsAudio(k) then ts[k] else ts[k] + [entry]))
  }

  /** A connected agent's transcript grows by exactly the new line; other clients' lookups are unaffected otherwise. */
  lemma AgentSeesNewLine(s: Server, callId: string, text: string, speaker: string, now: int, clientId: string)
    requires !IsAudio(clientId)
    ensures var r := AddTranscription(s, callId, text, speaker, now);
            (clientId in s.manager.transcriptions
             ==> GetTranscriptions(r.manager, clientId) == GetTranscriptions(s.manager, clientId) + [Entry(text, speaker, now)])
    ensures var r := AddTranscription(s, callId, text, speaker, now);
            clientId !in s.manager.transcriptions ==> GetTranscriptions(r.manager, clientId) == []
  {
  }

  /**
   * Lines 248-263, the definition in effect.  Empty text is dropped;
   * otherwise the line is added with its speaker and exactly one message is
   * queued, targeting the non-audio sockets active at that moment.
   */
  function OnRecognized(s: Server, callId: string, text: string, speaker: string, now: int): (r: Server)
    ensures text == "" ==> r == s
    ensures text != "" ==> && r.queue == s.queue + [Queued(Transcription(callId, text, speaker), ConnectionsForBroadcast(s.manager))]
                           && callId in r.results && r.results[callId] == Lookup(s.results, callId) + [Entry(text, speaker, now)]
                           && r.manager.active == s.manager.active
    ensures text != "" ==> r.manager.transcriptions.Keys == s.manager.transcriptions.Keys
    ensures text != "" ==> forall k :: k in s.manager.transcriptions && !IsAudio(k)
                             ==> r.manager.transcriptions[k] == s.manager.transcriptions[k] + [Entry(text, speaker, now)]
    ensures forall k :: k in s.manager.transcriptions && IsAudio(k)
              ==> r.manager.transcriptions[k] == s.manager.transcriptions[k]
    ensures forall c :: c != callId ==> (c in r.results <==> c in s.results)
    ensures forall c :: c != callId && c in s.results ==> r.results[c] == s.results[c]
    ensures r.callConnection == s.callConnection
  {
    if text == "" then s
    else
      var added := AddTranscription(s, callId, text, speaker, now);
      added.(queue := s.queue + [Queued(Transcription(callId, text, speaker), ConnectionsForBroadcast(s.manager))])
  }

  /**
   * A recognized line reaches a connected agent twice over: its transcript,
   * as `get_transcriptions` reports it, now ends with the line, and the one
   * message queued for the line targets it.
   */
  lemma RecognizedLineReachesAgent(s: Server, callId: string, text: string, speaker: string, now: int, clientId: string)
    requires text != "" && !IsAudio(clientId)
    requires clientId in s.manager.active && clientId in s.manager.transcriptions
    ensures var r := OnRecognized(s, callId, text, speaker, now);
            && GetTranscriptions(r.manager, clientId) == GetTranscriptions(s.manager, clientId) + [Entry(text, speaker, now)]
            && |r.queue| == |s.queue| + 1
            && r.queue[|s.queue|].message == Transcription(callId, text, speaker)
            && clientId in r.queue[|s.queue|].targets
  {
    var r := OnRecognized(s, callId, text, speaker, now);
    assert r.queue[|s.queue|] == Queued(Transcription(callId, text, speaker), ConnectionsForBroadcast(s.manager));
  }

  // --------------------------------------------------------------- delivery

  /**
   * Sending one message to each target in order; `ok[i]` says whether the
   * send to `targets[i]` succeeded.  A failed send is swallowed and the
   * remaining targets are still attempted.
   */
  function Deliver(targets: seq<string>, message: OutMsg, ok: seq<bool>): (r: seq<Sent>)
    requires |ok| == |targets|
    ensures |r| <= |targets|
    ensures forall d :: d in r ==> d.message == message && d.to in targets
  {
    if targets == [] then []
    else (if ok[0] then [Sent(targets[0], message)] else []) + Deliver(targets[1..], message, ok[1..])
  }

  /** A target receives the message exactly when one of its attempts succeeded. */
  lemma {:induction false} DeliverReaches(targets: seq<string>, message: OutMsg, ok: seq<bool>, to: string)
    requires |ok| == |targets|
    ensures Sent(to, message) in Deliver(targets, message, ok)
        <==> exists i :: 0 <= i < |targets| && targets[i] == to && ok[i]
    decreases |targets|
  {
    if targets != [] {
      DeliverReaches(targets[1..], message, ok[1..], to);
      if Sent(to, message) in Deliver(targets[1..], message, ok[1..]) {
        var i :| 0 <= i < |targets[1..]| && targets[1..][i] == to && ok[1..][i];
        assert targets[i + 1] == to && ok[i + 1];
      }
      if exists i :: 0 <= i < |targets| && targets[i] == to && ok[i] {
        var i :| 0 <= i < |targets| && targets[i] == to && ok[i];
        if i > 0 {
          assert targets[1..][i - 1] == to && ok[1..][i - 1];
        }
      }
    }
  }

  /**
   * Lines 106-115: `broadcast` attempts every active socket, audio sockets
   * included, in connection order.  The manager is not changed by it.
   */
  function Broadcast(m: Manager, message: OutMsg, ok: seq<bool>): (r: seq<Sent>)
    requires |ok| == |m.active|
    ensures forall d :: d in r ==> d.message == message && d.to in m.active
  {
    Deliver(m.active, message, ok)
  }

  /** Every active socket whose send succeeds gets the broadcast, audio sockets too; none other does. */
  lemma BroadcastReachesEverySocket(m: Manager, message: OutMsg, ok: seq<bool>, to: string)
    requires |ok| == |m.active|
    ensures Sent(to, message) in Broadcast(m, message, ok)
        <==> exists i :: 0 <= i < |m.active| && m.active[i] == to && ok[i]
  {
    DeliverReaches(m.active, message, ok, to);
  }

  /** One success flag per target of every queued message. */
  predicate Fits(queue: seq<Queued>, ok: seq<seq<bool>>) {
    |ok| == |queue| && forall i :: 0 <= i < |queue| ==> |ok[i]| == |queue[i].targets|
  }

  /** The messages the drain delivers: the queue's messages in FIFO order, each to its targets in order. */
  function Drain(queue: seq<Queued>, ok: seq<seq<bool>>): (r: seq<Sent>)
    requires Fits(queue, ok)
    decreases |queue|
  {
    if queue == [] then []
    else Deliver(queue[0].targets, queue[0].message, ok[0]) + Drain(queue[1..], ok[1..])
  }

  /** Draining two queues one after the other is draining their concatenation: messages leave in FIFO order. */
  lemma {:induction false} DrainAppend(q1: seq<Queued>, ok1: seq<seq<bool>>, q2: seq<Queued>, ok2: seq<seq<bool>>)
    requires Fits(q1, ok1) && Fits(q2, ok2)
    ensures Fits(q1 + q2, ok1 + ok2)
    ensures Drain(q1 + q2, ok1 + ok2) == Drain(q1, ok1) + Drain(q2, ok2)
    decreases |q1|
  {
    assert Fits(q1 + q2, ok1 + ok2) by {
      forall i | 0 <= i < |q1 + q2|
        ensures |(ok1 + ok2)[i]| == |(q1 + q2)[i].targets|
      {
        if i >= |q1| {
          assert (ok1 + ok2)[i] == ok2[i - |q1|] && (q1 + q2)[i] == q2[i - |q1|];
        }
      }
    }
    if q1 == [] {
      assert q1 + q2 == q2 && ok1 + ok2 == ok2;
    } else {
      assert (q1 + q2)[1..] == q1[1..] + q2 && (ok1 + ok2)[1..] == ok1[1..] + ok2;
      assert Fits(q1[1..], ok1[1..]) by {
        forall i | 0 <= i < |q1[1..]|
          ensures |ok1[1..][i]| == |q1[1..][i].targets|
        {
          assert ok1[1..][i] == ok1[i + 1] && q1[1..][i] == q1[i + 1];
        }
      }
      DrainAppend(q1[1..], ok1[1..], q2, ok2);
    }
  }

  /**
   * Lines 571-583, `process_message_queue` run until the queue is empty: it
   * takes the messages in FIFO order and sends each to its targets, a failed
   * send not stopping the others.
   */
  method ProcessMessageQueue(queue: seq<Queued>, ok: seq<seq<bool>>) returns (sent: seq<Sent>)
    requires Fits(queue, ok)
    ensures sent == Drain(queue, ok)
  {
    sent := [];
    var i := 0;
    while i < |queue|
      invariant 0 <= i <= |queue|
      invariant Fits(queue[..i], ok[..i])
      invariant sent == Drain(queue[..i], ok[..i])
    {
      var one := Deliver(queue[i].targets, queue[i].message, ok[i]);
      assert Fits([queue[i]], [ok[i]]);
      assert Drain([queue[i]], [ok[i]]) == one + Drain([], []);
      DrainAppend(queue[..i], ok[..i], [queue[i]], [ok[i]]);
      assert queue[..i + 1] == queue[..i] + [queue[i]] && ok[..i + 1] == ok[..i] + [ok[i]];
      sent := sent + one;
      i := i + 1;
    }
    assert queue[..i] == queue && ok[..i] == ok;
  }
}
