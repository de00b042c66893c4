/**
 * The media-streaming socket of one call: the loop that reads frames, keeps
 * the announced sample rate, relays customer audio as base64 text and agent
 * audio as raw chunks, and stops on disconnect or on any exception.  Writes
 * into the speech recognizers' input streams are effects; JSON parsing has
 * already happened (a text frame carries its parsed control message, or None
 * when it is not JSON).
 */
module AudioSocket {
  import opened Wrappers
  import opened Json
  import opened Session
  import Base64

  /**
   * A parsed control message: not a dict, or a dict with its "kind", its
   * `audioMetadata.sampleRate` and its `audioData.data` (None when that path
   * is missing or not subscriptable).
   */
  datatype Control = NotADict | Dict(kind: Value, sampleRate: Option<Value>, data: Option<Value>)

  /** A message from `websocket.receive()`. */
  datatype Frame =
    | TextFrame(control: Option<Control>)
    | BinaryFrame(chunk: seq<Base64.byte>)
    | DisconnectFrame
    | UnknownFrame

  /** What the loop does to the outside: a broadcast, or a write into the agent or customer recognizer stream. */
  datatype Effect = Broadcast(message: OutMsg) | WriteAgent(chunk: seq<Base64.byte>) | WriteCustomer(chunk: seq<Base64.byte>)

  /** Why the loop stopped: frames still to come, a disconnect message, or an exception. */
  datatype Stop = Open | Disconnected | Failed

  /** One step: the sample rate afterwards, the effects, and whether the loop goes on. */
  datatype Step = Step(rate: Option<Value>, effects: seq<Effect>, stop: Stop)

  /**
   * Lines 527-561, one frame.  `rate` is the local `sample_rate`, unbound
   * (None) until a metadata frame sets it.
   */
  function StepOf(callId: string, rate: Option<Value>, frame: Frame): (r: Step)
    ensures r.stop == Open ==> (r.rate == rate || frame.TextFrame?)
    ensures |r.effects| <= 2
  {
    match frame
    case TextFrame(None) => Step(rate, [], Open)
    case TextFrame(Some(NotADict)) => Step(rate, [], Failed)
    case TextFrame(Some(Dict(kind, sampleRate, data))) =>
      if kind == Str("AudioMetadata") then
        (if sampleRate.Some? then Step(sampleRate, [], Open) else Step(rate, [], Failed))
      else if kind == Str("AudioData") then
        if rate.None? || data.None? then Step(rate, [], Failed)
        else
          var announce := Broadcast(AudioStream(callId, rate.value, data.value));
          var decoded := if data.value.Str? then Base64.Decode(data.value.s) else None;
          if decoded.None? then Step(rate, [announce], Failed)
          else Step(rate, [announce, WriteCustomer(decoded.value)], Open)
      else Step(rate, [], Open)
    case BinaryFrame(chunk) => Step(rate, [WriteAgent(chunk), Broadcast(AgentAudio(Base64.Encode(chunk)))], Open)
    case DisconnectFrame => Step(rate, [], Disconnected)
    case UnknownFrame => Step(rate, [], Open)
  }

  /** The loop's effect: everything it did, why it stopped, and how many frames it read. */
  datatype AudioRun = AudioRun(effects: seq<Effect>, stop: Stop, read: nat)

  /** The receive loop over the frames that arrive, from the rate `rate`. */
  function Dispatch(callId: string, rate: Option<Value>, frames: seq<Frame>): (r: AudioRun)
    ensures r.read <= |frames|
    ensures r.stop == Open ==> r.read == |frames|
    ensures frames != [] ==> r.read >= 1
    ensures frames != [] && StepOf(callId, rate, frames[0]).stop != Open ==> r.read == 1 && r.stop == StepOf(callId, rate, frames[0]).stop
    decreases |frames|
  {
    if frames == [] then AudioRun([], Open, 0)
    else
      var step := StepOf(callId, rate, frames[0]);
      if step.stop != Open then AudioRun(step.effects, step.stop, 1)
      else
        var rest := Dispatch(callId, step.rate, frames[1..]);
        AudioRun(step.effects + rest.effects, rest.stop, rest.read + 1)
  }

  /** Lines 518-521: the socket of call `callId` is the `audio_`-prefixed client; the loop starts with no sample rate. */
  function AudioSession(m: Manager, callId: string, frames: seq<Frame>): (Manager, AudioRun) {
    (Connect(m, "audio_" + callId), Dispatch(callId, None, frames))
  }

  // --------------------------------------------------------------- properties

  /** Once the loop has stopped, later frames are never read. */
  lemma {:induction false} StoppedIgnoresLaterFrames(callId: string, rate: Option<Value>, frames: seq<Frame>, later: seq<Frame>)
    requires Dispatch(callId, rate, frames).stop != Open
    ensures Dispatch(callId, rate, frames + later) == Dispatch(callId, rate, frames)
    decreases |frames|
  {
    var step := StepOf(callId, rate, frames[0]);
    assert (frames + later)[0] == frames[0];
    if step.stop == Open {
      assert (frames + later)[1..] == frames[1..] + later;
      StoppedIgnoresLaterFrames(callId, step.rate, frames[1..], later);
    }
  }

  /** Non-JSON text is skipped without effect, the loop going on with the same rate. */
  lemma NonJsonSkipped(callId: string, rate: Option<Value>, rest: seq<Frame>)
    ensures var r := Dispatch(callId, rate, rest);
            Dispatch(callId, rate, [TextFrame(None)] + rest) == AudioRun(r.effects, r.stop, r.read + 1)
  {
    assert ([TextFrame(None)] + rest)[1..] == rest;
  }

  /**
   * Audio data before any metadata stops the loop: reading the unbound sample
   * rate raises before anything is broadcast.
   */
  lemma DataBeforeMetadataFails(callId: string, sampleRate: Option<Value>, data: Option<Value>, rest: seq<Frame>)
    ensures Dispatch(callId, None, [TextFrame(Some(Dict(Str("AudioData"), sampleRate, data)))] + rest)
         == AudioRun([], Failed, 1)
  {
  }

  /**
   * Metadata then customer audio: the base64 text is broadcast verbatim with
   * the announced rate, then its decoding, the original bytes, is written to
   * the customer stream.
   */
  lemma MetadataThenData(callId: string, sampleRate: Value, chunk: seq<Base64.byte>, data: Option<Value>)
    ensures var meta := TextFrame(Some(Dict(Str("AudioMetadata"), Some(sampleRate), data)));
            var audio := TextFrame(Some(Dict(Str("AudioData"), None, Some(Str(Base64.Encode(chunk))))));
            var announce := Broadcast(AudioStream(callId, sampleRate, Str(Base64.Encode(chunk))));
            Dispatch(callId, None, [meta, audio]) == AudioRun([announce, WriteCustomer(chunk)], Open, 2)
  {
    Base64.DecodeEncode(chunk);
    var meta := TextFrame(Some(Dict(Str("AudioMetadata"), Some(sampleRate), data)));
    var audio := TextFrame(Some(Dict(Str("AudioData"), None, Some(Str(Base64.Encode(chunk))))));
    var announce := Broadcast(AudioStream(callId, sampleRate, Str(Base64.Encode(chunk))));
    assert StepOf(callId, Some(sampleRate), audio) == Step(Some(sampleRate), [announce, WriteCustomer(chunk)], Open);
    assert [meta, audio][1..] == [audio] && [audio][1..] == [];
    assert Dispatch(callId, Some(sampleRate), [audio]) == AudioRun([announce, WriteCustomer(chunk)], Open, 1);
  }

  /**
   * Customer audio whose text is not base64 is still broadcast, once; the
   * decoding then raises and the loop stops without writing.
   */
  lemma UndecodableDataBroadcastThenFails(callId: string, rate: Value, text: string, rest: seq<Frame>)
    requires Base64.Decode(text).None?
    ensures Dispatch(callId, Some(rate), [TextFrame(Some(Dict(Str("AudioData"), None, Some(Str(text)))))] + rest)
         == AudioRun([Broadcast(AudioStream(callId, rate, Str(text)))], Failed, 1)
  {
  }

  /**
   * An agent chunk is written to the agent stream, then broadcast as its
   * base64 encoding, text that decodes back to the same bytes.
   */
  lemma AgentChunkRelayed(callId: string, rate: Option<Value>, chunk: seq<Base64.byte>, rest: seq<Frame>)
    ensures var r := Dispatch(callId, rate, [BinaryFrame(chunk)] + rest);
            && |r.effects| >= 2
            && r.effects[0] == WriteAgent(chunk)
            && r.effects[1].Broadcast? && r.effects[1].message.AgentAudio?
            && r.effects[1].message.encoded == Base64.Encode(chunk)
            && Base64.Decode(r.effects[1].message.encoded) == Some(chunk)
  {
    Base64.DecodeEncode(chunk);
    assert ([BinaryFrame(chunk)] + rest)[1..] == rest;
  }

  /**
   * Every write to the customer stream follows immediately on the broadcast of
   * a base64 text that decodes to exactly the bytes written.
   */
  predicate CustomerWritesAnnounced(callId: string, effects: seq<Effect>) {
    forall i :: 0 <= i < |effects| && effects[i].WriteCustomer? ==>
      && i > 0
      && effects[i - 1].Broadcast?
      && effects[i - 1].message.AudioStream?
      && effects[i - 1].message.call == callId
      && effects[i - 1].message.data.Str?
      && Base64.Decode(effects[i - 1].message.data.s) == Some(effects[i].chunk)
  }

  lemma StepAnnounces(callId: string, rate: Option<Value>, frame: Frame)
    ensures CustomerWritesAnnounced(callId, StepOf(callId, rate, frame).effects)
    ensures forall e :: e in StepOf(callId, rate, frame).effects && e.WriteCustomer? ==> StepOf(callId, rate, frame).effects[0].Broadcast?
  {
  }

  lemma {:induction false} DispatchAnnouncesCustomerWrites(callId: string, rate: Option<Value>, frames: seq<Frame>)
    ensures CustomerWritesAnnounced(callId, Dispatch(callId, rate, frames).effects)
    decreases |frames|
  {
    if frames != [] {
      var step := StepOf(callId, rate, frames[0]);
      StepAnnounces(callId, rate, frames[0]);
      if step.stop == Open {
        DispatchAnnouncesCustomerWrites(callId, step.rate, frames[1..]);
        var rest := Dispatch(callId, step.rate, frames[1..]);
        var all := step.effects + rest.effects;
        forall i | 0 <= i < |all| && all[i].WriteCustomer?
          ensures i > 0 && all[i - 1].Broadcast? && all[i - 1].message.AudioStream? && all[i - 1].message.call == callId
                  && all[i - 1].message.data.Str? && Base64.Decode(all[i - 1].message.data.s) == Some(all[i].chunk)
        {
          if i >= |step.effects| {
            var k := i - |step.effects|;
            assert all[i] == rest.effects[k];
            assert all[i - 1] == rest.effects[k - 1];
          }
        }
      }
    }
  }
}
