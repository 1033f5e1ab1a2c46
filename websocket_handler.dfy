/** The WebSocket conversation loop of the conversation backend
    (`app/api/websocket_handler.py`). The client streams 16 kHz PCM audio as
    binary frames into a bounded buffer and sends JSON control frames;
    "end_of_speech" runs one speech-to-text, chat, text-to-speech turn on the
    buffered audio. The connection is an abstract trace of incoming frames (its
    end is the disconnect) and the frames sent back form an outgoing log. The
    speech-to-text service, the Ollama client and the speech synthesiser are
    parameters, and so is `json.loads`: each text frame carries its decoding. */
module WebSocketHandler {
  import opened Wrappers
  import opened Text
  import opened ChatService

  /** 30 seconds of 16 kHz, 16-bit mono audio. */
  const MAX_AUDIO_BUFFER: nat := 16000 * 2 * 30

  lemma MaxAudioBufferValue()
    ensures MAX_AUDIO_BUFFER == 960000
  {
  }

  /** What `json.loads` made of a text frame: a decoding error, a JSON value
      that is not an object (its Python type name), or an object together with
      the `str` of its "type" entry ("" when the key is missing). */
  datatype Control = InvalidJson | NotAnObject(typeName: string) | JsonObject(msgType: string)

  datatype Incoming = Binary(data: seq<byte>) | TextFrame(text: string, parsed: Control)

  datatype Outgoing =
    | Transcript(text: string)
    | Response(text: string)
    | Audio(wav: seq<byte>)
    | AudioComplete
    | ResetAck
    | ErrorMsg(error: string)

  /** The three services a turn calls, each returning its result or the text
      of the exception it raised. */
  datatype Services = Services(
    stt: seq<byte> -> Result<string, string>,
    llm: ChatClient,
    tts: string -> Result<seq<byte>, string>)

  /** The connection's state: the audio buffer, the chat history, everything
      sent so far, and whether the loop is still running. */
  datatype Session = Session(buffer: seq<byte>, history: seq<ChatMessage>, sent: seq<Outgoing>, open: bool)

  function Initial(): Session {
    Session([], [], [], true)
  }

  /** The four ways a turn can go: rejected before any stage, or stopped at
      the chat stage, or at the speech stage, or complete. */
  predicate TurnShape(out: seq<Outgoing>) {
    || (|out| == 1 && out[0].ErrorMsg?)
    || (|out| == 2 && out[0].Transcript? && out[1].ErrorMsg?)
    || (|out| == 3 && out[0].Transcript? && out[1].Response? && out[2].ErrorMsg?)
    || (|out| == 4 && out[0].Transcript? && out[1].Response? && out[2].Audio? && out[3] == AudioComplete)
  }

  /** The part of `_process_turn` after a non-blank transcript: the chat
      stage, then the speech stage. */
  function Respond(model: string, history: seq<ChatMessage>, userText: string, svc: Services)
    : (r: (seq<ChatMessage>, seq<Outgoing>))
    ensures 2 <= |r.1| <= 4 && TurnShape(r.1) && r.1[0] == Transcript(userText)
    ensures |history| < |r.0| && r.0[..|history|] == history
  {
    var (h, reply) := ChatTurn(model, history, userText, svc.llm);
    match reply
    case Err(e) => (h, [Transcript(userText), ErrorMsg("Chat failed: " + e)])
    case Ok(aiText) =>
      match svc.tts(aiText)
      case Err(e) => (h, [Transcript(userText), Response(aiText), ErrorMsg("Speech generation failed: " + e)])
      case Ok(wav) => (h, [Transcript(userText), Response(aiText), Audio(wav), AudioComplete])
  }

  /** `_process_turn(audio_bytes)`: the new history and the frames sent. */
  function Turn(model: string, history: seq<ChatMessage>, audio: seq<byte>, svc: Services)
    : (r: (seq<ChatMessage>, seq<Outgoing>))
    ensures TurnShape(r.1)
    ensures |r.1| == 1 ==> r.0 == history
    ensures |r.1| > 1 ==> |history| < |r.0| && r.0[..|history|] == history
  {
    if audio == [] then (history, [ErrorMsg("No audio data received")])
    else
      var transcription := svc.stt(audio);
      if transcription.Err? then (history, [ErrorMsg("Transcription failed: " + transcription.error)])
      else if Strip(transcription.value) == [] then (history, [ErrorMsg("Could not transcribe audio")])
      else Respond(model, history, transcription.value, svc)
  }

  /** The stages of a turn run in order, each on the previous one's result. */
  lemma TurnStages(model: string, history: seq<ChatMessage>, audio: seq<byte>, svc: Services)
    ensures var r := Turn(model, history, audio, svc);
            // Empty audio, a failed or blank transcription: one error, no later stage.
            (audio == [] || svc.stt(audio).Err? || Strip(svc.stt(audio).value) == [])
            <==> (|r.1| == 1 && r.0 == history)
    ensures var r := Turn(model, history, audio, svc);
            // The transcript is sent as soon as it is known, and only a sent transcript reaches the chat.
            |r.1| > 1 ==> r.1[0] == Transcript(svc.stt(audio).value) && Strip(svc.stt(audio).value) != []
                          && r.0[..|history| + 1] == history + [ChatMessage(User, svc.stt(audio).value)]
    ensures var r := Turn(model, history, audio, svc);
            // The reply sent is the model's answer, which is also appended to the history.
            |r.1| > 2 ==> |r.0| == |history| + 2 && r.1[1] == Response(r.0[|history| + 1].content)
                          && r.0[|history| + 1].role == Assistant
    ensures var r := Turn(model, history, audio, svc);
            // The audio sent is the synthesis of that reply.
            |r.1| == 4 ==> r.1[2] == Audio(svc.tts(r.1[1].text).value)
    ensures var r := Turn(model, history, audio, svc);
            |r.1| == 2 ==> |r.0| == |history| + 1
  {
    if audio != [] && svc.stt(audio).Ok? && Strip(svc.stt(audio).value) != [] {
      var userText := svc.stt(audio).value;
      var (h, reply) := ChatTurn(model, history, userText, svc.llm);
      assert h[..|history| + 1] == history + [ChatMessage(User, userText)];
    }
  }

  /** One iteration of the `while True` loop of `handle_conversation`. */
  function Step(model: string, s: Session, m: Incoming, svc: Services): (r: Session)
    ensures |s.buffer| <= MAX_AUDIO_BUFFER ==> |r.buffer| <= MAX_AUDIO_BUFFER
    ensures s.sent <= r.sent
    ensures !s.open ==> r == s
    ensures r.open ==> s.open
    // Empty frames are ignored.
    ensures (m == Binary([]) || (m.TextFrame? && m.text == [])) ==> r == s
    // A chunk that fits is appended; one that would overflow clears the buffer and reports one error.
    ensures s.open && m.Binary? && m.data != [] && |s.buffer| + |m.data| <= MAX_AUDIO_BUFFER
            ==> r == s.(buffer := s.buffer + m.data)
    ensures s.open && m.Binary? && m.data != [] && |s.buffer| + |m.data| > MAX_AUDIO_BUFFER
            ==> r == s.(buffer := [], sent := s.sent + [ErrorMsg("Audio buffer full (max 30s)")])
    // Undecodable JSON and unknown types: exactly one error, nothing else changes.
    ensures s.open && m.TextFrame? && m.text != [] && (m.parsed.InvalidJson? || (m.parsed.JsonObject? && m.parsed.msgType !in {"end_of_speech", "reset"}))
            ==> r.buffer == s.buffer && r.history == s.history && r.open
                && |r.sent| == |s.sent| + 1 && r.sent[|s.sent|].ErrorMsg?
    // A JSON value that is not an object raises in `data.get`: one error, and the loop ends.
    ensures s.open && m.TextFrame? && m.text != [] && m.parsed.NotAnObject?
            ==> !r.open && |r.sent| == |s.sent| + 1 && r.sent[|s.sent|].ErrorMsg?
    // "end_of_speech" runs a turn on the buffered audio, then empties the buffer.
    ensures s.open && m.TextFrame? && m.text != [] && m.parsed == JsonObject("end_of_speech")
            ==> r.buffer == [] && r.open && (r.history, r.sent[|s.sent|..]) == Turn(model, s.history, s.buffer, svc)
    // "reset" clears the history and the buffer, then acknowledges.
    ensures s.open && m.TextFrame? && m.text != [] && m.parsed == JsonObject("reset")
            ==> r == Session([], [], s.sent + [ResetAck], true)
  {
    if !s.open then s
    else
      match m
      case Binary(chunk) =>
        if chunk == [] then s
        else if |s.buffer| + |chunk| <= MAX_AUDIO_BUFFER then s.(buffer := s.buffer + chunk)
        else s.(buffer := [], sent := s.sent + [ErrorMsg("Audio buffer full (max 30s)")])
      case TextFrame(text, parsed) =>
        if text == [] then s
        else
          match parsed
          case InvalidJson => s.(sent := s.sent + [ErrorMsg("Invalid JSON")])
          case NotAnObject(typeName) =>
            s.(sent := s.sent + [ErrorMsg("'" + typeName + "' object has no attribute 'get'")], open := false)
          case JsonObject(msgType) =>
            if msgType == "end_of_speech" then
              var (h, out) := Turn(model, s.history, s.buffer, svc);
              assert (s.sent + out)[|s.sent|..] == out;
              s.(buffer := [], history := h, sent := s.sent + out)
            else if msgType == "reset" then
              s.(buffer := [], history := [], sent := s.sent + [ResetAck])
            else
              s.(sent := s.sent + [ErrorMsg("Unknown message type: " + msgType)])
  }

  /** The loop over the whole trace; it stops early once the session has
      ended. */
  function Run(model: string, s: Session, trace: seq<Incoming>, svc: Services): Session
    decreases |trace|
  {
    if trace == [] || !s.open then s
    else Run(model, Step(model, s, trace[0], svc), trace[1..], svc)
  }

  /** The audio buffer never holds more than `MAX_AUDIO_BUFFER` bytes. */
  lemma {:induction false} BufferNeverExceedsMax(model: string, s: Session, trace: seq<Incoming>, svc: Services)
    requires |s.buffer| <= MAX_AUDIO_BUFFER
    ensures |Run(model, s, trace, svc).buffer| <= MAX_AUDIO_BUFFER
    decreases |trace|
  {
    if trace != [] && s.open {
      BufferNeverExceedsMax(model, Step(model, s, trace[0], svc), trace[1..], svc);
    }
  }

  /** Frames are only ever appended to the outgoing log. */
  lemma {:induction false} SentOnlyGrows(model: string, s: Session, trace: seq<Incoming>, svc: Services)
    ensures s.sent <= Run(model, s, trace, svc).sent
    decreases |trace|
  {
    if trace != [] && s.open {
      SentOnlyGrows(model, Step(model, s, trace[0], svc), trace[1..], svc);
    }
  }

  /** Splitting the trace splits the run. */
  lemma {:induction false} RunAppend(model: string, s: Session, t1: seq<Incoming>, t2: seq<Incoming>, svc: Services)
    ensures Run(model, s, t1 + t2, svc) == Run(model, Run(model, s, t1, svc), t2, svc)
    decreases |t1|
  {
    if t1 == [] {
      assert t1 + t2 == t2;
    } else if s.open {
      assert (t1 + t2)[1..] == t1[1..] + t2;
      RunAppend(model, Step(model, s, t1[0], svc), t1[1..], t2, svc);
    } else {
      assert Run(model, s, t2, svc) == s by {
        if t2 != [] { assert !s.open; }
      }
    }
  }

  /** A trace made only of non-empty audio frames that fit causes no reply. */
  lemma {:induction false} AudioOnlyIsSilent(model: string, s: Session, trace: seq<Incoming>, svc: Services)
    requires s.open
    requires forall i :: 0 <= i < |trace| ==> trace[i].Binary?
    requires |s.buffer| + SumLengths(trace) <= MAX_AUDIO_BUFFER
    ensures Run(model, s, trace, svc).sent == s.sent
    ensures Run(model, s, trace, svc).buffer == s.buffer + Concat(trace)
    decreases |trace|
  {
    if trace != [] {
      var s' := Step(model, s, trace[0], svc);
      assert s'.buffer == s.buffer + trace[0].data && s'.sent == s.sent && s'.open;
      assert forall i :: 0 <= i < |trace[1..]| ==> trace[1..][i] == trace[i + 1];
      AudioOnlyIsSilent(model, s', trace[1..], svc);
      assert s.buffer + Concat(trace) == s.buffer + trace[0].data + Concat(trace[1..]);
    }
  }

  function SumLengths(trace: seq<Incoming>): nat
    requires forall i :: 0 <= i < |trace| ==> trace[i].Binary?
  {
    if trace == [] then 0 else |trace[0].data| + SumLengths(trace[1..])
  }

  function Concat(trace: seq<Incoming>): seq<byte>
    requires forall i :: 0 <= i < |trace| ==> trace[i].Binary?
  {
    if trace == [] then [] else trace[0].data + Concat(trace[1..])
  }

  /** `_process_turn`, with its early returns. */
  method ProcessTurn(chat: ChatService, audio: seq<byte>, svc: Services) returns (out: seq<Outgoing>)
    modifies chat
    ensures (chat.history, out) == Turn(chat.model, old(chat.history), audio, svc)
  {
    if audio == [] {
      out := [ErrorMsg("No audio data received")];
      return;
    }
    var transcription := svc.stt(audio);
    if transcription.Err? {
      out := [ErrorMsg("Transcription failed: " + transcription.error)];
      return;
    }
    var userText := transcription.value;
    if Strip(userText) == [] {
      out := [ErrorMsg("Could not transcribe audio")];
      return;
    }
    out := RespondStages(chat, userText, svc);
  }

  /** The chat and speech stages of `_process_turn`, each frame sent as soon
      as its stage is done. */
  method RespondStages(chat: ChatService, userText: string, svc: Services) returns (out: seq<Outgoing>)
    modifies chat
    ensures (chat.history, out) == Respond(chat.model, old(chat.history), userText, svc)
  {
    out := [Transcript(userText)];
    var reply := chat.Chat(userText, svc.llm);
    if reply.Err? {
      out := out + [ErrorMsg("Chat failed: " + reply.error)];
      assert out == [Transcript(userText), ErrorMsg("Chat failed: " + reply.error)];
      return;
    }
    out := out + [Response(reply.value)];
    var wav := svc.tts(reply.value);
    if wav.Err? {
      out := out + [ErrorMsg("Speech generation failed: " + wav.error)];
      assert out == [Transcript(userText), Response(reply.value), ErrorMsg("Speech generation failed: " + wav.error)];
      return;
    }
    out := out + [Audio(wav.value), AudioComplete];
    assert out == [Transcript(userText), Response(reply.value), Audio(wav.value), AudioComplete];
  }

  /** `handle_conversation`: a fresh chat service configured from the
      environment, an empty buffer, and the receive loop over the trace. */
  method HandleConversation(trace: seq<Incoming>, svc: Services, envModel: Option<string>, envBaseUrl: Option<string>)
    returns (sent: seq<Outgoing>)
    ensures sent == Run(envModel.GetOr(DEFAULT_MODEL), Initial(), trace, svc).sent
  {
    var chat := new ChatService(envModel, envBaseUrl);
    var model := chat.model;
    var buffer: seq<byte> := [];
    sent := [];
    var open := true;
    var i := 0;
    while i < |trace| && open
      invariant 0 <= i <= |trace|
      invariant chat.model == model
      invariant Run(model, Initial(), trace, svc) == Run(model, Session(buffer, chat.history, sent, open), trace[i..], svc)
      decreases |trace| - i
    {
      ghost var before := Session(buffer, chat.history, sent, open);
      assert trace[i..][1..] == trace[i + 1..];
      match trace[i] {
      case Binary(chunk) =>
        if chunk != [] {
          if |buffer| + |chunk| <= MAX_AUDIO_BUFFER {
            buffer := buffer + chunk;
          } else {
            sent := sent + [ErrorMsg("Audio buffer full (max 30s)")];
            buffer := [];
          }
        }
      case TextFrame(text, parsed) =>
        if text != [] {
          match parsed {
          case InvalidJson =>
            sent := sent + [ErrorMsg("Invalid JSON")];
          case NotAnObject(typeName) =>
            sent := sent + [ErrorMsg("'" + typeName + "' object has no attribute 'get'")];
            open := false;
          case JsonObject(msgType) =>
            if msgType == "end_of_speech" {
              var out := ProcessTurn(chat, buffer, svc);
              sent := sent + out;
              buffer := [];
            } else if msgType == "reset" {
              chat.Reset();
              buffer := [];
              sent := sent + [ResetAck];
            } else {
              sent := sent + [ErrorMsg("Unknown message type: " + msgType)];
            }
          }
        }
      }
      assert Session(buffer, chat.history, sent, open) == Step(model, before, trace[i], svc);
      i := i + 1;
    }
  }
}
