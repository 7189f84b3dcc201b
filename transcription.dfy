/**
 * The realtime transcription session: the state machine behind the socket's
 * message, error and open handlers, `start`'s reset and failure paths, `stop`
 * and `cleanup`. The microphone, the audio worklet, the socket and the token
 * request are reduced to four handles and to the outcomes they report.
 */
module Transcription {
  import opened Wrappers
  import opened Text

  /** `TranscriptionStatus` */
  datatype Status = Idle | Connecting | Listening | Speaking | Error

  /** `TranscriptEntry`; the timestamp is `Date.now()` at arrival, given by the caller. */
  datatype TranscriptEntry = TranscriptEntry(id: string, text: string, timestamp: int)

  /**
   * `RTServerEvent`, plus any other `type` the server may send; a message that is
   * not valid JSON is `None` where a message is expected.
   */
  datatype ServerEvent =
    | SessionCreated(sessionId: string)
    | SessionUpdated(sessionId: string)
    | SpeechStarted
    | SpeechStopped
    | TranscriptDelta(delta: string, deltaItemId: string)
    | TranscriptCompleted(transcript: string, itemId: string)
    | ApiError(errorMessage: string)
    | OtherEvent(eventType: string)

  /** Which of the four refs (worklet node, audio context, media stream, socket) are held. */
  datatype Handles = Handles(worklet: bool, audioContext: bool, stream: bool, socket: bool)

  const Released := Handles(false, false, false, false)

  /**
   * The session's observable state; `utterances` are the texts passed to
   * `onUtteranceComplete`, in call order.
   */
  datatype SessionView = SessionView(
    status: Status,
    transcripts: seq<TranscriptEntry>,
    currentDelta: string,
    error: Option<string>,
    utterances: seq<string>,
    handles: Handles)

  const SocketErrorMessage := "WebSocket 연결 오류가 발생했습니다."
  const TokenFailedMessage := "토큰 발급에 실패했습니다."
  const TokenEmptyMessage := "토큰이 비어있습니다."
  const UnknownErrorMessage := "알 수 없는 오류가 발생했습니다."

  // ---------------------------------------------------------------------------
  // The message handler
  // ---------------------------------------------------------------------------

  /**
   * `ws.onmessage`: speech start and stop move between speaking and listening; a
   * delta is appended to the partial text; a completed transcript, once trimmed,
   * becomes one entry and one callback unless it is blank, and the partial text
   * is cleared either way; a server error sets the message and keeps the status;
   * a message that does not parse and any other event change nothing.
   */
  function OnMessageEvent(v: SessionView, msg: Option<ServerEvent>, now: int): (r: SessionView)
    ensures r.handles == v.handles
    ensures v.transcripts <= r.transcripts && v.utterances <= r.utterances
    ensures |r.transcripts| - |v.transcripts| == |r.utterances| - |v.utterances| <= 1
    ensures r.transcripts != v.transcripts <==>
      msg.Some? && msg.value.TranscriptCompleted? && Trim(msg.value.transcript) != []
    ensures r.status != v.status ==> msg.Some? && (msg.value.SpeechStarted? || msg.value.SpeechStopped?)
    ensures r.error != v.error ==> msg.Some? && msg.value.ApiError?
  {
    if msg.None? then v
    else
      match msg.value
      case SpeechStarted => v.(status := Speaking)
      case SpeechStopped => v.(status := Listening)
      case TranscriptDelta(delta, _) => v.(currentDelta := v.currentDelta + delta)
      case TranscriptCompleted(transcript, itemId) =>
        var text := Trim(transcript);
        if text != [] then
          v.(transcripts := v.transcripts + [TranscriptEntry(itemId, text, now)],
             utterances := v.utterances + [text],
             currentDelta := "")
        else v.(currentDelta := "")
      case ApiError(message) => v.(error := Some(message))
      case SessionCreated(_) => v
      case SessionUpdated(_) => v
      case OtherEvent(_) => v
  }

  /** A completed transcript: its trimmed text, when not blank, is the one new entry and the one new callback. */
  lemma CompletedTranscript(v: SessionView, transcript: string, itemId: string, now: int)
    ensures var r := OnMessageEvent(v, Some(TranscriptCompleted(transcript, itemId)), now);
      && r.currentDelta == ""
      && r.status == v.status && r.error == v.error
      && (Trim(transcript) != [] ==>
            && r.transcripts == v.transcripts + [TranscriptEntry(itemId, Trim(transcript), now)]
            && r.utterances == v.utterances + [Trim(transcript)])
      && (Trim(transcript) == [] ==> r.transcripts == v.transcripts && r.utterances == v.utterances)
  {
  }

  /** A completed transcript whose trimmed text is not blank adds it once and clears the partial text. */
  lemma CompletedKept(v: SessionView, transcript: string, itemId: string, now: int, text: string)
    requires text == Trim(transcript) && text != []
    ensures OnMessageEvent(v, Some(TranscriptCompleted(transcript, itemId)), now) ==
      v.(transcripts := v.transcripts + [TranscriptEntry(itemId, text, now)],
         utterances := v.utterances + [text], currentDelta := "")
  {
  }

  /** A blank completed transcript only clears the partial text. */
  lemma CompletedBlank(v: SessionView, transcript: string, itemId: string, now: int)
    requires Trim(transcript) == []
    ensures OnMessageEvent(v, Some(TranscriptCompleted(transcript, itemId)), now) == v.(currentDelta := "")
  {
  }

  /** Every entry and every callback text is trimmed and non-empty. */
  lemma CompletedTextIsTrimmed(v: SessionView, transcript: string, itemId: string, now: int)
    requires Trim(transcript) != []
    ensures var e := OnMessageEvent(v, Some(TranscriptCompleted(transcript, itemId)), now).transcripts[|v.transcripts|];
      && e.text != [] && !IsSpace(e.text[0]) && !IsSpace(e.text[|e.text| - 1])
      && e.text == Trim(e.text)
  {
    CompletedEntryText(v, transcript, itemId, now);
    TrimIdempotent(transcript);
  }

  lemma CompletedEntryText(v: SessionView, transcript: string, itemId: string, now: int)
    requires Trim(transcript) != []
    ensures OnMessageEvent(v, Some(TranscriptCompleted(transcript, itemId)), now).transcripts[|v.transcripts|].text
      == Trim(transcript)
  {
    var r := OnMessageEvent(v, Some(TranscriptCompleted(transcript, itemId)), now);
    assert r.transcripts == v.transcripts + [TranscriptEntry(itemId, Trim(transcript), now)];
  }

  /** The server's speech events: speaking on start, listening on stop, nothing else touched. */
  lemma SpeechEvents(v: SessionView, now: int)
    ensures OnMessageEvent(v, Some(SpeechStarted), now) == v.(status := Speaking)
    ensures OnMessageEvent(v, Some(SpeechStopped), now) == v.(status := Listening)
  {
  }

  /** A server error sets the message and keeps the status; unparseable and unhandled messages change nothing. */
  lemma IgnoredAndErrorEvents(v: SessionView, message: string, id: string, other: string, now: int)
    ensures OnMessageEvent(v, Some(ApiError(message)), now) == v.(error := Some(message))
    ensures OnMessageEvent(v, None, now) == v
    ensures OnMessageEvent(v, Some(SessionCreated(id)), now) == v
    ensures OnMessageEvent(v, Some(SessionUpdated(id)), now) == v
    ensures OnMessageEvent(v, Some(OtherEvent(other)), now) == v
  {
  }

  /** Messages handled one after another, all at the given arrival times. */
  function OnMessages(v: SessionView, msgs: seq<Option<ServerEvent>>, times: seq<int>): SessionView
    requires |msgs| == |times|
    decreases |msgs|
  {
    if |msgs| == 0 then v else OnMessages(OnMessageEvent(v, msgs[0], times[0]), msgs[1..], times[1..])
  }

  /** No message removes or rewrites a transcript entry: the list only grows. */
  lemma {:induction false} TranscriptsOnlyGrow(v: SessionView, msgs: seq<Option<ServerEvent>>, times: seq<int>)
    requires |msgs| == |times|
    ensures v.transcripts <= OnMessages(v, msgs, times).transcripts
    ensures v.utterances <= OnMessages(v, msgs, times).utterances
    decreases |msgs|
  {
    if |msgs| > 0 {
      var next := OnMessageEvent(v, msgs[0], times[0]);
      TranscriptsOnlyGrow(next, msgs[1..], times[1..]);
    }
  }

  /** The text of a run of deltas, in arrival order. */
  function Concat(deltas: seq<string>): string
    decreases |deltas|
  {
    if |deltas| == 0 then "" else deltas[0] + Concat(deltas[1..])
  }

  function DeltaEvents(deltas: seq<string>, itemId: string): (msgs: seq<Option<ServerEvent>>)
    ensures |msgs| == |deltas|
    ensures forall i :: 0 <= i < |deltas| ==> msgs[i] == Some(TranscriptDelta(deltas[i], itemId))
  {
    seq(|deltas|, i requires 0 <= i < |deltas| => Some(TranscriptDelta(deltas[i], itemId)))
  }

  /** A run of deltas appends their texts to the partial text in arrival order, and changes nothing else. */
  lemma {:induction false} DeltasAccumulate(v: SessionView, deltas: seq<string>, itemId: string, times: seq<int>)
    requires |times| == |deltas|
    ensures OnMessages(v, DeltaEvents(deltas, itemId), times) == v.(currentDelta := v.currentDelta + Concat(deltas))
    decreases |deltas|
  {
    if |deltas| > 0 {
      var msgs := DeltaEvents(deltas, itemId);
      var next := OnMessageEvent(v, msgs[0], times[0]);
      assert next == v.(currentDelta := v.currentDelta + deltas[0]);
      assert msgs[1..] == DeltaEvents(deltas[1..], itemId);
      DeltasAccumulate(next, deltas[1..], itemId, times[1..]);
      assert v.currentDelta + deltas[0] + Concat(deltas[1..]) == v.currentDelta + Concat(deltas);
    }
  }

  // ---------------------------------------------------------------------------
  // Starting
  // ---------------------------------------------------------------------------

  /**
   * Lines 49-57 of `start`: the token, or the message of the error thrown. A
   * refused request throws the server's `error` text, or the default when it is
   * missing or empty; an accepted response without a (non-empty) token throws
   * the empty-token message.
   */
  function TokenOutcome(responseOk: bool, serverError: Option<string>, token: Option<string>): (r: Result<string>)
    ensures r.Ok? <==> responseOk && token.Some? && token.value != ""
    ensures r.Ok? ==> r.value == token.value
    ensures r.Failure? ==> r.message != ""
    ensures !responseOk && serverError.Some? && serverError.value != "" ==> r == Failure(serverError.value)
    ensures !responseOk && (serverError.None? || serverError.value == "") ==> r == Failure(TokenFailedMessage)
    ensures responseOk && r.Failure? ==> r.message == TokenEmptyMessage
  {
    if !responseOk then
      if serverError.Some? && serverError.value != "" then Failure(serverError.value) else Failure(TokenFailedMessage)
    else if token.None? || token.value == "" then Failure(TokenEmptyMessage)
    else Ok(token.value)
  }

  /** The `catch` of `start`: an `Error`'s message, or the default for anything else thrown. */
  function CaughtMessage(thrown: Option<string>): (m: string)
    ensures thrown.Some? ==> m == thrown.value
    ensures thrown.None? ==> m == UnknownErrorMessage
  {
    thrown.GetOr(UnknownErrorMessage)
  }

  // ---------------------------------------------------------------------------
  // The session
  // ---------------------------------------------------------------------------

  /** `useRealtimeTranscription(onUtteranceComplete)` */
  class TranscriptionSession {
    var status: Status
    var transcripts: seq<TranscriptEntry>
    var currentDelta: string
    var error: Option<string>
    /** The texts passed to `onUtteranceComplete`, in call order. */
    var utterances: seq<string>
    var workletNode: bool
    var audioContext: bool
    var stream: bool
    var socket: bool

    function View(): SessionView
      reads this
    {
      SessionView(status, transcripts, currentDelta, error, utterances,
                  Handles(workletNode, audioContext, stream, socket))
    }

    constructor()
      ensures View() == SessionView(Idle, [], "", None, [], Released)
    {
      status := Idle;
      transcripts := [];
      currentDelta := "";
      error := None;
      utterances := [];
      workletNode := false;
      audioContext := false;
      stream := false;
      socket := false;
    }

    /** `cleanup`: each held handle is closed and its ref nulled. */
    method Cleanup()
      modifies this
      ensures View() == old(View()).(handles := Released)
    {
      if workletNode {
        workletNode := false;
      }
      if audioContext {
        audioContext := false;
      }
      if stream {
        stream := false;
      }
      if socket {
        socket := false;
      }
    }

    /** `ws.onmessage` */
    method OnMessage(msg: Option<ServerEvent>, now: int)
      modifies this
      ensures View() == OnMessageEvent(old(View()), msg, now)
    {
      if msg.None? {
        return;
      }
      match msg.value {
        case SpeechStarted =>
          status := Speaking;
        case SpeechStopped =>
          status := Listening;
        case TranscriptDelta(delta, _) =>
          currentDelta := currentDelta + delta;
        case TranscriptCompleted(transcript, itemId) =>
          OnCompleted(transcript, itemId, now);
        case ApiError(message) =>
          error := Some(message);
        case SessionCreated(_) =>
        case SessionUpdated(_) =>
        case OtherEvent(_) =>
      }
    }

    /** The completed-transcript case of `ws.onmessage`. */
    method OnCompleted(transcript: string, itemId: string, now: int)
      modifies this
      ensures View() == OnMessageEvent(old(View()), Some(TranscriptCompleted(transcript, itemId)), now)
    {
      ghost var v := View();
      ghost var target := OnMessageEvent(v, Some(TranscriptCompleted(transcript, itemId)), now);
      var text := Trim(transcript);
      if text != [] {
        CompletedKept(v, transcript, itemId, now, text);
        transcripts := transcripts + [TranscriptEntry(itemId, text, now)];
        utterances := utterances + [text];
      } else {
        CompletedBlank(v, transcript, itemId, now);
      }
      currentDelta := "";
      assert View() == target;
    }

    /** `ws.onopen`: the socket is up and audio flows. */
    method OnOpen()
      modifies this
      ensures View() == old(View()).(status := Listening)
    {
      status := Listening;
    }

    /** `ws.onerror`: the fixed message, the error status, and every handle released. */
    method OnSocketError()
      modifies this
      ensures View() == old(View()).(status := Error, error := Some(SocketErrorMessage), handles := Released)
    {
      error := Some(SocketErrorMessage);
      status := Error;
      Cleanup();
    }

    /** The first lines of `start`: clear the error and the partial text, then connect. */
    method BeginStart()
      modifies this
      ensures View() == old(View()).(status := Connecting, error := None, currentDelta := "")
    {
      error := None;
      status := Connecting;
      currentDelta := "";
    }

    /** The `catch` of `start`: the message, the error status, and every handle released. */
    method FailStart(message: string)
      modifies this
      ensures View() == old(View()).(status := Error, error := Some(message), handles := Released)
    {
      error := Some(message);
      status := Error;
      Cleanup();
    }

    /**
     * `start` up to the token: reset, then either fail with the token's error or
     * go on connecting with the token (the microphone, worklet and socket set-up
     * that follows is outside this model).
     */
    method StartWithToken(responseOk: bool, serverError: Option<string>, token: Option<string>)
      returns (acquired: Option<string>)
      modifies this
      ensures var outcome := TokenOutcome(responseOk, serverError, token);
        && (outcome.Ok? ==>
              && acquired == Some(outcome.value)
              && View() == old(View()).(status := Connecting, error := None, currentDelta := ""))
        && (outcome.Failure? ==>
              && acquired == None
              && View() == old(View()).(status := Error, error := Some(outcome.message), currentDelta := "",
                                        handles := Released))
    {
      BeginStart();
      var outcome := TokenOutcome(responseOk, serverError, token);
      if outcome.Failure? {
        FailStart(outcome.message);
        return None;
      }
      acquired := Some(outcome.value);
    }

    /**
     * The set-up steps of `start` after the token, of which the first `reached`
     * completed: the microphone stream, the audio context, the worklet node and
     * the socket are held, in that order, in their refs.
     */
    method Acquire(reached: nat)
      modifies this
      ensures View() == old(View()).(handles := Handles(old(workletNode) || reached >= 3, old(audioContext) || reached >= 2,
                                                        old(stream) || reached >= 1, old(socket) || reached >= 4))
    {
      if reached >= 1 {
        stream := true;
      }
      if reached >= 2 {
        audioContext := true;
      }
      if reached >= 3 {
        workletNode := true;
      }
      if reached >= 4 {
        socket := true;
      }
    }

    /**
     * `start` with a token whose set-up throws after `reached` steps: the
     * handles taken so far are released again by the `catch`.
     */
    method FailDuringSetUp(reached: nat, thrown: Option<string>)
      modifies this
      ensures View() == old(View()).(status := Error, error := Some(CaughtMessage(thrown)), handles := Released)
    {
      Acquire(reached);
      FailStart(CaughtMessage(thrown));
    }

    /** `stop`: release every handle, go idle, drop the partial text; transcripts are kept. */
    method Stop()
      modifies this
      ensures View() == old(View()).(status := Idle, currentDelta := "", handles := Released)
    {
      Cleanup();
      status := Idle;
      currentDelta := "";
    }
  }
}
