/** The follow-up chat panel: the text box, the spoken-question recorder and the "awaiting a
    reply" indicator. */
module ChatInterface {
  import opened Wrappers
  import opened Text
  import opened Base64
  import opened Media
  import opened GeminiService
  import opened Conversation

  /** What the panel hands to the chat handler: the trimmed text and the recorded question. */
  datatype Outgoing = Outgoing(message: string, audio: Option<Blob>)

  /** The panel shows the waiting indicator while a follow-up is in flight and the last turn is
      the user's. */
  predicate IsAwaitingResponse(isChatting: bool, history: seq<ChatMessage>) {
    isChatting && |history| > 0 && history[|history| - 1].author == You
  }

  /** Right after a follow-up is sent the panel waits for the reply, and once the reply turn
      is appended it no longer does. */
  lemma AwaitingUntilReply(history: seq<ChatMessage>, message: string, reply: ChatReply)
    ensures IsAwaitingResponse(true, history + [UserTurn(message)])
    ensures !IsAwaitingResponse(true, history + [UserTurn(message)] + [ReplyTurn(reply)])
    ensures !IsAwaitingResponse(false, history + [UserTurn(message)])
  {
  }

  /** What the panel submits is never a follow-up with nothing to send: its text is the trimmed
      input, and a recorded question without text carries the spoken-question instruction. */
  lemma SubmittedFollowUpSends(input: string, audio: Option<Blob>)
    requires Trim(input) != [] || audio.Some?
    ensures var parts := FollowUpParts(Trim(input), audio);
      parts != [] &&
      (Trim(input) != [] ==> parts[0] == TextPart(Trim(input))) &&
      (Trim(input) == [] ==> |parts| == 2 && parts[0] == TextPart(SpokenFollowUp))
  {
    var message := Trim(input);
    TrimIdempotent(input);
    assert Trim(message) == message;
  }

  class ChatInput {
    var input: string
    /** The recorded question waiting to be sent, if any. */
    var audioBlob: Option<Blob>
    /** The recorder hook's flag. */
    var isRecording: bool
    /** Toggles waiting for `stopRecording()` to settle. */
    var pendingStops: nat
    /** Toggles waiting for `startRecording()` to settle. */
    var pendingStarts: nat

    constructor ()
      ensures input == [] && audioBlob.None? && !isRecording
      ensures pendingStops == 0 && pendingStarts == 0
    {
      input := [];
      audioBlob := None;
      isRecording := false;
      pendingStops := 0;
      pendingStarts := 0;
    }

    /** The text box's change handler. */
    method Type(text: string)
      modifies this
      ensures input == text && audioBlob == old(audioBlob) && isRecording == old(isRecording)
      ensures pendingStops == old(pendingStops) && pendingStarts == old(pendingStarts)
    {
      input := text;
    }

    /** `handleToggleRecording` up to its `await`: a running recorder is asked to stop;
        otherwise a previous question is discarded and the recorder is asked to start. */
    method BeginToggle()
      modifies this
      ensures old(isRecording) ==>
        pendingStops == old(pendingStops) + 1 && pendingStarts == old(pendingStarts) &&
        audioBlob == old(audioBlob)
      ensures !old(isRecording) ==>
        pendingStarts == old(pendingStarts) + 1 && pendingStops == old(pendingStops) &&
        audioBlob.None?
      ensures input == old(input) && isRecording == old(isRecording)
    {
      if isRecording {
        pendingStops := pendingStops + 1;
      } else {
        audioBlob := None;
        pendingStarts := pendingStarts + 1;
      }
    }

    /** A stop once it settles: the recorder is no longer running, and the recording, when
        it has any bytes, becomes the question to send, replacing whatever is there now.
        `stopped` is what the recorder hands back. */
    method CompleteStop(stopped: Option<Blob>)
      requires pendingStops > 0
      modifies this
      ensures !isRecording && pendingStops == old(pendingStops) - 1 && pendingStarts == old(pendingStarts)
      ensures stopped.Some? && Size(stopped.value) > 0 ==> audioBlob == stopped
      ensures !(stopped.Some? && Size(stopped.value) > 0) ==> audioBlob == old(audioBlob)
      ensures input == old(input)
    {
      pendingStops := pendingStops - 1;
      isRecording := false;
      if stopped.Some? && Size(stopped.value) > 0 {
        audioBlob := stopped;
      }
    }

    /** A start once it settles: the hook's flag says whether the recorder runs. */
    method CompleteStart(started: bool)
      requires pendingStarts > 0
      modifies this
      ensures isRecording == started
      ensures pendingStarts == old(pendingStarts) - 1 && pendingStops == old(pendingStops)
      ensures input == old(input) && audioBlob == old(audioBlob)
    {
      pendingStarts := pendingStarts - 1;
      isRecording := started;
    }

    /** A toggle whose `await` settles before anything else happens: a running recorder is
        stopped and its recording, when it has any bytes, becomes the question to send;
        otherwise a previous question is discarded and the recorder runs when the start
        succeeds. */
    method ToggleRecording(stopped: Option<Blob>, started: bool)
      modifies this
      ensures old(isRecording) ==> !isRecording
      ensures old(isRecording) && stopped.Some? && Size(stopped.value) > 0 ==> audioBlob == stopped
      ensures old(isRecording) && !(stopped.Some? && Size(stopped.value) > 0) ==> audioBlob == old(audioBlob)
      ensures !old(isRecording) ==> isRecording == started && audioBlob.None?
      ensures input == old(input)
      ensures pendingStops == old(pendingStops) && pendingStarts == old(pendingStarts)
    {
      var wasRecording := isRecording;
      BeginToggle();
      if wasRecording {
        CompleteStop(stopped);
      } else {
        CompleteStart(started);
      }
    }

    /** `handleSubmit`: with some text or a recorded question, and no follow-up in flight,
        the trimmed text and the question are handed over and the panel is cleared. */
    method Submit(isChatting: bool) returns (sent: Option<Outgoing>)
      modifies this
      ensures sent.Some? <==> (Trim(old(input)) != [] || old(audioBlob).Some?) && !isChatting
      ensures sent.Some? ==>
        sent.value == Outgoing(Trim(old(input)), old(audioBlob)) && input == [] && audioBlob.None?
      ensures sent.None? ==> input == old(input) && audioBlob == old(audioBlob)
      ensures sent.Some? ==> FollowUpParts(sent.value.message, sent.value.audio) != []
      ensures isRecording == old(isRecording)
      ensures pendingStops == old(pendingStops) && pendingStarts == old(pendingStarts)
    {
      if (Truthy(Trim(input)) || audioBlob.Some?) && !isChatting {
        sent := Some(Outgoing(Trim(input), audioBlob));
        SubmittedFollowUpSends(input, audioBlob);
        input := [];
        audioBlob := None;
      } else {
        sent := None;
      }
    }
  }

  /** A question typed while a stop is still settling is sent without the recording, which
      then arrives as the next question to send. The panel disables the text box and the send
      button while the hook reports recording, so this happens only with a hook that clears
      its flag before `stopRecording()` resolves; the model lets the flag change only when
      the stop settles and does not apply the disabled states, which are rendering. */
  method SubmitDuringStop(text: string, recording: Blob) returns (panel: ChatInput, sent: Option<Outgoing>)
    requires Trim(text) != [] && Size(recording) > 0
    ensures sent == Some(Outgoing(Trim(text), None))
    ensures panel.audioBlob == Some(recording) && !panel.isRecording
  {
    panel := new ChatInput();
    panel.BeginToggle();
    panel.CompleteStart(true);
    panel.BeginToggle();
    panel.Type(text);
    sent := panel.Submit(false);
    panel.CompleteStop(Some(recording));
  }
}
