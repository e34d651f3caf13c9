/** Single mode of the app as a state machine: one recording is transcribed, a chat session is
    seeded with it, and follow-up questions are asked about it. As in batch mode, each handler
    that awaits is split into the step that runs up to an `await` and the steps that run when
    the awaited call settles, which take the settled value as a parameter. */
module SingleMode {
  import opened Wrappers
  import opened Text
  import Base64
  import opened Media
  import opened GeminiClient
  import opened GeminiService
  import opened Conversation

  /** The app's status; `Failure` is the source's `AppStatus.Error`. */
  datatype AppStatus = Idle | Recording | Processing | Success | Failure

  /** What is stored for a signed-in user after a successful run. */
  datatype SavedSession = SavedSession(
    transcript: string,
    audio: StoredBlob,
    chatHistory: Option<seq<ChatMessage>>,
    model: string,
    status: AppStatus)

  const DefaultModel := "gemini-2.5-flash"
  const EmptyAudio := "The provided audio file is empty."
  const NoAudio := "No audio available to reprocess."
  const UnknownProcessingError := "An unknown error occurred during processing."
  const UnknownReprocessingError := "An unknown error occurred during reprocessing."
  const SingleGreeting := "I have reviewed the audio and the transcript. How can I help you further?"

  /** Which handler started a run: a new recording or a reprocess with another model. */
  datatype RunKind = Submit | Reprocess

  function UnknownRunError(kind: RunKind): string {
    if kind == Submit then UnknownProcessingError else UnknownReprocessingError
  }

  /** A run waiting for the service: for the transcript, then for the chat seeded with it. */
  datatype Run =
    | Transcribing(audio: Blob, model: string, kind: RunKind)
    | Seeding(audio: Blob, transcript: string, model: string, kind: RunKind)

  /** A follow-up waiting for the reply of the session it was sent to, with the parts sent. */
  datatype FollowUp = FollowUp(session: ChatSession, parts: seq<Part>)

  /** The state a restore of a saved session leaves behind. */
  datatype Restored = Restored(
    status: AppStatus,
    transcript: string,
    audio: Blob,
    chatHistory: seq<ChatMessage>,
    model: string,
    chat: Option<ChatSession>,
    keepStored: bool)

  /** A restore waiting for its chat to be recreated, with the saved values it captured. */
  datatype Restoring = Restoring(audio: Blob, transcript: string, model: string)

  /** The saved history, or no turns (`chatHistory || []`). */
  function SavedHistory(saved: SavedSession): (h: seq<ChatMessage>)
    ensures saved.chatHistory.Some? ==> h == saved.chatHistory.value
    ensures saved.chatHistory.None? ==> h == []
  {
    if saved.chatHistory.Some? then saved.chatHistory.value else []
  }

  /** A saved session is restored only when it was saved after a success with a transcript. */
  predicate Restorable(saved: SavedSession) {
    saved.status == Success && Truthy(saved.transcript)
  }

  /** The restore of the load effect as written: the saved transcript, audio, history and
      model are shown; when the chat cannot be recreated the stored session is cleared and
      the status stays `Processing`. */
  function RestoreAsWritten(saved: SavedSession, client: Option<Client>): (r: Restored)
    ensures r.status == Success || r.status == Processing
    ensures r.status == Success <==> client.Some?
    ensures r.status == Success ==> r.chat.Some? && r.keepStored
    ensures r.status == Processing ==> r.chat.None? && !r.keepStored
    ensures r.transcript == saved.transcript && r.model == saved.model
    ensures r.audio == DecodedBlob(saved.audio.data, saved.audio.mimeType)
    ensures saved.chatHistory.Some? ==> r.chatHistory == saved.chatHistory.value
  {
    var blob := DecodedBlob(saved.audio.data, saved.audio.mimeType);
    var history := SavedHistory(saved);
    match CreateChat(client, blob, saved.transcript, saved.model, None)
    case Ok(session) => Restored(Success, saved.transcript, blob, history, saved.model, Some(session), true)
    case Err(_) => Restored(Processing, saved.transcript, blob, history, saved.model, None, false)
  }

  /** The restore with the failure path returning to `Idle`, the only status besides `Success`
      and `Failure` whose screen lets the user go on. */
  function Restore(saved: SavedSession, client: Option<Client>): (r: Restored)
    ensures r.status == Success || r.status == Idle
    ensures r.status == Success <==> client.Some?
    ensures r.status == Success ==> r.chat.Some? && r.keepStored
    ensures r.status == Idle ==> !r.keepStored
    ensures r.transcript == saved.transcript && r.model == saved.model
    ensures r.audio == DecodedBlob(saved.audio.data, saved.audio.mimeType)
  {
    var restored := RestoreAsWritten(saved, client);
    if restored.status == Success then restored else restored.(status := Idle)
  }

  /** The written restore strands the app in `Processing` when the client slot is still empty
      (the sign-in flow fills it after its own load of the user's data). */
  lemma RestoreAsWrittenStrands(saved: SavedSession)
    ensures RestoreAsWritten(saved, None).status == Processing
    ensures Restore(saved, None).status == Idle
  {
  }

  /** The session a successful run saves, restored by the load effect, gives back the same
      transcript, audio, history and model when the recording's type has no comma. */
  lemma SessionRoundTrip(transcript: string, audio: Blob, history: seq<ChatMessage>, model: string, c: Client)
    requires transcript != []
    requires ',' !in audio.mimeType
    ensures var saved := SavedSession(transcript, SerializeBlob(audio), Some(history), model, Success);
      Restorable(saved) &&
      RestoreAsWritten(saved, Some(c)) == Restored(Success, transcript, audio, history, model,
        Some(ChatSession(model, SeedHistory(audio, transcript, None))), true)
  {
    StoredBlobRoundTrip(audio);
  }

  /** A session whose recording has the two-codec type is restored with an empty recording. */
  lemma SessionLosesTwoCodecAudio(transcript: string, bytes: seq<Base64.byte>, history: seq<ChatMessage>, model: string, client: Option<Client>)
    ensures var saved := SavedSession(transcript, SerializeBlob(Blob(bytes, TwoCodecType)), Some(history), model, Success);
      RestoreAsWritten(saved, client).audio == Blob([], TwoCodecType)
  {
    AsWrittenLosesBytes(bytes);
  }

  class App {
    var status: AppStatus
    var model: string
    var transcript: string
    var error: Option<string>
    var audioBlob: Option<Blob>
    var chat: Option<ChatSession>
    var chatHistory: seq<ChatMessage>
    var isChatting: bool
    var isDataLoaded: bool
    /** What the store holds for the user; `None` once it was cleared or reset. */
    var stored: Option<SavedSession>
    var runs: seq<Run>
    var followUps: seq<FollowUp>
    /** Loads waiting for the chat of the restored session. */
    var restores: seq<Restoring>

    /** On the results screen there is always a recording to download and a chat to ask. */
    predicate ResultsReady()
      reads this
    {
      status == Success ==> audioBlob.Some? && chat.Some?
    }

    /** The run's results and the runs in flight are as they were. */
    twostate predicate ResultsKept()
      reads this
    {
      status == old(status) && model == old(model) && transcript == old(transcript) &&
      error == old(error) && audioBlob == old(audioBlob) && chat == old(chat) && runs == old(runs)
    }

    /** The follow-up state is as it was. */
    twostate predicate ChatKept()
      reads this
    {
      isChatting == old(isChatting) && followUps == old(followUps)
    }

    /** The load flag, the stored session and the pending loads are as they were. */
    twostate predicate StoreKept()
      reads this
    {
      isDataLoaded == old(isDataLoaded) && stored == old(stored) && restores == old(restores)
    }

    constructor ()
      ensures status == Idle && model == DefaultModel && transcript == [] && error.None?
      ensures audioBlob.None? && chat.None? && chatHistory == [] && !isChatting && !isDataLoaded
      ensures stored.None? && runs == [] && followUps == [] && restores == []
      ensures ResultsReady()
    {
      status := Idle;
      model := DefaultModel;
      transcript := [];
      error := None;
      audioBlob := None;
      chat := None;
      chatHistory := [];
      isChatting := false;
      isDataLoaded := false;
      stored := None;
      runs := [];
      followUps := [];
      restores := [];
    }

    /** `handleAudioSubmit` up to its first `await`: missing or empty audio is an error;
        otherwise the run starts with the current model. */
    method BeginSubmit(blob: Option<Blob>)
      modifies this
      ensures blob.None? || Size(blob.value) == 0 ==>
        status == Failure && error == Some(EmptyAudio) && transcript == old(transcript) && runs == old(runs)
      ensures blob.Some? && Size(blob.value) > 0 ==>
        status == Processing && error.None? && transcript == [] &&
        runs == old(runs) + [Transcribing(blob.value, model, Submit)]
      ensures model == old(model) && audioBlob == old(audioBlob) && chat == old(chat)
      ensures chatHistory == old(chatHistory) && ChatKept() && StoreKept()
      ensures ResultsReady()
    {
      if blob.None? || Size(blob.value) == 0 {
        error := Some(EmptyAudio);
        status := Failure;
        return;
      }
      status := Processing;
      error := None;
      transcript := [];
      runs := runs + [Transcribing(blob.value, model, Submit)];
    }

    /** `handleReprocess(newModel)` up to its first `await`: without audio it is an error;
        otherwise the results are cleared and a run with the new model starts. */
    method BeginReprocess(newModel: string)
      modifies this
      ensures audioBlob.None? ==>
        status == Failure && error == Some(NoAudio) && transcript == old(transcript) &&
        chat == old(chat) && chatHistory == old(chatHistory) && runs == old(runs)
      ensures audioBlob.Some? ==>
        status == Processing && error.None? && transcript == [] && chat.None? && chatHistory == [] &&
        runs == old(runs) + [Transcribing(audioBlob.value, newModel, Reprocess)]
      ensures model == old(model) && audioBlob == old(audioBlob) && ChatKept() && StoreKept()
      ensures ResultsReady()
    {
      if audioBlob.None? {
        error := Some(NoAudio);
        status := Failure;
        return;
      }
      status := Processing;
      error := None;
      transcript := [];
      chat := None;
      chatHistory := [];
      runs := runs + [Transcribing(audioBlob.value, newModel, Reprocess)];
    }

    /** A run once the transcription settles: a transcript is shown at once (a new recording
        becomes the current audio) and the run goes on to seed the chat; a failure ends it. */
    method CompleteTranscription(k: nat, client: Option<Client>, reply: Reply)
      requires k < |runs| && runs[k].Transcribing?
      modifies this
      ensures var run := old(runs[k]);
        var r := ProcessAudio(client, reply);
        (r.Err? ==>
          status == Failure && error == Some(MessageOf(r.error, UnknownRunError(run.kind))) &&
          transcript == old(transcript) && audioBlob == old(audioBlob) && runs == RemoveAt(old(runs), k)) &&
        (r.Ok? ==>
          status == old(status) && error == old(error) && transcript == r.value &&
          audioBlob == (if run.kind == Submit then Some(run.audio) else old(audioBlob)) &&
          runs == RemoveAt(old(runs), k) + [Seeding(run.audio, r.value, run.model, run.kind)])
      ensures model == old(model) && chat == old(chat) && chatHistory == old(chatHistory)
      ensures ChatKept() && StoreKept()
      ensures old(ResultsReady()) ==> ResultsReady()
    {
      var run := runs[k];
      runs := RemoveAt(runs, k);
      var r := ProcessAudio(client, reply);
      if r.Err? {
        error := Some(MessageOf(r.error, UnknownRunError(run.kind)));
        status := Failure;
      } else {
        transcript := r.value;
        if run.kind == Submit {
          audioBlob := Some(run.audio);
        }
        runs := runs + [Seeding(run.audio, r.value, run.model, run.kind)];
      }
    }

    /** The state updates once a seeding run's chat is created or has failed. */
    method SettleSeeding(run: Run, r: Result<ChatSession, Thrown>)
      requires run.Seeding?
      modifies this
      ensures r.Err? ==>
        status == Failure && error == Some(MessageOf(r.error, UnknownRunError(run.kind))) &&
        chat == old(chat) && chatHistory == old(chatHistory) && model == old(model)
      ensures r.Ok? ==>
        status == Success && error == old(error) && chat == Some(r.value) &&
        chatHistory == [GreetingTurn(run.transcript, SingleGreeting)] &&
        model == (if run.kind == Reprocess then run.model else old(model))
      ensures runs == old(runs) && transcript == old(transcript) && audioBlob == old(audioBlob)
      ensures ChatKept() && StoreKept()
      ensures old(ResultsReady()) && old(audioBlob).Some? ==> ResultsReady()
    {
      if r.Err? {
        error := Some(MessageOf(r.error, UnknownRunError(run.kind)));
        status := Failure;
      } else {
        chat := Some(r.value);
        chatHistory := [GreetingTurn(run.transcript, SingleGreeting)];
        status := Success;
        if run.kind == Reprocess {
          model := run.model;
        }
      }
    }

    /** A run once the chat is seeded: the results screen opens with the greeting turn, and a
        reprocess adopts its model; a failure ends the run with an error. */
    method CompleteSeeding(k: nat, client: Option<Client>)
      requires k < |runs| && runs[k].Seeding?
      modifies this
      ensures var run := old(runs[k]);
        var r := CreateChat(client, run.audio, run.transcript, run.model, None);
        (r.Err? ==>
          status == Failure && error == Some(MessageOf(r.error, UnknownRunError(run.kind))) &&
          chat == old(chat) && chatHistory == old(chatHistory) && model == old(model)) &&
        (r.Ok? ==>
          status == Success && error == old(error) && chat == Some(r.value) &&
          chatHistory == [GreetingTurn(run.transcript, SingleGreeting)] &&
          model == (if run.kind == Reprocess then run.model else old(model)))
      ensures runs == RemoveAt(old(runs), k)
      ensures transcript == old(transcript) && audioBlob == old(audioBlob)
      ensures ChatKept() && StoreKept()
      ensures old(ResultsReady()) && old(audioBlob).Some? ==> ResultsReady()
    {
      var run := runs[k];
      runs := RemoveAt(runs, k);
      SettleSeeding(run, CreateChat(client, run.audio, run.transcript, run.model, None));
    }

    /** `handleSendMessage` up to its `await`: only with a chat and no follow-up in flight;
        the user turn is appended, and a follow-up with nothing to send ends at once. */
    method BeginSend(message: string, audio: Option<Blob>)
      modifies this
      ensures old(chat).None? || old(isChatting) ==> chatHistory == old(chatHistory) && ChatKept()
      ensures old(chat).Some? && !old(isChatting) ==>
        chatHistory == old(chatHistory) + [UserTurn(message)] &&
        (message == [] && audio.None? ==> !isChatting && followUps == old(followUps)) &&
        (message != [] || audio.Some? ==>
          isChatting && followUps == old(followUps) + [FollowUp(old(chat).value, FollowUpParts(message, audio))])
      ensures ResultsKept() && StoreKept()
      ensures old(ResultsReady()) ==> ResultsReady()
    {
      if chat.Some? && !isChatting {
        var session := chat.value;
        var parts := FollowUpParts(message, audio);
        chatHistory := chatHistory + [UserTurn(message)];
        if parts != [] {
          isChatting := true;
          followUps := followUps + [FollowUp(session, parts)];
        } else {
          assert message == [] && audio.None?;
        }
      }
    }

    /** A follow-up once the reply settles: its turn is appended to the history as it is now,
        and the flag is cleared. */
    method FinishSend(k: nat, reply: ChatReply)
      requires k < |followUps|
      modifies this
      ensures chatHistory == old(chatHistory) + [ReplyTurn(reply)]
      ensures !isChatting && followUps == RemoveAt(old(followUps), k)
      ensures ResultsKept() && StoreKept()
      ensures old(ResultsReady()) ==> ResultsReady()
    {
      followUps := RemoveAt(followUps, k);
      chatHistory := chatHistory + [ReplyTurn(reply)];
      isChatting := false;
    }

    /** `resetSingleMode`: back to an empty idle screen; a signed-in user's stored session is
        replaced by nothing. */
    method Reset(signedIn: bool)
      modifies this
      ensures status == Idle && transcript == [] && error.None? && audioBlob.None? && chat.None?
      ensures chatHistory == [] && !isChatting
      ensures signedIn ==> stored.None?
      ensures !signedIn ==> stored == old(stored)
      ensures model == old(model) && isDataLoaded == old(isDataLoaded) && runs == old(runs) && followUps == old(followUps)
      ensures restores == old(restores)
      ensures ResultsReady()
    {
      status := Idle;
      transcript := [];
      error := None;
      audioBlob := None;
      chat := None;
      chatHistory := [];
      isChatting := false;
      if signedIn {
        stored := None;
      }
    }

    /** The auto-save effect: a signed-in user's successful session is stored once the first
        load is done. */
    method Save(signedIn: bool)
      modifies this
      ensures signedIn && status == Success && audioBlob.Some? && isDataLoaded ==>
        stored == Some(SavedSession(transcript, SerializeBlob(audioBlob.value), Some(chatHistory), model, Success))
      ensures !(signedIn && status == Success && audioBlob.Some? && isDataLoaded) ==> stored == old(stored)
      ensures ResultsKept() && chatHistory == old(chatHistory) && ChatKept() && isDataLoaded == old(isDataLoaded)
      ensures restores == old(restores)
    {
      if signedIn && status == Success && audioBlob.Some? && isDataLoaded {
        stored := Some(SavedSession(transcript, SerializeBlob(audioBlob.value), Some(chatHistory), model, Success));
      }
    }

    /** The load effect once the user's data arrives, up to the `await` of the chat: without
        a user nothing happens (and the first load never completes); a restorable session
        shows `Processing` with the saved transcript, audio, history and model, and waits
        for its chat; any other data completes the first load at once. */
    method BeginLoad(signedIn: bool, saved: Option<SavedSession>)
      modifies this
      ensures !signedIn ==>
        status == old(status) && transcript == old(transcript) && audioBlob == old(audioBlob) &&
        chatHistory == old(chatHistory) && model == old(model) && StoreKept()
      ensures signedIn && saved.Some? && Restorable(saved.value) ==>
        var blob := DecodedBlob(saved.value.audio.data, saved.value.audio.mimeType);
        status == Processing && transcript == saved.value.transcript && audioBlob == Some(blob) &&
        chatHistory == SavedHistory(saved.value) && model == saved.value.model &&
        restores == old(restores) + [Restoring(blob, saved.value.transcript, saved.value.model)] &&
        isDataLoaded == old(isDataLoaded) && stored == old(stored)
      ensures signedIn && !(saved.Some? && Restorable(saved.value)) ==>
        status == old(status) && transcript == old(transcript) && audioBlob == old(audioBlob) &&
        chatHistory == old(chatHistory) && model == old(model) &&
        isDataLoaded && stored == old(stored) && restores == old(restores)
      ensures chat == old(chat) && error == old(error) && runs == old(runs) && ChatKept()
      ensures old(ResultsReady()) ==> ResultsReady()
    {
      if signedIn {
        if saved.Some? && Restorable(saved.value) {
          var s := saved.value;
          var blob := DecodedBlob(s.audio.data, s.audio.mimeType);
          status := Processing;
          transcript := s.transcript;
          audioBlob := Some(blob);
          chatHistory := SavedHistory(s);
          model := s.model;
          restores := restores + [Restoring(blob, s.transcript, s.model)];
        } else {
          isDataLoaded := true;
        }
      }
    }

    /** The state updates once a load's chat is recreated or has failed. */
    method SettleLoad(r: Result<ChatSession, Thrown>)
      modifies this
      ensures r.Ok? ==> chat == Some(r.value) && status == Success && stored == old(stored)
      ensures r.Err? ==> chat == old(chat) && status == old(status) && stored.None?
      ensures isDataLoaded && restores == old(restores)
      ensures transcript == old(transcript) && audioBlob == old(audioBlob) && chatHistory == old(chatHistory)
      ensures model == old(model) && error == old(error) && runs == old(runs) && ChatKept()
      ensures old(ResultsReady()) && old(audioBlob).Some? ==> ResultsReady()
    {
      if r.Ok? {
        chat := Some(r.value);
        status := Success;
      } else {
        stored := None;
      }
      isDataLoaded := true;
    }

    /** A load once its chat is recreated or has failed: the chat is shown and the status is
        `Success`; or the stored data is cleared and the status is left as it is now. The
        first load is then done. */
    method CompleteLoad(k: nat, client: Option<Client>)
      requires k < |restores|
      modifies this
      ensures var job := old(restores[k]);
        var r := CreateChat(client, job.audio, job.transcript, job.model, None);
        (r.Ok? ==> chat == Some(r.value) && status == Success && stored == old(stored)) &&
        (r.Err? ==> chat == old(chat) && status == old(status) && stored.None?)
      ensures isDataLoaded && restores == RemoveAt(old(restores), k)
      ensures transcript == old(transcript) && audioBlob == old(audioBlob) && chatHistory == old(chatHistory)
      ensures model == old(model) && error == old(error) && runs == old(runs) && ChatKept()
      ensures old(ResultsReady()) && old(audioBlob).Some? ==> ResultsReady()
    {
      var job := restores[k];
      restores := RemoveAt(restores, k);
      SettleLoad(CreateChat(client, job.audio, job.transcript, job.model, None));
    }

    /** A load whose chat settles before anything else happens: the saved session is
        restored as written. */
    method Load(signedIn: bool, saved: Option<SavedSession>, client: Option<Client>)
      modifies this
      ensures !signedIn ==>
        status == old(status) && transcript == old(transcript) && chat == old(chat) &&
        isDataLoaded == old(isDataLoaded) && stored == old(stored)
      ensures signedIn ==> isDataLoaded
      ensures signedIn && saved.Some? && Restorable(saved.value) ==>
        var r := RestoreAsWritten(saved.value, client);
        status == r.status && transcript == r.transcript && audioBlob == Some(r.audio) &&
        chatHistory == r.chatHistory && model == r.model &&
        (r.chat.Some? ==> chat == r.chat) && (r.chat.None? ==> chat == old(chat)) &&
        (r.keepStored ==> stored == old(stored)) && (!r.keepStored ==> stored.None?)
      ensures signedIn && !(saved.Some? && Restorable(saved.value)) ==>
        status == old(status) && transcript == old(transcript) && chat == old(chat) && stored == old(stored)
      ensures error == old(error) && isChatting == old(isChatting) && runs == old(runs) && followUps == old(followUps)
      ensures restores == old(restores)
      ensures old(ResultsReady()) ==> ResultsReady()
    {
      BeginLoad(signedIn, saved);
      if signedIn && saved.Some? && Restorable(saved.value) {
        ghost var pending := restores;
        CompleteLoad(|restores| - 1, client);
        assert restores == pending[..|pending| - 1];
      }
    }
  }
}
