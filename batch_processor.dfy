/** The batch-mode panel as a state machine. Each handler that awaits the recorder or the
    service is split into the step that runs up to its first `await` (a `Begin…` method that
    leaves a pending job behind) and the steps that run when the awaited call settles (which
    take the settled value as a parameter). Between steps any other handler may run, as
    the browser's event loop allows. */
module BatchProcessor {
  import opened Wrappers
  import opened Text
  import opened Media
  import opened GeminiClient
  import opened GeminiService
  import opened Conversation
  import opened BatchItems

  /** A transcription waiting for the service: the recording it belongs to, the merged audio,
      the model to use and the greeting of its chat. */
  datatype TranscriptionJob = TranscriptionJob(batchId: string, audio: Blob, model: string, greeting: string)

  /** A follow-up waiting for the service: for the chat rebuilt from the transcript, or for the
      reply of the session. `history` is the history captured when the follow-up began. */
  datatype ChatStage = Rebuilding(audio: Blob, transcript: string, model: string) | Replying(session: ChatSession)
  datatype ChatJob = ChatJob(batchId: string, message: string, audio: Option<Blob>, history: seq<ChatMessage>, stage: ChatStage)

  const NoChatSession := "Could not initialize chat session."

  /** The job "process all" leaves for one selected recording: its segments merged under the
      type of the first one. */
  function ProcessAllJob(b: Batch, model: string): (job: TranscriptionJob)
    requires Processable(b)
    ensures job.batchId == b.id && job.model == model && job.greeting == ProcessAllGreeting
    ensures job.audio.bytes == Concat(b.audioBlobs) && job.audio.mimeType == b.audioBlobs[0].mimeType
  {
    TranscriptionJob(b.id, Merge(b.audioBlobs, b.audioBlobs[0].mimeType), model, ProcessAllGreeting)
  }

  function ProcessAllJobs(selected: seq<Batch>, model: string): (jobs: seq<TranscriptionJob>)
    requires forall k :: 0 <= k < |selected| ==> Processable(selected[k])
    ensures |jobs| == |selected|
    ensures forall k :: 0 <= k < |selected| ==> jobs[k] == ProcessAllJob(selected[k], model)
  {
    seq(|selected|, k requires 0 <= k < |selected| && Processable(selected[k]) => ProcessAllJob(selected[k], model))
  }

  /** How one transcription settles: the transcript, then the chat seeded with it; the first
      call that throws decides the error message. The client slot is read twice, by
      `processAudio` before it calls out (`client`) and by `createChat` after the transcript
      arrived (`chatClient`). */
  function TranscriptionOutcome(job: TranscriptionJob, client: Option<Client>, chatClient: Option<Client>,
                                reply: Reply): (o: Outcome)
    ensures o.Transcribed? <==> ProcessAudio(client, reply).Ok? && chatClient.Some?
    ensures o.Transcribed? ==>
      o.transcript == ProcessAudio(client, reply).value && o.model == job.model &&
      o.greeting == job.greeting && o.session.history == SeedHistory(job.audio, o.transcript, None)
    ensures client.None? ==> o == Unsuccessful(NotInitialized)
    ensures ProcessAudio(client, reply).Err? ==>
      o == Unsuccessful(MessageOf(ProcessAudio(client, reply).error, UnknownError))
    ensures ProcessAudio(client, reply).Ok? && chatClient.None? ==> o == Unsuccessful(NotInitialized)
  {
    match ProcessAudio(client, reply)
    case Err(t) => Unsuccessful(MessageOf(t, UnknownError))
    case Ok(transcript) =>
      match CreateChat(chatClient, job.audio, transcript, job.model, None)
      case Err(t) => Unsuccessful(MessageOf(t, UnknownError))
      case Ok(session) => Transcribed(transcript, session, job.greeting, job.model)
  }

  /** A successful transcription's history is one turn: the trimmed transcript, a blank line
      and the greeting. */
  lemma TranscriptionGreets(job: TranscriptionJob, client: Option<Client>, chatClient: Option<Client>,
                            text: string, b: Batch)
    requires client.Some? && chatClient.Some? && text != []
    ensures var o := TranscriptionOutcome(job, client, chatClient, Responded(Some(text)));
      o.Transcribed? && Settle(b, o).transcript == Some(Trim(text)) &&
      Settle(b, o).chatHistory == Some([ChatMessage(AI, Trim(text) + "\n\n" + job.greeting)])
  {
  }

  /** A stored list whose loading keeps the recorder invariant: distinct ids and no
      recording caught mid-capture. */
  predicate RestorableSnapshot(saved: seq<SerializableBatch>) {
    (forall i :: 0 <= i < |saved| ==> saved[i].status != Recording) &&
    (forall i, j :: 0 <= i < j < |saved| ==> saved[i].id != saved[j].id)
  }

  /** Every recording in `Recording` is the active one and the recorder is running. */
  predicate SingleRecorder(bs: seq<Batch>, active: Option<string>, recording: bool) {
    forall i :: 0 <= i < |bs| && bs[i].status == Recording ==> active == Some(bs[i].id) && recording
  }

  /** The recorder's bookkeeping agrees with the list: ids are distinct, the recording
      items are the active one, and `isBusy` is held exactly by one suspended record handler,
      which is for the active recording. */
  predicate RecorderCoherent(bs: seq<Batch>, active: Option<string>, busy: bool, recording: bool, pending: seq<string>) {
    UniqueIds(bs) && SingleRecorder(bs, active, recording) &&
    |pending| <= 1 && (busy <==> pending != []) &&
    (pending != [] ==> active == Some(pending[0]))
  }

  /** An update that keeps every id and status keeps the recorder's bookkeeping coherent. */
  lemma StatusesKeptCoherent(bs: seq<Batch>, r: seq<Batch>, active: Option<string>, busy: bool, recording: bool, pending: seq<string>)
    requires StatusesKept(bs, r)
    ensures RecorderCoherent(bs, active, busy, recording, pending) ==> RecorderCoherent(r, active, busy, recording, pending)
  {
  }

  /** An update that keeps every id and starts no recording keeps the recorder's bookkeeping
      coherent. */
  lemma NoNewRecordingCoherent(bs: seq<Batch>, r: seq<Batch>, active: Option<string>, busy: bool,
                               recording: bool, pending: seq<string>)
    requires |r| == |bs|
    requires forall i :: 0 <= i < |bs| ==> r[i].id == bs[i].id && (r[i].status == Recording ==> bs[i].status == Recording)
    requires RecorderCoherent(bs, active, busy, recording, pending)
    ensures RecorderCoherent(r, active, busy, recording, pending)
  {
    assert Ids(r) == Ids(bs);
  }

  /** Marking recordings as processing keeps the recorder's bookkeeping coherent. */
  lemma MarkingKeepsCoherent(bs: seq<Batch>, selected: seq<Batch>, active: Option<string>, busy: bool,
                             recording: bool, pending: seq<string>)
    requires RecorderCoherent(bs, active, busy, recording, pending)
    ensures RecorderCoherent(MarkedProcessing(bs, selected), active, busy, recording, pending)
  {
    NoNewRecordingCoherent(bs, MarkedProcessing(bs, selected), active, busy, recording, pending);
  }

  /** Starting a reprocess keeps the recorder's bookkeeping coherent. */
  lemma ReprocessKeepsCoherent(bs: seq<Batch>, id: string, active: Option<string>, busy: bool,
                               recording: bool, pending: seq<string>)
    requires RecorderCoherent(bs, active, busy, recording, pending)
    ensures RecorderCoherent(ReprocessStarted(bs, id), active, busy, recording, pending)
  {
    NoNewRecordingCoherent(bs, ReprocessStarted(bs, id), active, busy, recording, pending);
  }

  /** Every selected recording is one "process all" may take. */
  lemma SelectionProcessable(bs: seq<Batch>)
    ensures forall k :: 0 <= k < |Selection(bs)| ==> Processable(Selection(bs)[k])
  {
    var selected := Selection(bs);
    forall k | 0 <= k < |selected|
      ensures Processable(selected[k])
    {
      assert selected[k] in selected;
    }
  }

  class BatchProcessor {
    var batches: seq<Batch>
    /** The recording the recorder is capturing for, if any. */
    var activeBatchId: Option<string>
    var isBusy: bool
    /** The recorder hook's own flag: whether it is capturing. */
    var isRecording: bool
    var isDataLoaded: bool
    /** The saved list as the store last received it. */
    var stored: Option<seq<SerializableBatch>>
    /** Record handlers suspended at `await startRecording()`, by recording id. */
    var pendingStarts: seq<string>
    var transcriptions: seq<TranscriptionJob>
    var chats: seq<ChatJob>

    predicate SingleRecorderHolds()
      reads this
    {
      SingleRecorder(batches, activeBatchId, isRecording)
    }

    predicate Coherent()
      reads this
    {
      RecorderCoherent(batches, activeBatchId, isBusy, isRecording, pendingStarts)
    }

    twostate predicate RecorderKept()
      reads this
    {
      activeBatchId == old(activeBatchId) && isBusy == old(isBusy) &&
      isRecording == old(isRecording) && pendingStarts == old(pendingStarts)
    }

    twostate predicate JobsKept()
      reads this
    {
      transcriptions == old(transcriptions) && chats == old(chats)
    }

    twostate predicate StoreKept()
      reads this
    {
      isDataLoaded == old(isDataLoaded) && stored == old(stored)
    }

    constructor ()
      ensures batches == [] && activeBatchId.None? && !isBusy && !isRecording && !isDataLoaded
      ensures stored.None? && pendingStarts == [] && transcriptions == [] && chats == []
      ensures Coherent()
    {
      batches := [];
      activeBatchId := None;
      isBusy := false;
      isRecording := false;
      isDataLoaded := false;
      stored := None;
      pendingStarts := [];
      transcriptions := [];
      chats := [];
    }

    // -------------------------------------------------------------------------------------
    // Adding and editing

    /** `addBatch`, with `id` the fresh identifier the browser generates. */
    method AddBatch(id: string, model: string)
      modifies this
      ensures batches == Added(old(batches), id, model)
      ensures RecorderKept() && JobsKept() && StoreKept()
      ensures old(Coherent()) && id !in Ids(old(batches)) ==> Coherent()
    {
      batches := Added(batches, id, model);
    }

    method Rename(id: string, name: string)
      modifies this
      ensures batches == Renamed(old(batches), id, name)
      ensures RecorderKept() && JobsKept() && StoreKept()
      ensures old(Coherent()) ==> Coherent()
    {
      batches := Renamed(batches, id, name);
    }

    method ChooseReprocessModel(id: string, model: string)
      modifies this
      ensures batches == ReprocessModelChosen(old(batches), id, model)
      ensures RecorderKept() && JobsKept() && StoreKept()
      ensures old(Coherent()) ==> Coherent()
    {
      batches := ReprocessModelChosen(batches, id, model);
    }

    method Upload(id: string, file: Blob)
      modifies this
      ensures batches == Uploaded(old(batches), id, file)
      ensures RecorderKept() && JobsKept() && StoreKept()
      ensures old(Coherent()) ==> Coherent()
    {
      batches := Uploaded(batches, id, file);
    }

    // -------------------------------------------------------------------------------------
    // Capture

    /** `handleRecordOrResume` up to `await startRecording()`. When another recording is
        being captured it is stopped first; `segment` is what the recorder hands back then. */
    method BeginRecord(target: string, segment: Blob)
      modifies this
      ensures old(isBusy) ==> batches == old(batches) && RecorderKept()
      ensures !old(isBusy) ==>
        isBusy && activeBatchId == Some(target) && pendingStarts == old(pendingStarts) + [target]
      ensures !old(isBusy) && old(isRecording) && old(activeBatchId).Some? && old(activeBatchId) != Some(target) ==>
        batches == SegmentAppended(old(batches), old(activeBatchId).value, segment, Paused) && !isRecording
      ensures !old(isBusy) && !(old(isRecording) && old(activeBatchId).Some? && old(activeBatchId) != Some(target)) ==>
        batches == old(batches) && isRecording == old(isRecording)
      ensures JobsKept() && StoreKept()
      ensures old(Coherent()) ==> Coherent()
    {
      if isBusy {
        return;
      }
      isBusy := true;
      if isRecording && activeBatchId.Some? && activeBatchId.value != target {
        batches := SegmentAppended(batches, activeBatchId.value, segment, Paused);
        isRecording := false;
      }
      activeBatchId := Some(target);
      pendingStarts := pendingStarts + [target];
    }

    /** The rest of `handleRecordOrResume` once `startRecording()` settles; `running` is the
        recorder's flag then. The handler marks the recording as recording in either case. */
    method CompleteRecord(k: nat, running: bool)
      requires k < |pendingStarts|
      modifies this
      ensures batches == RecordingStarted(old(batches), old(pendingStarts[k]))
      ensures pendingStarts == RemoveAt(old(pendingStarts), k)
      ensures isRecording == running && !isBusy && activeBatchId == old(activeBatchId)
      ensures JobsKept() && StoreKept()
      ensures old(Coherent()) && running ==> Coherent()
    {
      var target := pendingStarts[k];
      pendingStarts := RemoveAt(pendingStarts, k);
      isRecording := running;
      batches := RecordingStarted(batches, target);
      isBusy := false;
    }

    /** `handlePause` (with `status == Paused`) and `handleStop` (with `status == Complete`):
        only the active recording, while the recorder runs and no handler holds it busy, gets
        the stopped segment; the recorder is then released. */
    method Capture(id: string, segment: Blob, status: BatchStatus)
      requires status == Paused || status == Complete
      modifies this
      ensures old(isBusy) || !old(isRecording) || old(activeBatchId) != Some(id) ==>
        batches == old(batches) && RecorderKept()
      ensures !(old(isBusy) || !old(isRecording) || old(activeBatchId) != Some(id)) ==>
        batches == SegmentAppended(old(batches), id, segment, status) &&
        activeBatchId.None? && !isRecording && !isBusy && pendingStarts == old(pendingStarts)
      ensures JobsKept() && StoreKept()
      ensures old(Coherent()) ==> Coherent()
    {
      if isBusy || !isRecording || activeBatchId != Some(id) {
        return;
      }
      batches := SegmentAppended(batches, id, segment, status);
      isRecording := false;
      activeBatchId := None;
    }

    /** A recorder error reported by the hook, which stops the recorder, and the effect that
        watches it: with a truthy message and an active recording, that recording fails with
        the message and the recorder is released. An empty message is falsy, so nothing
        happens. A suspended record handler is left pending. */
    method RecorderError(message: string)
      modifies this
      ensures Truthy(message) && old(activeBatchId).Some? ==>
        batches == RecorderFailed(old(batches), old(activeBatchId).value, message) &&
        activeBatchId.None? && !isBusy
      ensures !(Truthy(message) && old(activeBatchId).Some?) ==>
        batches == old(batches) && activeBatchId == old(activeBatchId) && isBusy == old(isBusy)
      ensures Truthy(message) ==> !isRecording
      ensures !Truthy(message) ==> isRecording == old(isRecording)
      ensures pendingStarts == old(pendingStarts)
      ensures JobsKept() && StoreKept()
      ensures old(Coherent()) && old(pendingStarts) == [] ==> Coherent()
    {
      if !Truthy(message) {
        return;
      }
      isRecording := false;
      if activeBatchId.Some? {
        batches := RecorderFailed(batches, activeBatchId.value, message);
        activeBatchId := None;
        isBusy := false;
      }
    }

    // -------------------------------------------------------------------------------------
    // Transcription

    /** `handleProcessAll` up to its `await`: every selected recording becomes processing and
        gets a job using the app's model. */
    method BeginProcessAll(model: string)
      modifies this
      ensures Selection(old(batches)) == [] ==> batches == old(batches) && transcriptions == old(transcriptions)
      ensures Selection(old(batches)) != [] ==>
        batches == MarkedProcessing(old(batches), Selection(old(batches))) &&
        transcriptions == old(transcriptions) + ProcessAllJobs(Selection(old(batches)), model)
      ensures RecorderKept() && chats == old(chats) && StoreKept()
      ensures old(Coherent()) ==> Coherent()
    {
      var selected := Selection(batches);
      if selected != [] {
        SelectionProcessable(batches);
        if Coherent() {
          MarkingKeepsCoherent(batches, selected, activeBatchId, isBusy, isRecording, pendingStarts);
        }
        batches := MarkedProcessing(batches, selected);
        transcriptions := transcriptions + ProcessAllJobs(selected, model);
      }
    }

    /** The reprocess handler's updates for the recording `b` it found: the recording becomes
        processing and a job with its merged segments and its chosen model is started. */
    method StartReprocess(b: Batch)
      requires |b.audioBlobs| > 0
      modifies this
      ensures batches == ReprocessStarted(old(batches), b.id)
      ensures transcriptions == old(transcriptions) +
        [TranscriptionJob(b.id, Merge(b.audioBlobs, b.audioBlobs[0].mimeType), b.selectedReprocessModel, ReprocessGreeting)]
      ensures RecorderKept() && chats == old(chats) && StoreKept()
      ensures old(Coherent()) ==> Coherent()
    {
      if Coherent() {
        ReprocessKeepsCoherent(batches, b.id, activeBatchId, isBusy, isRecording, pendingStarts);
      }
      batches := ReprocessStarted(batches, b.id);
      transcriptions := transcriptions +
        [TranscriptionJob(b.id, Merge(b.audioBlobs, b.audioBlobs[0].mimeType), b.selectedReprocessModel, ReprocessGreeting)];
    }

    /** `handleReprocessBatch` up to its `await`: a recording with audio and a newly chosen
        model becomes processing with its error cleared, and gets a job using that model. */
    method BeginReprocess(id: string)
      modifies this
      ensures IndexOf(old(batches), id).None? ==> batches == old(batches) && transcriptions == old(transcriptions)
      ensures IndexOf(old(batches), id).Some? ==>
        var b := old(batches)[IndexOf(old(batches), id).value];
        (!ReprocessAllowed(b) ==> batches == old(batches) && transcriptions == old(transcriptions)) &&
        (ReprocessAllowed(b) ==>
          batches == ReprocessStarted(old(batches), id) &&
          transcriptions == old(transcriptions) +
            [TranscriptionJob(id, Merge(b.audioBlobs, b.audioBlobs[0].mimeType), b.selectedReprocessModel, ReprocessGreeting)])
      ensures RecorderKept() && chats == old(chats) && StoreKept()
      ensures old(Coherent()) ==> Coherent()
    {
      var index := IndexOf(batches, id);
      if index.Some? && ReprocessAllowed(batches[index.value]) {
        StartReprocess(batches[index.value]);
      }
    }

    /** The rest of a transcription once the service settles: `client` is the client slot as
        `processAudio` read it, `chatClient` as `createChat` read it and `reply` the
        transcription response. Only the job's recording changes. */
    method CompleteTranscription(k: nat, client: Option<Client>, chatClient: Option<Client>, reply: Reply)
      requires k < |transcriptions|
      modifies this
      ensures batches == Settled(old(batches), old(transcriptions[k]).batchId,
                                 TranscriptionOutcome(old(transcriptions[k]), client, chatClient, reply))
      ensures transcriptions == RemoveAt(old(transcriptions), k)
      ensures RecorderKept() && chats == old(chats) && StoreKept()
      ensures old(Coherent()) ==> Coherent()
    {
      var job := transcriptions[k];
      transcriptions := RemoveAt(transcriptions, k);
      batches := Settled(batches, job.batchId, TranscriptionOutcome(job, client, chatClient, reply));
    }

    // -------------------------------------------------------------------------------------
    // Follow-up chat

    /** The part of `handleSendMessage` after the user turn is shown, for the recording `b`
        as it was found: a rebuild is started, the follow-up ends with an error turn or with
        nothing sent, or the parts are sent to the session. */
    method ContinueSend(b: Batch, message: string, audio: Option<Blob>, history: seq<ChatMessage>)
      modifies this
      ensures NeedsRebuild(b) ==>
        batches == old(batches) &&
        chats == old(chats) + [ChatJob(b.id, message, audio, history,
          Rebuilding(Merge(b.audioBlobs, GetCleanMimeType(b.audioBlobs[0])), b.transcript.value, b.model))]
      ensures !NeedsRebuild(b) && b.chat.None? ==>
        batches == ChatAnswered(old(batches), b.id, history + [ReplyTurn(Refused(Error(NoChatSession)))]) &&
        chats == old(chats)
      ensures b.chat.Some? && FollowUpParts(message, audio) == [] ==>
        batches == ChatAbandoned(old(batches), b.id) && chats == old(chats)
      ensures b.chat.Some? && FollowUpParts(message, audio) != [] ==>
        batches == old(batches) && chats == old(chats) + [ChatJob(b.id, message, audio, history, Replying(b.chat.value))]
      ensures RecorderKept() && transcriptions == old(transcriptions) && StoreKept()
      ensures old(Coherent()) ==> Coherent()
    {
      if NeedsRebuild(b) {
        var merged := Merge(b.audioBlobs, GetCleanMimeType(b.audioBlobs[0]));
        chats := chats + [ChatJob(b.id, message, audio, history, Rebuilding(merged, b.transcript.value, b.model))];
      } else if b.chat.None? {
        ghost var shown := batches;
        batches := ChatAnswered(batches, b.id, history + [ReplyTurn(Refused(Error(NoChatSession)))]);
        StatusesKeptCoherent(shown, batches, activeBatchId, isBusy, isRecording, pendingStarts);
      } else if FollowUpParts(message, audio) == [] {
        ghost var shown := batches;
        batches := ChatAbandoned(batches, b.id);
        StatusesKeptCoherent(shown, batches, activeBatchId, isBusy, isRecording, pendingStarts);
      } else {
        chats := chats + [ChatJob(b.id, message, audio, history, Replying(b.chat.value))];
      }
    }

    /** `handleSendMessage` up to its first `await`. The user turn is shown at once; the chat
        is rebuilt when it is missing, and a follow-up without any chat ends with an error
        turn; one with nothing to send only clears the flag. */
    method BeginSend(id: string, message: string, audio: Option<Blob>)
      modifies this
      ensures IndexOf(old(batches), id).None? ==> batches == old(batches) && chats == old(chats)
      ensures IndexOf(old(batches), id).Some? ==>
        var b := old(batches)[IndexOf(old(batches), id).value];
        var shown := ChatOpened(old(batches), id, HistoryWithUser(b, message));
        (b.isChatting ==> batches == old(batches) && chats == old(chats)) &&
        (!b.isChatting && NeedsRebuild(b) ==>
          batches == shown &&
          chats == old(chats) + [ChatJob(id, message, audio, HistoryWithUser(b, message),
            Rebuilding(Merge(b.audioBlobs, GetCleanMimeType(b.audioBlobs[0])), b.transcript.value, b.model))]) &&
        (!b.isChatting && !NeedsRebuild(b) && b.chat.None? ==>
          batches == ChatAnswered(shown, id, HistoryWithUser(b, message) + [ReplyTurn(Refused(Error(NoChatSession)))]) &&
          chats == old(chats)) &&
        (!b.isChatting && b.chat.Some? && FollowUpParts(message, audio) == [] ==>
          batches == ChatAbandoned(shown, id) && chats == old(chats)) &&
        (!b.isChatting && b.chat.Some? && FollowUpParts(message, audio) != [] ==>
          batches == shown &&
          chats == old(chats) + [ChatJob(id, message, audio, HistoryWithUser(b, message), Replying(b.chat.value))])
      ensures RecorderKept() && transcriptions == old(transcriptions) && StoreKept()
      ensures old(Coherent()) ==> Coherent()
    {
      var index := IndexOf(batches, id);
      if index.Some? && !batches[index.value].isChatting {
        var b := batches[index.value];
        var history := HistoryWithUser(b, message);
        ghost var before := batches;
        batches := ChatOpened(batches, id, history);
        StatusesKeptCoherent(before, batches, activeBatchId, isBusy, isRecording, pendingStarts);
        ContinueSend(b, message, audio, history);
      }
    }

    /** The send handler once the rebuilt chat settles: on success the recording keeps the
        new session and the follow-up goes on to the reply; on failure the follow-up ends with
        an error turn after the captured history. */
    method RebuildChat(k: nat, client: Option<Client>)
      requires k < |chats| && chats[k].stage.Rebuilding?
      modifies this
      ensures var job := old(chats[k]);
        var rebuilt := CreateChat(client, job.stage.audio, job.stage.transcript, job.stage.model, Some(job.history));
        (rebuilt.Err? ==>
          batches == ChatAnswered(old(batches), job.batchId, job.history + [ReplyTurn(Refused(rebuilt.error))]) &&
          chats == RemoveAt(old(chats), k)) &&
        (rebuilt.Ok? && FollowUpParts(job.message, job.audio) == [] ==>
          batches == ChatAbandoned(ChatAttached(old(batches), job.batchId, rebuilt.value), job.batchId) &&
          chats == RemoveAt(old(chats), k)) &&
        (rebuilt.Ok? && FollowUpParts(job.message, job.audio) != [] ==>
          batches == ChatAttached(old(batches), job.batchId, rebuilt.value) &&
          chats == RemoveAt(old(chats), k) + [job.(stage := Replying(rebuilt.value))])
      ensures RecorderKept() && transcriptions == old(transcriptions) && StoreKept()
      ensures old(Coherent()) ==> Coherent()
    {
      var job := chats[k];
      chats := RemoveAt(chats, k);
      var rebuilt := CreateChat(client, job.stage.audio, job.stage.transcript, job.stage.model, Some(job.history));
      if rebuilt.Err? {
        batches := ChatAnswered(batches, job.batchId, job.history + [ReplyTurn(Refused(rebuilt.error))]);
      } else {
        batches := ChatAttached(batches, job.batchId, rebuilt.value);
        if FollowUpParts(job.message, job.audio) == [] {
          batches := ChatAbandoned(batches, job.batchId);
        } else {
          chats := chats + [job.(stage := Replying(rebuilt.value))];
        }
      }
    }

    /** The send handler once the session's reply settles: the history becomes the captured
        history plus one AI turn, the reply or the error. */
    method FinishSend(k: nat, reply: ChatReply)
      requires k < |chats| && chats[k].stage.Replying?
      modifies this
      ensures batches == ChatAnswered(old(batches), old(chats[k]).batchId, old(chats[k]).history + [ReplyTurn(reply)])
      ensures chats == RemoveAt(old(chats), k)
      ensures RecorderKept() && transcriptions == old(transcriptions) && StoreKept()
      ensures old(Coherent()) ==> Coherent()
    {
      var job := chats[k];
      chats := RemoveAt(chats, k);
      batches := ChatAnswered(batches, job.batchId, job.history + [ReplyTurn(reply)]);
    }

    // -------------------------------------------------------------------------------------
    // Storage

    /** The auto-save effect once its debounce fires: the list is stored only after the
        first load and only for a signed-in user. */
    method Save(signedIn: bool)
      modifies this
      ensures isDataLoaded && signedIn ==> stored == Some(Serialize(batches))
      ensures !(isDataLoaded && signedIn) ==> stored == old(stored)
      ensures batches == old(batches) && isDataLoaded == old(isDataLoaded)
      ensures RecorderKept() && JobsKept()
    {
      if isDataLoaded && signedIn {
        stored := Some(Serialize(batches));
      }
    }

    /** The load effect once the user's data arrives: a non-empty saved list replaces the
        recordings, each without a chat session and not chatting. */
    method Load(signedIn: bool, saved: Option<seq<SerializableBatch>>)
      modifies this
      ensures signedIn && saved.Some? && |saved.value| > 0 ==> batches == Deserialize(saved.value)
      ensures !(signedIn && saved.Some? && |saved.value| > 0) ==> batches == old(batches)
      ensures isDataLoaded && stored == old(stored)
      ensures RecorderKept() && JobsKept()
      ensures old(Coherent()) && saved.Some? && RestorableSnapshot(saved.value) ==> Coherent()
    {
      if signedIn && saved.Some? && |saved.value| > 0 {
        batches := Deserialize(saved.value);
      }
      isDataLoaded := true;
    }
  }

  /** A recorder error that arrives while a record handler waits for the recorder leaves the
      handler to mark the recording as recording afterwards: the recording is then in
      `Recording` with no active recording and no running recorder, so pause and stop
      ignore it. */
  method StartFailureStrandsRecording(segment: Blob, message: string) returns (p: BatchProcessor)
    requires message != []
    ensures |p.batches| == 1 && p.batches[0].status == Recording
    ensures p.activeBatchId.None? && !p.isRecording && !p.isBusy
    ensures !p.SingleRecorderHolds()
  {
    p := new BatchProcessor();
    p.AddBatch("a", "model");
    p.BeginRecord("a", segment);
    p.RecorderError(message);
    p.CompleteRecord(0, false);
    p.Capture("a", segment, Paused);
    p.Capture("a", segment, Complete);
  }

  /** When the record handler's start resumes after a recorder error and another recording
      has been started meanwhile, two recordings end up in `Recording`. */
  method StaleStartDoublesRecording(segment: Blob, message: string) returns (p: BatchProcessor)
    requires message != []
    ensures |p.batches| == 2
    ensures p.batches[0].status == Recording && p.batches[1].status == Recording
    ensures p.activeBatchId == Some(p.batches[1].id)
  {
    p := new BatchProcessor();
    p.AddBatch("a", "model");
    p.AddBatch("b", "model");
    p.BeginRecord("a", segment);
    p.RecorderError(message);
    p.BeginRecord("b", segment);
    p.CompleteRecord(0, true);
    p.CompleteRecord(0, true);
  }

  /** A list saved while a recording was being captured comes back with that recording in
      `Recording`; with no active recording, pause and stop ignore it. */
  method LoadedRecordingStaysRecording(segment: Blob) returns (p: BatchProcessor)
    ensures |p.batches| == 1 && p.batches[0].status == Recording
    ensures p.batches[0].audioBlobs == []
  {
    p := new BatchProcessor();
    var saved := SerializableBatch("a", "Audio #1", [], None, Recording, "model", "model", None, None);
    p.Load(true, Some([saved]));
    p.Capture("a", segment, Paused);
    p.Capture("a", segment, Complete);
  }
}
