# A verified model of the dictation app's recording, transcription and chat core

The app records or uploads dictation audio and has a Gemini model transcribe it. It then
opens a chat session seeded with the audio and the transcript, where the user can ask
follow-up questions by text or by voice.

It has two modes:

- **Single mode** (`App.tsx`): one recording, its transcript, a follow-up chat, and an
  auto-saved session for the signed-in user.
- **Batch mode** (`components/BatchProcessor.tsx`): a list of recordings, each with its own
  status (`idle`, `recording`, `paused`, `complete`, `processing`, `error`). One recorder is
  shared among them. Any recording can be transcribed, reprocessed with another model,
  chatted about, copied and downloaded. The list is auto-saved and restored.

Both modes use the Gemini service helpers (`services/geminiService.ts`) and the
process-wide client slot (`services/geminiClient.ts`). The follow-up panel
(`components/ChatInterface.tsx`) and the results panel (`components/ResultsDisplay.tsx`)
hold the remaining decisions.

## How the model is built

The modules follow the program:

- **`Text`**: JavaScript's `trim`, `split`, `join`, truthiness and the `\s+` replacement.
- **`Base64`**: the base 64 encoding of section 4 of RFC 4648, with its round trip.
- **`Media`**: `Blob`s, their concatenation, the data URL of RFC 2397 that `FileReader`
  produces, and `atob`.
- **`GeminiClient`**: the client slot, as a class.
- **`GeminiService`**: the service functions.
- **`Conversation`**: the follow-up conventions both modes share.
- **`ResultsDisplay`** and **`ChatInterface`**: the two panels. The chat input is a class.
- **`BatchItems`**: the batch record, the pure per-recording updates
  (`prev.map(b => b.id === id ? … : b)`), the selection of "process all", the derived flags,
  the copy texts, and the stored form with its round trip.
- **`BatchProcessor`** and **`SingleMode`**: the two handler state machines, as classes.

### Awaits and external calls

A handler that awaits is split into the step that runs up to the `await` and the steps
that run once the awaited call settles. Handlers of other events may run in between. The
exceptions, each taken as one step with what follows:

- the batch handlers' `await stopRecording()` (see "Left out");
- `await blobToBase64(audio)` in both send handlers (App.tsx:167,
  components/BatchProcessor.tsx:343) and in the single-mode save (App.tsx:42);
- the store writes: the single-mode save (App.tsx:50), `await clearAllHistory()` in the
  load (App.tsx:84) and `await saveSingleModeHistory(null)` in the reset (App.tsx:203).
- the batch save's conversions and write, which "Left out" lists with the save.

Taking the conversions and the single-mode store writes as one step loses no state: each
continuation uses only values the handler captured before the `await` (the session, the
parts, the snapshot to store), and nothing after a store write reads the app's state. The
store write itself is taken to land when its handler runs, so a slow save landing after a
later reset's write is not modelled.

- A suspended continuation is kept as a pending job on the class: a transcription, a chat
  follow-up, a single-mode run, a single-mode load waiting for its chat, a record handler
  waiting for the recorder, or a chat panel toggle waiting for the recorder.
- The settled value is a parameter of the step that completes the job. This covers a
  service reply, a chat reply, the client slot's content and the recorder's flag.

So the network, the recorder hook and the store are oracles. Completions may arrive in any
order.

### What the recorder bookkeeping invariant does and does not promise

`RecorderCoherent` says:

- recording ids are distinct;
- every recording in `Recording` is the active one, and the recorder is running;
- `isBusy` is held exactly by one suspended record handler, which is for the active
  recording.

Every handler preserves it, with three exceptions that the model exhibits:

- A recorder error while a record handler waits for `startRecording` leaves a recording in
  `Recording` that pause and stop ignore (`StartFailureStrandsRecording`).
- The same race can end with two recordings in `Recording` (`StaleStartDoublesRecording`).
- A list saved while a recording was being captured loads back with that recording in
  `Recording` (`LoadedRecordingStaysRecording`).

## Model

| member | source | states |
|---|---|---|
| Text.TrimStart | services/geminiService.ts:82 | the leading-whitespace cut of `trim` is no longer than its input (what it cuts: `TrimStartCut`) |
| Text.TrimEnd | services/geminiService.ts:82 | the trailing-whitespace cut of `trim` is no longer than its input (what it cuts: `TrimEndCut`) |
| Text.Trim | services/geminiService.ts:82 | `trim()` over the ECMAScript whitespace and line terminators; what it keeps and cuts is stated by `TrimIsInfix`, `TrimEnds` and `TrimEmptyIff` |
| Text.TrimStartCut | services/geminiService.ts:82 | the leading part `trim` removes is all whitespace, and what is left is a suffix of the input that does not start with whitespace |
| Text.TrimEndCut | services/geminiService.ts:82 | the trailing part `trim` removes is all whitespace, and what is left is a prefix of the input that does not end with whitespace |
| Text.TrimIsInfix | services/geminiService.ts:82 | a trimmed string is an infix of its input, and everything cut off on either side is whitespace |
| Text.TrimEnds | services/geminiService.ts:82 | a non-empty trimmed string neither starts nor ends with whitespace |
| Text.TrimEmptyIff | components/ChatInterface.tsx:59 | `input.trim()` is falsy exactly when the input is all whitespace (both directions) |
| Text.TrimIdempotent | components/ChatInterface.tsx:60 | trimming the already trimmed input changes nothing |
| Text.Split | services/geminiService.ts:16 | `split` yields at least one piece, and no piece holds the separator; there is exactly one piece iff the separator is absent, and then it is the whole input |
| Text.JoinSplit | services/geminiService.ts:33 | joining the pieces of a split with the same separator (as a one-character `join`) gives the input back, so splitting loses nothing |
| Text.Before | services/geminiService.ts:16 | the text before the first separator is a separator-free prefix, followed in the input by the separator when it is shorter |
| Text.Truthy | App.tsx:155 | a string is truthy exactly when it is not empty, as `message || …` tests it |
| Text.SplitHead | services/geminiService.ts:16 | `split(c)[0]` is the text before the first `c` |
| Text.BeforeFreePrefix | components/ResultsDisplay.tsx:46 | cutting at the first separator passes over a prefix that lacks it |
| Text.BeforeWithSuffix | services/geminiService.ts:33 | text appended after a separator does not change what comes before the first separator; with no separator in the input, everything up to the appended text's own first separator is before it |
| Text.SplitAtFirst | services/geminiService.ts:33 | splitting `a,b` where `a` has no comma yields `a` followed by the pieces of `b` |
| Text.SplitLast | services/geminiService.ts:33 | the last piece of a split is the text after the last separator, whatever comes before it |
| Text.JoinWith | components/BatchProcessor.tsx:379-382 | joining nothing gives the empty string; otherwise the first part opens the result |
| Text.JoinWithAppend | components/BatchProcessor.tsx:379-382 | one more part adds exactly the separator and that part at the end of the join, so the join of n parts is the parts with the separator between each pair |
| Text.CollapseWhitespace | components/BatchProcessor.tsx:416 | a name with its `\s+` runs replaced by `_` has no whitespace left and is no longer than the name |
| Text.CollapseWhitespaceKeeps | components/BatchProcessor.tsx:416 | a name without whitespace is kept unchanged |
| Text.CollapseAppend | components/BatchProcessor.tsx:416 | the `\s+` replacement works piece by piece across any boundary that does not fall inside a whitespace run |
| Text.CollapseWhitespaceRun | components/BatchProcessor.tsx:416 | a whitespace run of any length between two texts becomes exactly one `_`, and the texts on either side are replaced on their own |
| Base64.IndexToChar | services/geminiService.ts:36 | an alphabet character is never the pad, a comma or a semicolon |
| Base64.CharToIndex | services/geminiService.ts:42 | the pad character stands for no value |
| Base64.CharIndexRoundTrip | services/geminiService.ts:42 | reading back the character of a value gives the value |
| Base64.EncodeGroup | services/geminiService.ts:36 | three octets become four alphabet characters, with no pad, comma or semicolon |
| Base64.Encode | services/geminiService.ts:36 | an encoding is whole groups of four characters and holds no comma or semicolon |
| Base64.EncodeStep | services/geminiService.ts:36 | the encoding of three or more octets is the first group's characters, then the rest's |
| Base64.EncodeLength | services/geminiService.ts:36 | the encoding has four characters for every started group of three octets |
| Base64.DecodeGroup | services/geminiService.ts:42 | a group decodes to one to three octets, and to exactly three unless it is the final group |
| Base64.Decode | services/geminiService.ts:42 | text whose length is not a multiple of four does not decode |
| Base64.DecodeEncodeGroup | services/geminiService.ts:42 | a full group decodes back to its three octets |
| Base64.DecodeEncodeOne | services/geminiService.ts:42 | a padded group of one octet decodes back to it |
| Base64.DecodeEncodeTwo | services/geminiService.ts:42 | a padded group of two octets decodes back to them |
| Base64.DecodeGroupThen | services/geminiService.ts:42 | a full group followed by decodable text decodes to the group's octets, then that text's |
| Base64.DecodeEncodeShort | services/geminiService.ts:42 | decoding inverts encoding for fewer than three octets |
| Base64.DecodeEncode | services/geminiService.ts:42 | decoding inverts encoding for every octet sequence |
| Media.Concat | components/BatchProcessor.tsx:252 | the merged bytes are as many as all segments' together |
| Media.Merge | components/BatchProcessor.tsx:251-252 | a merged blob has the total size of its segments and the first segment's type |
| Media.MergeAppend | components/BatchProcessor.tsx:217-221 | one more segment at the end adds exactly its bytes at the end of the merged audio: no earlier segment is dropped or duplicated |
| Media.DataUrl | services/geminiService.ts:36 | a data URL always contains the comma that opens its payload |
| Media.Atob | services/geminiService.ts:42 | `atob` succeeds exactly on well-formed base 64, with one character per decoded octet whose code is that octet |
| GeminiClient.Lookup | services/geminiClient.ts:13-18 | a lookup succeeds iff the slot holds a client, and returns that client; otherwise it fails with the not-initialised message |
| GeminiClient.ClientSlot.constructor | services/geminiClient.ts:3 | the slot starts empty |
| GeminiClient.ClientSlot.Initialize | services/geminiClient.ts:5-11 | an empty key throws the missing-key error and leaves the slot unchanged; any other key replaces the client |
| GeminiClient.ClientSlot.Get | services/geminiClient.ts:13-18 | an empty slot throws the not-initialised error; otherwise the slot's client is returned |
| GeminiClient.ClientSlot.Clear | services/geminiClient.ts:20-22 | the slot is emptied |
| GeminiClient.SlotLifecycle | services/geminiClient.ts:3-22 | after a clear every get throws, a refused initialisation does not revive the slot, and re-initialising answers with the client of the latest key |
| GeminiService.GetCleanMimeType | services/geminiService.ts:12-25 | the cleaned type is the text before the first `;`, with `video/webm` read as `audio/webm` and `audio/webm` for an untyped blob; it never contains `;` |
| GeminiService.CleanMimeTypeEmpty | services/geminiService.ts:12-25 | the cleaned type is empty exactly when the blob's type starts with `;` |
| GeminiService.BlobToBase64AsWritten | services/geminiService.ts:27-38 | `blobToBase64` as written (`split(',')[1]` of the data URL) yields a comma-free text; what it is for each kind of type is stated by the lemmas below |
| GeminiService.BlobToBase64 | services/geminiService.ts:27-38 | the payload taken after the last comma of the data URL is always the base 64 encoding of the blob's bytes |
| GeminiService.AsWrittenAgreesWithoutComma | services/geminiService.ts:33 | for a type without a comma, `split(',')[1]` finds the payload too |
| GeminiService.AsWrittenCommaInType | services/geminiService.ts:33 | for any type holding a comma, `split(',')[1]` returns the comma-free piece of the data URL's header between the type's first comma and the next one, whatever the bytes; with exactly one comma that is the rest of the type plus `;base64`, which differs from the payload |
| GeminiService.AsWrittenAfterFirstComma | services/geminiService.ts:33 | with a comma in the type, the second piece of the data URL is the text after that comma, up to the next one |
| GeminiService.AsWrittenTwoCodecType | services/geminiService.ts:33 | for `video/webm;codecs=vp8,opus` the code as written yields `opus;base64`, while the last piece is the payload |
| GeminiService.AsWrittenLosesBytes | services/geminiService.ts:27-53 | a blob of the two-codec type, written out by `blobToBase64` as written and read back by `base64ToBlob`, has no bytes left, whatever it held |
| GeminiService.DecodedBlob | services/geminiService.ts:40-53 | the converted blob carries the given type, and has no bytes when decoding fails |
| GeminiService.Base64ToBlob | services/geminiService.ts:40-53 | the byte-copying loop yields as many bytes as `atob`'s string has characters, byte `i` being character `i`'s code; a decoding failure yields an empty blob of the given type instead of an exception |
| GeminiService.BlobRoundTrip | services/geminiService.ts:27-53 | a blob converted to base 64 and back with its own type is the same blob |
| GeminiService.SerializeBlob | components/BatchProcessor.tsx:78-81 | a stored blob is the payload `blobToBase64` yields as written, which has no comma, and its type; for a type without a comma the payload is the base 64 of the bytes |
| GeminiService.StoredBlobRoundTrip | components/BatchProcessor.tsx:78-124 | a stored blob whose type has no comma loads back as the blob that was stored |
| GeminiService.ProcessAudio | services/geminiService.ts:56-90 | the transcription succeeds iff a client exists and the reply has non-empty text, and then yields that text trimmed; without a client it throws the unprefixed not-initialised error; every failure is an `Error` |
| GeminiService.ProcessAudioFailures | services/geminiService.ts:83-89 | every failure of the call, an empty answer included, carries the `Failed to process audio: ` prefix, except a thrown non-`Error`, which becomes the generic message |
| GeminiService.ProcessAudioTrimmed | services/geminiService.ts:77-82 | a transcript never starts or ends with whitespace, and a whitespace-only answer is a success with an empty transcript |
| GeminiService.SeedHistory | services/geminiService.ts:95-130 | the seed starts with the audio entry (cleaned type, payload of `blobToBase64` as written) and the transcript entry; it has `existing.length + 1` entries when there are more than one existing turns, and exactly two otherwise |
| GeminiService.SeedHistoryKeepsTurns | services/geminiService.ts:120-130 | each entry after the seed reads back as the corresponding existing turn, in order, with `You` as the user role and `AI` as the model role (both directions) |
| GeminiService.CreateChat | services/geminiService.ts:92-140 | a session is created iff there is a client; it talks to the given model with the seed history; otherwise the not-initialised error is thrown |
| Conversation.UserTurn | App.tsx:155-156 | the user turn is the user's and is never empty: the message itself when there is one, and `[Audio Message]` for an empty message |
| Conversation.ReplyTurn | App.tsx:182-188 | the closing turn is the AI's: the reply text, or `Sorry, I encountered an error: ` and the error's message |
| Conversation.GreetingTurn | App.tsx:109-110 | the first chat turn is the AI's and starts with the transcript |
| Conversation.FollowUpParts | App.tsx:159-174 | nothing is sent iff there is neither text nor audio; the text comes first; the audio comes last with its cleaned type and the payload of `blobToBase64` as written, the base 64 of its bytes when its type has no comma; the spoken-question instruction comes before it exactly when the text is blank; and the count of parts follows from that |
| ResultsDisplay.SubtypeOrDefault | components/ResultsDisplay.tsx:46 | the subtype piece has no `/`, and is `webm` for a type without one |
| ResultsDisplay.DownloadExtension | components/ResultsDisplay.tsx:46 | `audio/mpeg` downloads as `mp3`; an extension never has `/` or `;`; a type without a subtype gives `webm` |
| ResultsDisplay.ExtensionOfParameterisedType | components/ResultsDisplay.tsx:46 | for `top/sub;params` the extension is exactly `sub` |
| ResultsDisplay.BeforeSlashKeepsSub | components/ResultsDisplay.tsx:46 | the subtype piece of `sub;params` is truthy and cuts to `sub` at `;` |
| ResultsDisplay.DownloadName | components/ResultsDisplay.tsx:37-47 | there is a download iff there is audio, named `audio-transcript.` plus the extension of its type |
| ResultsDisplay.CopyPayload | components/ResultsDisplay.tsx:26-35 | the clipboard gets the transcript iff it is non-empty |
| ResultsDisplay.ReprocessRequest | components/ResultsDisplay.tsx:57-61 | a reprocess is requested iff the chosen model differs from the current one, and it is for the chosen model |
| ChatInterface.IsAwaitingResponse | components/ChatInterface.tsx:66 | the waiting indicator shows exactly while chatting with a last turn that is the user's |
| ChatInterface.AwaitingUntilReply | components/ChatInterface.tsx:66 | the panel waits right after a user turn while chatting, and no longer once the reply turn is appended or the flag is clear |
| ChatInterface.SubmittedFollowUpSends | components/ChatInterface.tsx:57-64 | what the panel submits always has parts to send: the trimmed text first, or the spoken-question instruction and the audio |
| ChatInterface.ChatInput.constructor | components/ChatInterface.tsx:34-37 | the panel starts with no text, no recorded question, the recorder stopped and no toggle pending |
| ChatInterface.ChatInput.Type | components/ChatInterface.tsx:112 | typing replaces the text and nothing else |
| ChatInterface.ChatInput.BeginToggle | components/ChatInterface.tsx:45-53 | up to the `await`: a running recorder gets a pending stop with the question kept; otherwise the question is discarded and a start is pending |
| ChatInterface.ChatInput.CompleteStop | components/ChatInterface.tsx:47-50 | a settled stop leaves the recorder stopped and makes a recording with bytes the question, replacing what is there by then; an empty or missing recording changes nothing else |
| ChatInterface.ChatInput.CompleteStart | components/ChatInterface.tsx:51-53 | a settled start leaves the recorder running exactly when it started, and the text and question untouched |
| ChatInterface.ChatInput.ToggleRecording | components/ChatInterface.tsx:45-55 | a toggle whose await settles at once: a stop keeps the recording only when it has bytes; a start first discards the previous question, and the recorder runs iff the start succeeded |
| ChatInterface.ChatInput.Submit | components/ChatInterface.tsx:57-64 | a submit happens iff the trimmed text is non-empty or audio is present, and no follow-up is in flight; it hands over the trimmed text and the audio and clears both; otherwise nothing changes |
| ChatInterface.SubmitDuringStop | components/ChatInterface.tsx:45-64 | with a hook that clears its recording flag before `stopRecording()` resolves (the panel disables the text box and send button while it reports recording, lines 116 and 135), text submitted while a stop is still settling is sent without the recording, which then becomes the next question to send |
| BatchItems.IndexOf | components/BatchProcessor.tsx:268 | the index found is the first recording with that id; none is found iff no recording has it |
| BatchItems.MapWhere | components/BatchProcessor.tsx:173 | a by-id update changes exactly the recordings with that id |
| BatchItems.Decimal | components/BatchProcessor.tsx:161 | a count is written as a non-empty string of decimal digits |
| BatchItems.DecimalRoundTrip | components/BatchProcessor.tsx:161 | those digits read back as the count |
| BatchItems.Added | components/BatchProcessor.tsx:158-170 | adding appends exactly one recording at the end, leaving the others as they were; it is `Audio #(n+1)`, empty, idle, without a transcript, and uses the current model for both models; a fresh id keeps ids distinct |
| BatchItems.Renamed | components/BatchProcessor.tsx:172-174 | only the name of the recording with that id changes |
| BatchItems.ReprocessModelChosen | components/BatchProcessor.tsx:176-178 | only the reprocess choice of the recording with that id changes |
| BatchItems.Uploaded | components/BatchProcessor.tsx:180-186 | an upload makes the file the recording's only audio and marks it complete; the other recordings are untouched |
| BatchItems.SegmentAppended | components/BatchProcessor.tsx:212-240 | a stopped segment goes at the end of that recording's audio, which becomes paused or complete; the other recordings are untouched |
| BatchItems.RecordingStarted | components/BatchProcessor.tsx:207 | only the recording with that id becomes `recording` |
| BatchItems.RecorderFailed | components/BatchProcessor.tsx:146-156 | only the active recording fails, with the recorder's message |
| BatchItems.SegmentsAccumulate | components/BatchProcessor.tsx:212-225 | successive pauses concatenate the segments in order onto the recording's audio, and leave the other recordings untouched |
| BatchItems.Appended | components/BatchProcessor.tsx:212-225 | a series of pauses of one recording leaves every other recording untouched |
| BatchItems.Processable | components/BatchProcessor.tsx:243 | a recording is processed by "process all" exactly when it is complete or paused, has audio and has no truthy transcript |
| BatchItems.Selection | components/BatchProcessor.tsx:243 | "process all" selects exactly the complete or paused recordings that have audio and no transcript (each once, in list order: `SelectionAppend`) |
| BatchItems.SelectionAppend | components/BatchProcessor.tsx:243 | one more recording joins the end of the selection exactly when it is processable, so the selection is the processable recordings, each once, in list order |
| BatchItems.MarkedProcessing | components/BatchProcessor.tsx:246 | exactly the selected recordings become processing |
| BatchItems.Settle | components/BatchProcessor.tsx:259-262 | a success completes the recording with its transcript, session, one-turn greeting history and model; a failure sets only the error status and message |
| BatchItems.Settled | components/BatchProcessor.tsx:259-262 | a settlement changes only the job's recording |
| BatchItems.SettlementsCommute | components/BatchProcessor.tsx:248-264 | two recordings' settlements give the same list in either order |
| BatchItems.FailureKeepsResults | components/BatchProcessor.tsx:300-303 | a failed attempt keeps the recording's transcript, chat, history and model, and marks only that recording as failed with its message |
| BatchItems.ReprocessAllowed | components/BatchProcessor.tsx:274 | the reprocess handler goes on exactly for a recording with audio whose chosen model differs from its model |
| BatchItems.ReprocessStarted | components/BatchProcessor.tsx:276 | starting a reprocess marks only that recording as processing and clears its error |
| BatchItems.NeedsRebuild | components/BatchProcessor.tsx:321 | the send handler recreates the chat exactly when the recording has no session, a truthy transcript and audio |
| BatchItems.HistoryWithUser | components/BatchProcessor.tsx:313-314 | the captured history is the recording's history followed by the user turn |
| BatchItems.ChatOpened | components/BatchProcessor.tsx:316 | a follow-up opens on that recording only, showing the captured history; statuses are unchanged |
| BatchItems.ChatAttached | components/BatchProcessor.tsx:328 | the rebuilt session is attached to that recording only |
| BatchItems.ChatAnswered | components/BatchProcessor.tsx:360-373 | a follow-up ends on that recording only, with the given history and the flag cleared |
| BatchItems.ChatAbandoned | components/BatchProcessor.tsx:352-355 | a follow-up with nothing to send only clears that recording's flag |
| BatchItems.AllProcessed | components/BatchProcessor.tsx:426 | no recording is processing |
| BatchItems.HasProcessableRecordings | components/BatchProcessor.tsx:427 | some recording is complete or paused, has audio and no transcript |
| BatchItems.HasAnyResults | components/BatchProcessor.tsx:428 | some recording has a truthy transcript |
| BatchItems.AllBatchesProcessed | components/BatchProcessor.tsx:429 | there are results, nothing left to process and nothing processing |
| BatchItems.ProcessableIffSelection | components/BatchProcessor.tsx:426-429 | the "process all" button has work iff the handler selects something, and when all is processed it selects nothing |
| BatchItems.Block | components/BatchProcessor.tsx:381 | a recording's block in the copy-all text is never empty |
| BatchItems.Blocks | components/BatchProcessor.tsx:379-381 | there are blocks iff some recording has a transcript, and none of them is empty (which blocks, in which order: `BlocksAppend`) |
| BatchItems.BlocksAppend | components/BatchProcessor.tsx:379-381 | one more recording adds its `--- name ---` block at the end exactly when it has a transcript, so the blocks are one per recording with a transcript, in list order |
| BatchItems.CopyAllText | components/BatchProcessor.tsx:378-384 | "copy all" writes something iff some recording has a transcript, namely the blocks joined by blank lines |
| BatchItems.CopyAllTextAppend | components/BatchProcessor.tsx:378-384 | after recordings with results, one more recording with a transcript appends a blank line and its block to the copied text; one without a transcript changes nothing |
| BatchItems.CopyForBatch | components/BatchProcessor.tsx:395-398 | a recording's copy button writes its transcript iff it has one |
| BatchItems.DownloadName | components/BatchProcessor.tsx:406-416 | there is a download iff the recording has audio, named after the recording with whitespace runs as `_`, plus the extension of its first segment's type |
| BatchItems.SerializeBatch | components/BatchProcessor.tsx:76-94 | the stored recording keeps its id, name, transcript and status, and one stored blob per segment |
| BatchItems.Serialize | components/BatchProcessor.tsx:75-95 | one stored recording per recording |
| BatchItems.DeserializeBatch | components/BatchProcessor.tsx:123-130 | a loaded recording has no session, is not chatting, and keeps its id and segment count |
| BatchItems.Deserialize | components/BatchProcessor.tsx:123-131 | the list loads back recording by recording |
| BatchItems.BatchRoundTrip | components/BatchProcessor.tsx:75-131 | saving and loading a recording whose segment types have no comma gives it back with no session and not chatting: segments (bytes and type), transcript, status, both models, error and history are kept |
| BatchItems.BatchLosesTwoCodecSegment | components/BatchProcessor.tsx:75-131 | a segment of the two-codec type comes back from storage empty, with its type |
| BatchItems.RoundTrip | components/BatchProcessor.tsx:75-131 | the same holds for the whole list, position by position, when no segment type has a comma |
| BatchItems.AtMostOneRecording | components/BatchProcessor.tsx:192-240 | with distinct ids, recordings that all must be the active one are at most one |
| BatchItems.UpdatesNeverStartRecording | components/BatchProcessor.tsx:180-304 | settling, uploading, pausing, stopping, failing and reprocessing never put a recording into `recording` |
| BatchProcessor.ProcessAllJob | components/BatchProcessor.tsx:249-253 | a selected recording's job carries its merged segments, typed as the first one, with the app's model and the "process all" greeting |
| BatchProcessor.ProcessAllJobs | components/BatchProcessor.tsx:248 | one job per selected recording, in order |
| BatchProcessor.TranscriptionOutcome | components/BatchProcessor.tsx:250-263 | an attempt succeeds iff the transcription does and the client slot is still set for the chat, with its transcript, the job's model and greeting, and a session seeded without history; a failed transcription fails the recording with `processAudio`'s own message (or the generic one), and a missing client at either read fails with the not-initialised message |
| BatchProcessor.TranscriptionGreets | components/BatchProcessor.tsx:253-259 | a successful attempt stores the trimmed transcript and a one-turn history: transcript, blank line, greeting |
| BatchProcessor.StatusesKeptCoherent | components/BatchProcessor.tsx:316 | an update that keeps every id and status keeps the recorder bookkeeping coherent |
| BatchProcessor.NoNewRecordingCoherent | components/BatchProcessor.tsx:246 | an update that keeps every id and starts no recording keeps the recorder bookkeeping coherent |
| BatchProcessor.MarkingKeepsCoherent | components/BatchProcessor.tsx:246 | marking recordings as processing keeps the recorder bookkeeping coherent |
| BatchProcessor.ReprocessKeepsCoherent | components/BatchProcessor.tsx:276 | starting a reprocess keeps the recorder bookkeeping coherent |
| BatchProcessor.SelectionProcessable | components/BatchProcessor.tsx:243 | every selected recording is processable |
| BatchProcessor.BatchProcessor.constructor | components/BatchProcessor.tsx:57-65 | the panel starts empty, idle, not loaded and coherent |
| BatchProcessor.BatchProcessor.AddBatch | components/BatchProcessor.tsx:158-170 | the list becomes the list with one new recording; a fresh id keeps the bookkeeping coherent |
| BatchProcessor.BatchProcessor.Rename | components/BatchProcessor.tsx:172-174 | only the name changes; the bookkeeping stays coherent |
| BatchProcessor.BatchProcessor.ChooseReprocessModel | components/BatchProcessor.tsx:176-178 | only the reprocess choice changes; the bookkeeping stays coherent |
| BatchProcessor.BatchProcessor.Upload | components/BatchProcessor.tsx:180-186 | the file replaces the recording's audio and completes it; the bookkeeping stays coherent |
| BatchProcessor.BatchProcessor.BeginRecord | components/BatchProcessor.tsx:192-206 | nothing happens while busy; otherwise the panel becomes busy for the target; a different recording being captured first gets its segment and is paused |
| BatchProcessor.BatchProcessor.CompleteRecord | components/BatchProcessor.tsx:206-209 | the suspended handler marks its recording as recording and releases the busy flag; with the recorder running, coherence is kept |
| BatchProcessor.BatchProcessor.Capture | components/BatchProcessor.tsx:212-240 | pause or stop does nothing unless the panel is not busy, the recorder runs and the recording is active; then exactly one segment is appended at the end, the status is paused or complete, and the recorder is released |
| BatchProcessor.BatchProcessor.RecorderError | components/BatchProcessor.tsx:146-156 | a truthy recorder error fails only the active recording, with its message, and frees the recorder and the busy flag; an empty message is falsy and changes nothing |
| BatchProcessor.BatchProcessor.BeginProcessAll | components/BatchProcessor.tsx:242-248 | with nothing selected nothing happens; otherwise exactly the selected recordings become processing and each gets one job with the app's model |
| BatchProcessor.BatchProcessor.StartReprocess | components/BatchProcessor.tsx:276-281 | the recording becomes processing with its error cleared, and one job with its merged audio and chosen model starts |
| BatchProcessor.BatchProcessor.BeginReprocess | components/BatchProcessor.tsx:267-281 | an unknown id, a recording without audio, or an unchanged model does nothing; otherwise a reprocess starts with the chosen model |
| BatchProcessor.BatchProcessor.CompleteTranscription | components/BatchProcessor.tsx:250-303 | a settled transcription changes only its own recording, as its outcome says, and leaves the recorder and the other jobs alone |
| BatchProcessor.BatchProcessor.ContinueSend | components/BatchProcessor.tsx:319-357 | after the user turn is shown, the handler rebuilds a missing chat, ends with the no-session error turn, ends with nothing sent, or sends the parts to the session |
| BatchProcessor.BatchProcessor.BeginSend | components/BatchProcessor.tsx:306-357 | an unknown or chatting recording is left alone; otherwise the user turn is shown at once and the follow-up goes one of the four ways above |
| BatchProcessor.BatchProcessor.RebuildChat | components/BatchProcessor.tsx:321-357 | a failed rebuild ends the follow-up with an error turn after the captured history; a rebuilt session is kept, and the follow-up ends with nothing sent or goes on to the reply |
| BatchProcessor.BatchProcessor.FinishSend | components/BatchProcessor.tsx:357-374 | the history becomes the captured history plus exactly one AI turn, the reply or the error, and the flag is cleared |
| BatchProcessor.BatchProcessor.Save | components/BatchProcessor.tsx:67-109 | the list is stored only after the first load and for a signed-in user, and is left unchanged otherwise |
| BatchProcessor.BatchProcessor.Load | components/BatchProcessor.tsx:111-144 | a non-empty saved list replaces the recordings, each with no session and not chatting; the first load is done either way; a snapshot with distinct ids and no `recording` keeps coherence |
| BatchProcessor.StartFailureStrandsRecording | components/BatchProcessor.tsx:146-209 | a recorder error during the start leaves a recording in `recording` with no active recording, which pause and stop then ignore |
| BatchProcessor.StaleStartDoublesRecording | components/BatchProcessor.tsx:146-209 | a stale start resuming after a recorder error and a new start leaves two recordings in `recording` |
| BatchProcessor.LoadedRecordingStaysRecording | components/BatchProcessor.tsx:111-144 | a snapshot saved mid-capture loads back with a recording in `recording` that pause and stop ignore |
| SingleMode.RestoreAsWritten | App.tsx:67-85 | the load's restore as written shows the saved transcript, model, history and decoded audio; it ends in `Success` iff the chat is recreated, with that chat and the stored session kept, and otherwise stays in `Processing` with no chat and the stored session cleared |
| SingleMode.Restorable | App.tsx:67 | a saved session is restored exactly when it was saved with `Success` and a truthy transcript |
| SingleMode.Restore | App.tsx:67-87 | a restore ends in `Success` iff the chat is recreated, with that chat and the stored session kept, and in `Idle` with the stored session cleared otherwise; transcript, model and decoded audio are restored either way |
| SingleMode.RestoreAsWrittenStrands | App.tsx:69-85 | with the client slot still empty, the restore as written is stuck in `Processing` where the corrected one is `Idle` |
| SingleMode.SessionRoundTrip | App.tsx:37-81 | the session a successful run saves, with a recording whose type has no comma, is restorable, and the load restores the same transcript, audio, history and model with a fresh chat |
| SingleMode.SessionLosesTwoCodecAudio | App.tsx:37-81 | a saved session whose recording has the two-codec type is restored with an empty recording |
| SingleMode.App.constructor | App.tsx:25-34 | the app starts idle with the default model and no results |
| SingleMode.App.BeginSubmit | App.tsx:92-100 | missing or empty audio is the empty-audio error and starts nothing; otherwise the status is processing, the error and transcript are cleared, and a run with the current model starts |
| SingleMode.App.BeginReprocess | App.tsx:120-131 | without audio it is the no-audio error; otherwise transcript, chat and history are cleared before the run with the new model starts |
| SingleMode.App.CompleteTranscription | App.tsx:102-117 | a failed transcription ends the run with its message or the handler's fallback; a transcript is shown at once (a submitted recording becomes the audio) and the run goes on to seed the chat |
| SingleMode.App.SettleSeeding | App.tsx:107-147 | a seeded chat opens the results with the one-turn greeting history, and a reprocess adopts its model only then; a failure sets the error status and keeps the model |
| SingleMode.App.CompleteSeeding | App.tsx:107-147 | the run ends as its chat creation settles, as described for the seeding step |
| SingleMode.App.BeginSend | App.tsx:151-179 | without a chat or while chatting nothing changes; otherwise the user turn is appended, and a follow-up with nothing to send ends at once while one with parts is sent |
| SingleMode.App.FinishSend | App.tsx:182-191 | exactly one AI turn, the reply or the error, is appended, and the flag is cleared |
| SingleMode.App.Reset | App.tsx:194-205 | the app is back to idle with no transcript, error, audio, chat or history and not chatting; a signed-in user's stored session is cleared |
| SingleMode.App.Save | App.tsx:37-57 | a session is stored only for a signed-in user, on success, with audio, after the first load |
| SingleMode.App.BeginLoad | App.tsx:59-75 | up to the `await` of the chat: without a user nothing changes; a restorable session shows `Processing` with the saved transcript, decoded audio, history (`|| []`) and model, and a load waits for its chat; other data completes the first load |
| SingleMode.App.SettleLoad | App.tsx:75-86 | a recreated chat is shown with `Success` and the store kept; a failure clears the store and leaves the status as it is; the first load is done either way |
| SingleMode.App.CompleteLoad | App.tsx:75-86 | the pending load ends as its chat creation with the captured values settles, as described for the settling step, and only that load leaves the queue |
| SingleMode.App.Load | App.tsx:59-90 | a load whose chat settles before anything else happens: without a user nothing changes; otherwise a restorable session is restored as `RestoreAsWritten` says and the first load is done |

## Left out

- Sign-in, the API key form, Firestore storage and Firebase configuration are not part of
  this model. The signed-in user is a boolean parameter, and the store is one field per
  mode.
- The Gemini SDK calls (`generateContent`, `chats.create`, `sendMessage`) are replaced by
  the reply they settle with. The prompt and the system instruction are not modelled.
- `FileReader` failures are left out: `blobToBase64` is taken to resolve with the data URL.
  So a `FileReader` error thrown before the `try` of `processAudio` (or inside the follow-up
  handlers) is not modelled.
- `Blob.type` normalisation by the browser is left out: types are kept as given.
- `atob` is modelled as strict base 64; the browser's leniency about whitespace and missing
  padding is left out.
- An answer of `sendMessage` without `text` is left out: a chat reply is its text or an
  error.
- The audio recorder hook is an oracle. `stopRecording` hands back one segment, and a
  recorder error is an event.
  The hook's `isRecording` flag is taken to change when `startRecording` or
  `stopRecording` settles. An empty error message, which the watching effect ignores, is
  taken to leave the hook's flag as it was.
- BatchProcessor.BatchProcessor.BeginRecord: the `await stopRecording()` on a switch is
  taken as one step with the start; only the `await startRecording()` is split.
- BatchProcessor.BatchProcessor.Capture: the `await stopRecording()` of pause and stop is
  taken as one step.
- BatchProcessor.BatchProcessor.RecorderError: it keeps coherence only when no record
  handler is suspended, because of the race it has with one.
- BatchProcessor.BatchProcessor.CompleteRecord: it keeps coherence only when the recorder
  reports running, because the handler marks the recording as recording either way.
- `crypto.randomUUID()` is a parameter of `AddBatch`. The 1000 ms save debounce is a
  separate `Save` step. The 2 s "Copied!" timers, the accordion and the hidden file inputs
  are rendering state and are left out.
- Clipboard writes, object URLs and anchor clicks are left out. The model keeps only what
  would be written or downloaded (`CopyAllText`, `CopyForBatch`, `CopyPayload`,
  `DownloadName`).
- `Promise.all` in "process all" and in saving is left out: each job settles independently,
  in any order (`SettlementsCommute`). The batch save is one atomic step.
- The `try`/`catch` around loading a batch list is left out. Stored data is typed, and
  `base64ToBlob` never throws.
- The mode switch between single and batch mode, the model selector, and "clear all data"
  with its page reload are left out.
- GeminiService.SeedHistory: the in-place `push` of the converted history is modelled as
  the concatenation of values.
- GeminiService.StoredBlobRoundTrip: holds only for a type without a comma, because the
  payload is taken as written (`split(',')[1]`); a type with a comma loses its bytes.
- BatchItems.BatchRoundTrip: holds only when no segment type has a comma, for the same
  reason; `BatchItems.RoundTrip` likewise.
- SingleMode.SessionRoundTrip: holds only for a recording whose type has no comma, for the
  same reason.
- SingleMode.App.Load: the failure path's `clearAllHistory` also clears the batch-mode
  save kept for the user in the same store (contexts/AuthContext.tsx is not part of this
  model); the model clears only the single-mode `stored` field.

## Findings

| source | as written | input that shows it | evidently intended | confidence | as-written member | corrected member |
|---|---|---|---|---|---|---|
| services/geminiService.ts:33 | `blobToBase64` keeps the piece after the first comma of the data URL | a blob of type `video/webm;codecs=vp8,opus`, the type browser recorders report for two-codec WebM: the result is `opus;base64`, not the audio | the payload after the last comma, which is always the base 64 of the bytes | not executed; proved for every type holding a comma (a header piece instead of the payload), and for the two-codec type that it decodes to no bytes | GeminiService.AsWrittenTwoCodecType | GeminiService.BlobToBase64 |
| App.tsx:67-85 | when the saved chat cannot be recreated, the load clears the stored session but leaves the status at `Processing`, set at line 69 | a signed-in user whose client slot is still empty when the load runs: `createChat` throws the not-initialised error | return to a screen the user can act on (`Idle`), as after a reset | not executed; the stuck status follows from the code as written | SingleMode.RestoreAsWrittenStrands | SingleMode.Restore |

The rest of the model keeps the code as written and uses the corrected definitions only to
state what was intended:

- The stored blobs, the chat seed and the follow-up parts carry the payload of
  `BlobToBase64AsWritten`; the round trips are proved for types without a comma, and the
  two-codec type is shown to lose its bytes (`AsWrittenLosesBytes`,
  `BatchLosesTwoCodecSegment`, `SessionLosesTwoCodecAudio`).
- `SingleMode.App.Load` restores through `RestoreAsWritten`; `Restore` states the intended
  outcome.
