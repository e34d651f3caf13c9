/** The recordings of batch mode as values: the record of one recording, the updates the
    batch handlers apply to the list (each by id, as `prev.map(b => b.id === id ? … : b)`),
    the selection "process all" makes, the derived flags of the panel, the copy-all text,
    and the stored form of the list with its round trip. */
module BatchItems {
  import opened Wrappers
  import opened Text
  import opened Media
  import opened GeminiService
  import opened Conversation
  import ResultsDisplay

  /** The status of a recording; `Failed` is the source's `'error'`. */
  datatype BatchStatus = Idle | Recording | Paused | Complete | Processing | Failed

  /** One recording of batch mode. `transcript` is `null` until a transcription succeeds;
      `error`, `chat` and `chatHistory` are the optional fields of the record. */
  datatype Batch = Batch(
    id: string,
    name: string,
    audioBlobs: seq<Blob>,
    transcript: Option<string>,
    status: BatchStatus,
    model: string,
    selectedReprocessModel: string,
    error: Option<string>,
    chat: Option<ChatSession>,
    chatHistory: Option<seq<ChatMessage>>,
    isChatting: bool)

  /** A recording as it is stored: each segment as its base64 payload and type, no chat
      session and no chatting flag. */
  datatype SerializableBatch = SerializableBatch(
    id: string,
    name: string,
    audioBlobs: seq<StoredBlob>,
    transcript: Option<string>,
    status: BatchStatus,
    model: string,
    selectedReprocessModel: string,
    error: Option<string>,
    chatHistory: Option<seq<ChatMessage>>)

  const ProcessAllGreeting := "I have reviewed the audio and transcript for this dictation. How can I help you further?"
  const ReprocessGreeting := "I have reviewed the audio and the new transcript. How can I help you further?"

  /** `!!b.transcript`: a transcript that is present and non-empty. */
  predicate HasTranscript(b: Batch) {
    b.transcript.Some? && Truthy(b.transcript.value)
  }

  /** The ids of the list, in order. */
  function Ids(bs: seq<Batch>): (ids: seq<string>)
    ensures |ids| == |bs| && forall i :: 0 <= i < |bs| ==> ids[i] == bs[i].id
  {
    seq(|bs|, i requires 0 <= i < |bs| => bs[i].id)
  }

  predicate UniqueIds(bs: seq<Batch>) {
    forall i, j :: 0 <= i < j < |bs| ==> bs[i].id != bs[j].id
  }

  /** `batches.findIndex(b => b.id === id)`. */
  function IndexOf(bs: seq<Batch>, id: string): (r: Option<nat>)
    ensures r.Some? ==> r.value < |bs| && bs[r.value].id == id
    ensures r.Some? ==> forall j :: 0 <= j < r.value ==> bs[j].id != id
    ensures r.None? <==> id !in Ids(bs)
  {
    if bs == [] then None
    else if bs[0].id == id then Some(0)
    else
      var r := IndexOf(bs[1..], id);
      assert Ids(bs) == [bs[0].id] + Ids(bs[1..]);
      if r.None? then None else Some(r.value + 1)
  }

  /** `prev.map(b => b.id === id ? f(b) : b)`. */
  function MapWhere(bs: seq<Batch>, id: string, f: Batch -> Batch): (r: seq<Batch>)
    ensures |r| == |bs|
    ensures forall i :: 0 <= i < |bs| ==> r[i] == if bs[i].id == id then f(bs[i]) else bs[i]
  {
    seq(|bs|, i requires 0 <= i < |bs| => if bs[i].id == id then f(bs[i]) else bs[i])
  }

  /** `r` is `bs` with only the recordings whose id is `id` changed, and no id changed. */
  ghost predicate OthersKept(bs: seq<Batch>, r: seq<Batch>, id: string) {
    |r| == |bs| &&
    (forall i :: 0 <= i < |bs| ==> r[i].id == bs[i].id) &&
    (forall i :: 0 <= i < |bs| && bs[i].id != id ==> r[i] == bs[i])
  }

  /** `r` is `bs` with the same ids and statuses at every position. */
  ghost predicate StatusesKept(bs: seq<Batch>, r: seq<Batch>) {
    |r| == |bs| && forall i :: 0 <= i < |bs| ==> r[i].id == bs[i].id && r[i].status == bs[i].status
  }

  // ---------------------------------------------------------------------------------------
  // Adding and editing

  /** The decimal digits of `n`. */
  function Decimal(n: nat): (r: string)
    ensures r != [] && forall k :: 0 <= k < |r| ==> '0' <= r[k] <= '9'
  {
    var digit := ['0' + (n % 10) as char];
    if n < 10 then digit else Decimal(n / 10) + digit
  }

  /** The number a string of decimal digits denotes. */
  function DecimalValue(s: string): nat
    requires forall k :: 0 <= k < |s| ==> '0' <= s[k] <= '9'
  {
    if s == [] then 0 else 10 * DecimalValue(s[..|s| - 1]) + (s[|s| - 1] - '0') as nat
  }

  /** `Decimal` writes `n` in digits that read back as `n`. */
  lemma {:induction false} DecimalRoundTrip(n: nat)
    ensures DecimalValue(Decimal(n)) == n
  {
    var r := Decimal(n);
    if n >= 10 {
      DecimalRoundTrip(n / 10);
      assert r[..|r| - 1] == Decimal(n / 10);
    }
  }

  /** The recording `addBatch` appends: named after its position, empty, idle, and using the
      app's current model for both its model and its reprocess choice. */
  function NewBatch(id: string, count: nat, model: string): Batch {
    Batch(id, "Audio #" + Decimal(count + 1), [], None, Idle, model, model, None, None, None, false)
  }

  function Added(bs: seq<Batch>, id: string, model: string): (r: seq<Batch>)
    ensures |r| == |bs| + 1 && r[..|bs|] == bs
    ensures r[|bs|].id == id && r[|bs|].name == "Audio #" + Decimal(|bs| + 1)
    ensures r[|bs|].status == Idle && r[|bs|].audioBlobs == []
    ensures r[|bs|].transcript.None? && !r[|bs|].isChatting
    ensures r[|bs|].model == model && r[|bs|].selectedReprocessModel == model
    ensures id !in Ids(bs) && UniqueIds(bs) ==> UniqueIds(r)
  {
    bs + [NewBatch(id, |bs|, model)]
  }

  function Renamed(bs: seq<Batch>, id: string, name: string): (r: seq<Batch>)
    ensures OthersKept(bs, r, id) && StatusesKept(bs, r)
    ensures forall i :: 0 <= i < |bs| && bs[i].id == id ==> r[i] == bs[i].(name := name)
  {
    MapWhere(bs, id, (b: Batch) => b.(name := name))
  }

  function ReprocessModelChosen(bs: seq<Batch>, id: string, model: string): (r: seq<Batch>)
    ensures OthersKept(bs, r, id) && StatusesKept(bs, r)
    ensures forall i :: 0 <= i < |bs| && bs[i].id == id ==> r[i] == bs[i].(selectedReprocessModel := model)
  {
    MapWhere(bs, id, (b: Batch) => b.(selectedReprocessModel := model))
  }

  /** An uploaded file replaces the recording's audio and makes it complete. */
  function Uploaded(bs: seq<Batch>, id: string, file: Blob): (r: seq<Batch>)
    ensures OthersKept(bs, r, id)
    ensures forall i :: 0 <= i < |bs| && bs[i].id == id ==>
      r[i] == bs[i].(audioBlobs := [file], status := Complete)
  {
    MapWhere(bs, id, (b: Batch) => b.(audioBlobs := [file], status := Complete))
  }

  // ---------------------------------------------------------------------------------------
  // Capture

  /** A stopped segment is appended to the recording's audio, which takes `status`
      (`Paused` after a pause or a switch, `Complete` after a stop). */
  function SegmentAppended(bs: seq<Batch>, id: string, segment: Blob, status: BatchStatus): (r: seq<Batch>)
    ensures OthersKept(bs, r, id)
    ensures forall i :: 0 <= i < |bs| && bs[i].id == id ==>
      r[i] == bs[i].(audioBlobs := bs[i].audioBlobs + [segment], status := status)
  {
    MapWhere(bs, id, (b: Batch) => b.(audioBlobs := b.audioBlobs + [segment], status := status))
  }

  function RecordingStarted(bs: seq<Batch>, id: string): (r: seq<Batch>)
    ensures OthersKept(bs, r, id)
    ensures forall i :: 0 <= i < |bs| && bs[i].id == id ==> r[i] == bs[i].(status := Recording)
  {
    MapWhere(bs, id, (b: Batch) => b.(status := Recording))
  }

  function RecorderFailed(bs: seq<Batch>, id: string, message: string): (r: seq<Batch>)
    ensures OthersKept(bs, r, id)
    ensures forall i :: 0 <= i < |bs| && bs[i].id == id ==> r[i] == bs[i].(status := Failed, error := Some(message))
  {
    MapWhere(bs, id, (b: Batch) => b.(status := Failed, error := Some(message)))
  }

  /** Appending segments one after another concatenates them in order. */
  lemma {:induction false} SegmentsAccumulate(bs: seq<Batch>, id: string, segs: seq<Blob>, i: nat)
    requires i < |bs| && bs[i].id == id
    ensures Appended(bs, id, segs)[i].audioBlobs == bs[i].audioBlobs + segs
    ensures forall j :: 0 <= j < |bs| && bs[j].id != id ==> Appended(bs, id, segs)[j] == bs[j]
    decreases |segs|
  {
    if segs != [] {
      var init := segs[..|segs| - 1];
      SegmentsAccumulate(bs, id, init, i);
      assert segs == init + [segs[|segs| - 1]];
    }
  }

  /** The list after a series of paused segments of one recording. */
  function Appended(bs: seq<Batch>, id: string, segs: seq<Blob>): (r: seq<Batch>)
    ensures OthersKept(bs, r, id)
    decreases |segs|
  {
    if segs == [] then bs
    else SegmentAppended(Appended(bs, id, segs[..|segs| - 1]), id, segs[|segs| - 1], Paused)
  }

  // ---------------------------------------------------------------------------------------
  // Transcription

  /** The filter of "process all": complete or paused recordings that have audio and no
      transcript yet. */
  predicate Processable(b: Batch) {
    (b.status == Complete || b.status == Paused) && |b.audioBlobs| > 0 && !HasTranscript(b)
  }

  /** `batches.filter(Processable)`. */
  function Selection(bs: seq<Batch>): (r: seq<Batch>)
    ensures forall b :: b in r <==> b in bs && Processable(b)
    ensures |r| <= |bs|
  {
    if bs == [] then []
    else
      var rest := Selection(bs[1..]);
      assert bs == [bs[0]] + bs[1..];
      if Processable(bs[0]) then [bs[0]] + rest else rest
  }

  /** One more recording joins the end of the selection exactly when it is processable; with
      `Selection([]) == []` this fixes the selection as the processable recordings, each
      once, in list order. */
  lemma {:induction false} SelectionAppend(bs: seq<Batch>, b: Batch)
    ensures Selection(bs + [b]) == Selection(bs) + (if Processable(b) then [b] else [])
    decreases |bs|
  {
    var longer := bs + [b];
    if bs == [] {
      assert longer == [b];
      assert longer[1..] == [];
    } else {
      assert longer[0] == bs[0];
      assert longer[1..] == bs[1..] + [b];
      SelectionAppend(bs[1..], b);
    }
  }

  /** Every recording of the list whose id is among the selected ones becomes processing. */
  function MarkedProcessing(bs: seq<Batch>, selected: seq<Batch>): (r: seq<Batch>)
    ensures |r| == |bs|
    ensures forall i :: 0 <= i < |bs| ==>
      r[i] == if bs[i].id in Ids(selected) then bs[i].(status := Processing) else bs[i]
  {
    seq(|bs|, i requires 0 <= i < |bs| =>
      if bs[i].id in Ids(selected) then bs[i].(status := Processing) else bs[i])
  }

  /** How one transcription attempt settles. */
  datatype Outcome =
    | Transcribed(transcript: string, session: ChatSession, greeting: string, model: string)
    | Unsuccessful(message: string)

  /** The completion of one attempt, as the success and the failure branch write it. */
  function Settle(b: Batch, o: Outcome): (r: Batch)
    ensures r.id == b.id && r.name == b.name && r.audioBlobs == b.audioBlobs
    ensures r.selectedReprocessModel == b.selectedReprocessModel
    ensures o.Transcribed? ==>
      r.status == Complete && r.transcript == Some(o.transcript) &&
      r.chat == Some(o.session) && r.chatHistory == Some([GreetingTurn(o.transcript, o.greeting)]) &&
      !r.isChatting && r.model == o.model && r.error == b.error
    ensures o.Unsuccessful? ==> r == b.(status := Failed, error := Some(o.message))
  {
    match o
    case Transcribed(t, s, g, m) =>
      b.(status := Complete, transcript := Some(t), chat := Some(s),
         chatHistory := Some([GreetingTurn(t, g)]), isChatting := false, model := m)
    case Unsuccessful(msg) => b.(status := Failed, error := Some(msg))
  }

  function Settled(bs: seq<Batch>, id: string, o: Outcome): (r: seq<Batch>)
    ensures OthersKept(bs, r, id)
    ensures forall i :: 0 <= i < |bs| && bs[i].id == id ==> r[i] == Settle(bs[i], o)
  {
    MapWhere(bs, id, (b: Batch) => Settle(b, o))
  }

  /** The attempts of one "process all" run settle independently: two recordings' outcomes
      may arrive in either order with the same result. */
  lemma SettlementsCommute(bs: seq<Batch>, a: string, oa: Outcome, b: string, ob: Outcome)
    requires a != b
    ensures Settled(Settled(bs, a, oa), b, ob) == Settled(Settled(bs, b, ob), a, oa)
  {
    var left := Settled(Settled(bs, a, oa), b, ob);
    var right := Settled(Settled(bs, b, ob), a, oa);
    forall i | 0 <= i < |bs|
      ensures left[i] == right[i]
    {
      assert Settled(bs, a, oa)[i].id == bs[i].id;
      assert Settled(bs, b, ob)[i].id == bs[i].id;
    }
  }

  /** A failed attempt keeps what the recording already had: its transcript, its chat and its
      history, and the model that produced them. */
  lemma FailureKeepsResults(bs: seq<Batch>, id: string, message: string, i: nat)
    requires i < |bs|
    ensures var r := Settled(bs, id, Unsuccessful(message));
      r[i].transcript == bs[i].transcript && r[i].chat == bs[i].chat &&
      r[i].chatHistory == bs[i].chatHistory && r[i].model == bs[i].model &&
      (bs[i].id == id ==> r[i].status == Failed && r[i].error == Some(message))
  {
  }

  /** Reprocessing starts by marking the recording processing and clearing its error. */
  function ReprocessStarted(bs: seq<Batch>, id: string): (r: seq<Batch>)
    ensures OthersKept(bs, r, id)
    ensures forall i :: 0 <= i < |bs| && bs[i].id == id ==> r[i] == bs[i].(status := Processing, error := None)
  {
    MapWhere(bs, id, (b: Batch) => b.(status := Processing, error := None))
  }

  /** The reprocess handler runs only for a recording with audio whose chosen model differs
      from the one that made its transcript. */
  predicate ReprocessAllowed(b: Batch) {
    |b.audioBlobs| > 0 && b.selectedReprocessModel != b.model
  }

  // ---------------------------------------------------------------------------------------
  // Follow-up chat

  /** The history the send handler captures: the recording's history and the user turn. */
  function HistoryWithUser(b: Batch, message: string): (h: seq<ChatMessage>)
    ensures |h| >= 1 && h[|h| - 1] == UserTurn(message)
    ensures b.chatHistory.Some? ==> h[..|h| - 1] == b.chatHistory.value
    ensures b.chatHistory.None? ==> |h| == 1
  {
    (if b.chatHistory.Some? then b.chatHistory.value else []) + [UserTurn(message)]
  }

  /** The send handler rebuilds a missing chat from the transcript and the audio. */
  predicate NeedsRebuild(b: Batch) {
    b.chat.None? && HasTranscript(b) && |b.audioBlobs| > 0
  }

  function ChatOpened(bs: seq<Batch>, id: string, history: seq<ChatMessage>): (r: seq<Batch>)
    ensures OthersKept(bs, r, id) && StatusesKept(bs, r)
    ensures forall i :: 0 <= i < |bs| && bs[i].id == id ==>
      r[i] == bs[i].(isChatting := true, chatHistory := Some(history))
  {
    MapWhere(bs, id, (b: Batch) => b.(isChatting := true, chatHistory := Some(history)))
  }

  function ChatAttached(bs: seq<Batch>, id: string, session: ChatSession): (r: seq<Batch>)
    ensures OthersKept(bs, r, id) && StatusesKept(bs, r)
    ensures forall i :: 0 <= i < |bs| && bs[i].id == id ==> r[i] == bs[i].(chat := Some(session))
  {
    MapWhere(bs, id, (b: Batch) => b.(chat := Some(session)))
  }

  /** The end of a follow-up: the history is the captured one plus the reply turn. */
  function ChatAnswered(bs: seq<Batch>, id: string, history: seq<ChatMessage>): (r: seq<Batch>)
    ensures OthersKept(bs, r, id) && StatusesKept(bs, r)
    ensures forall i :: 0 <= i < |bs| && bs[i].id == id ==>
      r[i] == bs[i].(isChatting := false, chatHistory := Some(history))
  {
    MapWhere(bs, id, (b: Batch) => b.(isChatting := false, chatHistory := Some(history)))
  }

  /** A follow-up with nothing to send only clears the flag. */
  function ChatAbandoned(bs: seq<Batch>, id: string): (r: seq<Batch>)
    ensures OthersKept(bs, r, id) && StatusesKept(bs, r)
    ensures forall i :: 0 <= i < |bs| && bs[i].id == id ==> r[i] == bs[i].(isChatting := false)
  {
    MapWhere(bs, id, (b: Batch) => b.(isChatting := false))
  }

  // ---------------------------------------------------------------------------------------
  // Derived flags and copying

  predicate AllProcessed(bs: seq<Batch>) {
    forall i :: 0 <= i < |bs| ==> bs[i].status != Processing
  }

  predicate HasProcessableRecordings(bs: seq<Batch>) {
    exists i :: 0 <= i < |bs| && Processable(bs[i])
  }

  predicate HasAnyResults(bs: seq<Batch>) {
    exists i :: 0 <= i < |bs| && HasTranscript(bs[i])
  }

  predicate AllBatchesProcessed(bs: seq<Batch>) {
    HasAnyResults(bs) && !HasProcessableRecordings(bs) && AllProcessed(bs)
  }

  /** The "process all" button has work exactly when the handler's filter selects some
      recording; when every recording is processed the filter selects none. */
  lemma ProcessableIffSelection(bs: seq<Batch>)
    ensures HasProcessableRecordings(bs) <==> Selection(bs) != []
    ensures AllBatchesProcessed(bs) ==> Selection(bs) == []
  {
    if HasProcessableRecordings(bs) {
      var i :| 0 <= i < |bs| && Processable(bs[i]);
      assert bs[i] in Selection(bs);
    }
    if Selection(bs) != [] {
      assert Selection(bs)[0] in bs;
    }
  }

  /** The text of one recording in the copy-all text. */
  function Block(b: Batch): (s: string)
    requires b.transcript.Some?
    ensures s != []
  {
    "--- " + b.name + " ---\n\n" + b.transcript.value
  }

  /** The blocks of the recordings with a transcript, in order. */
  function Blocks(bs: seq<Batch>): (r: seq<string>)
    ensures r == [] <==> !HasAnyResults(bs)
    ensures forall k :: 0 <= k < |r| ==> r[k] != []
  {
    if bs == [] then []
    else
      var rest := Blocks(bs[1..]);
      assert HasAnyResults(bs) <==> HasTranscript(bs[0]) || HasAnyResults(bs[1..]) by {
        if HasAnyResults(bs[1..]) {
          var i :| 0 <= i < |bs[1..]| && HasTranscript(bs[1..][i]);
          assert HasTranscript(bs[i + 1]);
        }
        if HasAnyResults(bs) && !HasTranscript(bs[0]) {
          var i :| 0 <= i < |bs| && HasTranscript(bs[i]);
          assert HasTranscript(bs[1..][i - 1]);
        }
      }
      if HasTranscript(bs[0]) then [Block(bs[0])] + rest else rest
  }

  /** One more recording adds its block at the end exactly when it has a transcript; with
      `Blocks([]) == []` this fixes the blocks as one per recording with a transcript, in list
      order. */
  lemma {:induction false} BlocksAppend(bs: seq<Batch>, b: Batch)
    ensures Blocks(bs + [b]) == Blocks(bs) + (if HasTranscript(b) then [Block(b)] else [])
    decreases |bs|
  {
    var longer := bs + [b];
    if bs == [] {
      assert longer == [b];
      assert longer[1..] == [];
    } else {
      assert longer[0] == bs[0];
      assert longer[1..] == bs[1..] + [b];
      BlocksAppend(bs[1..], b);
    }
  }

  /** The text "copy all" writes: the blocks separated by blank lines; `None` when there is
      nothing to copy. */
  function CopyAllText(bs: seq<Batch>): (clip: Option<string>)
    ensures clip.None? <==> !HasAnyResults(bs)
    ensures clip.Some? ==> clip.value == JoinWith(Blocks(bs), "\n\n") && clip.value != []
  {
    var text := JoinWith(Blocks(bs), "\n\n");
    if Truthy(text) then Some(text) else None
  }

  /** A recording with a transcript after others with results adds a blank line and its
      block at the end of the copied text; one without a transcript changes nothing. */
  lemma CopyAllTextAppend(bs: seq<Batch>, b: Batch)
    requires HasAnyResults(bs)
    ensures HasTranscript(b) ==> CopyAllText(bs + [b]) == Some(CopyAllText(bs).value + "\n\n" + Block(b))
    ensures !HasTranscript(b) ==> CopyAllText(bs + [b]) == CopyAllText(bs)
  {
    BlocksAppend(bs, b);
    var i :| 0 <= i < |bs| && HasTranscript(bs[i]);
    assert (bs + [b])[i] == bs[i];
    if HasTranscript(b) {
      JoinWithAppend(Blocks(bs), Block(b), "\n\n");
    } else {
      assert Blocks(bs) + [] == Blocks(bs);
    }
  }

  /** What the per-recording copy button writes. */
  function CopyForBatch(b: Batch): (clip: Option<string>)
    ensures clip.Some? <==> HasTranscript(b)
    ensures clip.Some? ==> clip.value == b.transcript.value
  {
    if HasTranscript(b) then Some(b.transcript.value) else None
  }

  /** The file name of a recording's download: its name with whitespace runs as `_`, and the
      extension of its first segment's type; `None` for a recording without audio. */
  function DownloadName(b: Batch): (name: Option<string>)
    ensures name.None? <==> b.audioBlobs == []
    ensures name.Some? ==>
      name.value == CollapseWhitespace(b.name) + "." + ResultsDisplay.DownloadExtension(b.audioBlobs[0].mimeType)
  {
    if b.audioBlobs == [] then None
    else Some(CollapseWhitespace(b.name) + "." + ResultsDisplay.DownloadExtension(b.audioBlobs[0].mimeType))
  }

  // ---------------------------------------------------------------------------------------
  // Storage

  function SerializeBatch(b: Batch): (s: SerializableBatch)
    ensures s.id == b.id && s.name == b.name && s.transcript == b.transcript && s.status == b.status
    ensures |s.audioBlobs| == |b.audioBlobs|
  {
    SerializableBatch(b.id, b.name, seq(|b.audioBlobs|, k requires 0 <= k < |b.audioBlobs| => SerializeBlob(b.audioBlobs[k])),
      b.transcript, b.status, b.model, b.selectedReprocessModel, b.error, b.chatHistory)
  }

  function Serialize(bs: seq<Batch>): (s: seq<SerializableBatch>)
    ensures |s| == |bs|
  {
    seq(|bs|, i requires 0 <= i < |bs| => SerializeBatch(bs[i]))
  }

  /** A stored recording comes back with its segments decoded, no chat session and not
      chatting. */
  function DeserializeBatch(s: SerializableBatch): (b: Batch)
    ensures b.chat.None? && !b.isChatting
    ensures b.id == s.id && |b.audioBlobs| == |s.audioBlobs|
  {
    Batch(s.id, s.name,
      seq(|s.audioBlobs|, k requires 0 <= k < |s.audioBlobs| => DecodedBlob(s.audioBlobs[k].data, s.audioBlobs[k].mimeType)),
      s.transcript, s.status, s.model, s.selectedReprocessModel, s.error, None, s.chatHistory, false)
  }

  function Deserialize(s: seq<SerializableBatch>): (bs: seq<Batch>)
    ensures |bs| == |s|
    ensures forall i :: 0 <= i < |s| ==> bs[i] == DeserializeBatch(s[i])
  {
    seq(|s|, i requires 0 <= i < |s| => DeserializeBatch(s[i]))
  }

  /** No segment of the recording has a comma in its type. */
  predicate CommaFreeTypes(b: Batch) {
    forall k :: 0 <= k < |b.audioBlobs| ==> ',' !in b.audioBlobs[k].mimeType
  }

  /** Saving and loading a recording whose segment types have no comma keeps everything but
      its live chat: each segment's bytes and type, the transcript, the status, both models,
      the error and the history. */
  lemma BatchRoundTrip(b: Batch)
    requires CommaFreeTypes(b)
    ensures DeserializeBatch(SerializeBatch(b)) == b.(chat := None, isChatting := false)
  {
    var back := DeserializeBatch(SerializeBatch(b));
    forall k | 0 <= k < |b.audioBlobs|
      ensures back.audioBlobs[k] == b.audioBlobs[k]
    {
      StoredBlobRoundTrip(b.audioBlobs[k]);
    }
  }

  /** A segment recorded with a two-codec type whose codec list has a comma comes back from
      storage with no bytes, while keeping its type. */
  lemma BatchLosesTwoCodecSegment(b: Batch, k: int)
    requires 0 <= k < |b.audioBlobs| && b.audioBlobs[k].mimeType == TwoCodecType
    ensures DeserializeBatch(SerializeBatch(b)).audioBlobs[k] == Blob([], TwoCodecType)
  {
    AsWrittenLosesBytes(b.audioBlobs[k].bytes);
  }

  lemma RoundTrip(bs: seq<Batch>)
    requires forall i :: 0 <= i < |bs| ==> CommaFreeTypes(bs[i])
    ensures |Deserialize(Serialize(bs))| == |bs|
    ensures forall i :: 0 <= i < |bs| ==> Deserialize(Serialize(bs))[i] == bs[i].(chat := None, isChatting := false)
  {
    forall i | 0 <= i < |bs|
      ensures Deserialize(Serialize(bs))[i] == bs[i].(chat := None, isChatting := false)
    {
      BatchRoundTrip(bs[i]);
    }
  }

  // ---------------------------------------------------------------------------------------
  // A single recorder

  /** With distinct ids, recordings that all name the same active id are at most one. */
  lemma AtMostOneRecording(bs: seq<Batch>, active: string)
    requires UniqueIds(bs)
    requires forall i :: 0 <= i < |bs| && bs[i].status == Recording ==> bs[i].id == active
    ensures forall i, j :: 0 <= i < |bs| && 0 <= j < |bs| && bs[i].status == Recording && bs[j].status == Recording ==> i == j
  {
  }

  /** The updates other than capture never put a recording into `Recording`. */
  lemma UpdatesNeverStartRecording(bs: seq<Batch>, id: string, i: nat, o: Outcome, file: Blob, seg: Blob, msg: string)
    requires i < |bs| && bs[i].status != Recording
    ensures Settled(bs, id, o)[i].status != Recording
    ensures Uploaded(bs, id, file)[i].status != Recording
    ensures SegmentAppended(bs, id, seg, Paused)[i].status != Recording
    ensures SegmentAppended(bs, id, seg, Complete)[i].status != Recording
    ensures RecorderFailed(bs, id, msg)[i].status != Recording
    ensures ReprocessStarted(bs, id)[i].status != Recording
  {
  }
}
