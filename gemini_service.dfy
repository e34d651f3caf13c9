/**
 * services/geminiService.ts: MIME-type cleaning, the base 64 conversions between blobs and
 * text, the transcription call and the construction of a chat session's seed history.
 * The service's network calls are oracles: their answer is a parameter (`Reply`).
 */
module GeminiService {
  import opened Wrappers
  import opened Text
  import opened Base64
  import opened Media
  import opened GeminiClient

  datatype Author = You | AI

  /** One turn of the app's own chat history. */
  datatype ChatMessage = ChatMessage(author: Author, text: string)

  /** The service's side of a conversation: roles, parts and contents. */
  datatype Role = UserRole | ModelRole
  datatype Part = TextPart(text: string) | InlineData(mimeType: string, data: string)
  datatype Content = Content(role: Role, parts: seq<Part>)

  /** A live chat session: the model it talks to and the history it was seeded with. */
  datatype ChatSession = ChatSession(model: string, history: seq<Content>)

  /** What a call to the service settles with: a response whose `text` may be absent, or a
      rejection. */
  datatype Reply = Responded(text: Option<string>) | Rejected(thrown: Thrown)

  const EmptyResponse := "API returned an empty response."
  const ProcessPrefix := "Failed to process audio: "
  const UnknownApiError := "An unknown error occurred while communicating with the API."
  const AudioProvided := "This is the audio I provided."
  const TranscriptPreamble := "This is the transcript you requested:\n\n"

  /** `getCleanMimeType(blob)`: the type without its parameters (section 5.1 of RFC 2045),
      `video/webm` read as `audio/webm`, and `audio/webm` for a blob without a type. */
  function GetCleanMimeType(blob: Blob): (r: string)
    ensures ';' !in r
    ensures blob.mimeType == "" ==> r == "audio/webm"
    ensures blob.mimeType != "" && Before(blob.mimeType, ';') == "video/webm" ==> r == "audio/webm"
    ensures blob.mimeType != "" && Before(blob.mimeType, ';') != "video/webm" ==> r == Before(blob.mimeType, ';')
  {
    if blob.mimeType == "" then "audio/webm"
    else
      var m := Split(blob.mimeType, ';')[0];
      SplitHead(blob.mimeType, ';');
      if m == "video/webm" then "audio/webm" else m
  }

  /** The parameters are gone but nothing else: the cleaned type of a typed blob is empty
      only when its type starts with `;`. */
  lemma CleanMimeTypeEmpty(blob: Blob)
    ensures GetCleanMimeType(blob) == [] <==> (blob.mimeType != [] && blob.mimeType[0] == ';')
  {
    if blob.mimeType != [] && blob.mimeType[0] != ';' {
      assert Before(blob.mimeType, ';') != [];
    }
  }

  /** `blobToBase64(blob)` as written: the second comma-separated piece of the data URL.
      This is what every caller stores and sends. */
  function BlobToBase64AsWritten(blob: Blob): (r: string)
    ensures ',' !in r
  {
    var pieces := Split(DataUrl(blob), ',');
    pieces[1]
  }

  /** `blobToBase64(blob)` taking the text after the LAST comma of the data URL: always the
      base 64 encoding of the blob's bytes. */
  function BlobToBase64(blob: Blob): (r: string)
    ensures r == Encode(blob.bytes)
  {
    var pieces := Split(DataUrl(blob), ',');
    SplitLast(DataUrlHeader(blob.mimeType), ',', Encode(blob.bytes));
    pieces[|pieces| - 1]
  }

  /** For a type without a comma the code as written finds the payload too. */
  lemma AsWrittenAgreesWithoutComma(blob: Blob)
    requires ',' !in blob.mimeType
    ensures BlobToBase64AsWritten(blob) == BlobToBase64(blob)
  {
    var head := DataUrlHeader(blob.mimeType);
    assert ',' !in "data:" && ',' !in ";base64";
    assert ',' !in head;
    SplitAtFirst(head, ',', Encode(blob.bytes));
  }

  /** With a comma in the type, the second piece of the data URL starts right after that
      comma and runs to the next one. */
  lemma {:induction false} AsWrittenAfterFirstComma(t1: string, rest: string, bytes: seq<byte>)
    requires ',' !in t1
    ensures BlobToBase64AsWritten(Blob(bytes, t1 + [','] + rest)) == Before(rest + ";base64", ',')
  {
    var blob := Blob(bytes, t1 + [','] + rest);
    var payload := Encode(bytes);
    var head, mid := "data:" + t1, rest + ";base64";
    assert ',' !in "data:";
    assert ',' !in head;
    assert DataUrl(blob) == head + [','] + (mid + [','] + payload);
    SplitAtFirst(head, ',', mid + [','] + payload);
    SplitHead(mid + [','] + payload, ',');
    BeforeSeparator(mid, ',', payload);
  }

  /** A MIME type with a comma in it makes the code as written return a piece of the data
      URL's header instead of the payload, whatever the bytes: the text between the type's
      first comma and the next comma (or the end of the header). With exactly one comma
      that is the rest of the type followed by `;base64`, which is never a payload. */
  lemma {:induction false} AsWrittenCommaInType(t1: string, rest: string, bytes: seq<byte>)
    requires ',' !in t1
    ensures BlobToBase64AsWritten(Blob(bytes, t1 + [','] + rest)) == Before(rest + ";base64", ',')
    ensures ',' in rest ==> BlobToBase64AsWritten(Blob(bytes, t1 + [','] + rest)) == Before(rest, ',')
    ensures ',' !in rest ==> BlobToBase64AsWritten(Blob(bytes, t1 + [','] + rest)) == rest + ";base64"
    ensures ',' !in rest ==> BlobToBase64AsWritten(Blob(bytes, t1 + [','] + rest)) != BlobToBase64(Blob(bytes, t1 + [','] + rest))
  {
    AsWrittenAfterFirstComma(t1, rest, bytes);
    BeforeWithSuffix(rest, ";base64", ',');
    var r := BlobToBase64(Blob(bytes, t1 + [','] + rest));
    assert (rest + ";base64")[|rest|] == ';' && ';' !in r;
  }

  /** The type a browser recorder reports for a WebM stream with two codecs. */
  const TwoCodecType := "video/webm;codecs=vp8" + "," + "opus"

  /** For that type the code as written returns `opus;base64` instead of the payload. */
  lemma AsWrittenTwoCodecType(bytes: seq<byte>)
    ensures BlobToBase64AsWritten(Blob(bytes, TwoCodecType)) == "opus" + ";base64"
    ensures BlobToBase64(Blob(bytes, TwoCodecType)) == Encode(bytes)
  {
    AsWrittenCommaInType("video/webm;codecs=vp8", "opus", bytes);
  }

  /** ... so a segment recorded with that type is stored as `opus;base64`, which does not
      decode, and comes back from storage with no bytes at all. */
  lemma AsWrittenLosesBytes(bytes: seq<byte>)
    ensures DecodedBlob(BlobToBase64AsWritten(Blob(bytes, TwoCodecType)), TwoCodecType).bytes == []
    ensures var s := SerializeBlob(Blob(bytes, TwoCodecType));
      DecodedBlob(s.data, s.mimeType) == Blob([], TwoCodecType)
  {
    AsWrittenTwoCodecType(bytes);
    assert |"opus" + ";base64"| == 11;
  }

  /** `base64ToBlob` as a value: the decoded bytes, or no bytes at all when decoding fails;
      always tagged with the given type. */
  function DecodedBlob(base64: string, mimeType: string): (b: Blob)
    ensures b.mimeType == mimeType
    ensures Decode(base64).None? ==> b.bytes == []
  {
    match Decode(base64)
    case None => Blob([], mimeType)
    case Some(bs) => Blob(bs, mimeType)
  }

  /** `base64ToBlob(base64, mimeType)`: copies the char codes of `atob`'s result into a byte
      array one by one; a decoding failure is swallowed and yields an empty blob. */
  method Base64ToBlob(base64: string, mimeType: string) returns (b: Blob)
    ensures b.mimeType == mimeType
    ensures Atob(base64).None? ==> b.bytes == []
    ensures Atob(base64).Some? ==> |b.bytes| == |Atob(base64).value|
    ensures Atob(base64).Some? ==> forall k :: 0 <= k < |b.bytes| ==> b.bytes[k] == Atob(base64).value[k] as int
    ensures b == DecodedBlob(base64, mimeType)
  {
    var decoded := Atob(base64);
    if decoded.None? {
      return Blob([], mimeType);
    }
    var byteCharacters := decoded.value;
    var byteNumbers := new byte[|byteCharacters|];
    for i := 0 to |byteCharacters|
      invariant forall k :: 0 <= k < i ==> byteNumbers[k] == byteCharacters[k] as int
    {
      byteNumbers[i] := byteCharacters[i] as int;
    }
    b := Blob(byteNumbers[..], mimeType);
    assert b.bytes == Decode(base64).value;
  }

  /** A blob written out by `blobToBase64` and read back by `base64ToBlob` with its stored
      type is the same blob: same bytes, same type. */
  lemma BlobRoundTrip(blob: Blob)
    ensures DecodedBlob(BlobToBase64(blob), blob.mimeType) == blob
  {
    DecodeEncode(blob.bytes);
  }

  /** A blob as it is stored: its base64 payload and its type. */
  datatype StoredBlob = StoredBlob(data: string, mimeType: string)

  /** A blob ready for storage: the payload `blobToBase64` yields (as written) and the type.
      For a type without a comma the payload is the encoding of the bytes. */
  function SerializeBlob(blob: Blob): (s: StoredBlob)
    ensures s.mimeType == blob.mimeType && ',' !in s.data
    ensures ',' !in blob.mimeType ==> s.data == Encode(blob.bytes)
  {
    var data := BlobToBase64AsWritten(blob);
    assert ',' !in blob.mimeType ==> data == Encode(blob.bytes) by {
      if ',' !in blob.mimeType {
        AsWrittenAgreesWithoutComma(blob);
      }
    }
    StoredBlob(data, blob.mimeType)
  }

  /** A stored blob whose type has no comma decodes to the blob that was stored. */
  lemma StoredBlobRoundTrip(blob: Blob)
    requires ',' !in blob.mimeType
    ensures DecodedBlob(SerializeBlob(blob).data, SerializeBlob(blob).mimeType) == blob
  {
    AsWrittenAgreesWithoutComma(blob);
    BlobRoundTrip(blob);
  }

  /** `processAudio(blob, model)` once the service has replied: the trimmed text, or an
      `Error`. A missing client throws before the call and is not prefixed; every failure of
      the call itself, an empty or absent text included, is rethrown with a prefix. */
  function ProcessAudio(client: Option<Client>, reply: Reply): (r: Result<string, Thrown>)
    ensures client.None? ==> r == Err(Error(NotInitialized))
    ensures r.Ok? <==> client.Some? && reply.Responded? && reply.text.Some? && reply.text.value != ""
    ensures r.Ok? ==> r.value == Trim(reply.text.value)
    ensures r.Err? ==> r.error.Error?
  {
    match Lookup(client)
    case Err(e) => Err(e)
    case Ok(_) =>
      match reply
      case Responded(text) =>
        if text.None? || text.value == "" then Err(Error(ProcessPrefix + EmptyResponse))
        else Ok(Trim(text.value))
      case Rejected(thrown) =>
        if thrown.Error? then Err(Error(ProcessPrefix + thrown.message))
        else Err(Error(UnknownApiError))
  }

  /** Every failure of the call itself surfaces with the `Failed to process audio: ` prefix,
      except a thrown non-`Error` value, which becomes the generic message. */
  lemma ProcessAudioFailures(c: Client, reply: Reply)
    ensures var r := ProcessAudio(Some(c), reply);
      reply == Rejected(NonError) ==> r == Err(Error(UnknownApiError))
    ensures var r := ProcessAudio(Some(c), reply);
      r.Err? && reply != Rejected(NonError) ==> ProcessPrefix <= r.error.message
  {
    match reply
    case Responded(text) =>
      if text.None? || text.value == "" {
        assert ProcessAudio(Some(c), reply) == Err(Error(ProcessPrefix + EmptyResponse));
      }
    case Rejected(thrown) =>
      if thrown.Error? {
        assert ProcessAudio(Some(c), reply) == Err(Error(ProcessPrefix + thrown.message));
      }
  }

  /** A successful transcript never starts or ends with whitespace; a reply of whitespace
      only is a success with an empty transcript, not an error. */
  lemma ProcessAudioTrimmed(c: Client, reply: Reply)
    ensures var r := ProcessAudio(Some(c), reply);
      r.Ok? ==> r.value == [] || (!IsWhitespace(r.value[0]) && !IsWhitespace(r.value[|r.value| - 1]))
    ensures var r := ProcessAudio(Some(c), reply);
      r.Ok? ==> (r.value == [] <==> AllWhitespace(reply.text.value))
  {
    if reply.Responded? && reply.text.Some? && reply.text.value != "" {
      var t := reply.text.value;
      assert ProcessAudio(Some(c), reply) == Ok(Trim(t));
      TrimEnds(t);
      TrimEmptyIff(t);
    }
  }

  /** One turn of the app's history as the service's content. */
  function ToContent(m: ChatMessage): Content {
    Content(if m.author == You then UserRole else ModelRole, [TextPart(m.text)])
  }

  /** The app's turn a content stands for, if it is a single text part. */
  function ToMessage(c: Content): Option<ChatMessage> {
    if |c.parts| == 1 && c.parts[0].TextPart? then
      Some(ChatMessage(if c.role == UserRole then You else AI, c.parts[0].text))
    else None
  }

  /** The history `createChat` seeds a session with: the audio as the user's first entry,
      the transcript as the model's answer, then every turn of the existing history after
      its first (the greeting, which the transcript entry already covers). The audio's
      payload is what `blobToBase64` yields as written. */
  function SeedHistory(blob: Blob, transcript: string, existing: Option<seq<ChatMessage>>): (h: seq<Content>)
    ensures |h| >= 2
    ensures h[0] == Content(UserRole, [InlineData(GetCleanMimeType(blob), BlobToBase64AsWritten(blob)), TextPart(AudioProvided)])
    ensures h[1] == Content(ModelRole, [TextPart(TranscriptPreamble + transcript)])
    ensures existing.Some? && |existing.value| > 1 ==> |h| == |existing.value| + 1
    ensures !(existing.Some? && |existing.value| > 1) ==> |h| == 2
  {
    var seed := [
      Content(UserRole, [InlineData(GetCleanMimeType(blob), BlobToBase64AsWritten(blob)), TextPart(AudioProvided)]),
      Content(ModelRole, [TextPart(TranscriptPreamble + transcript)])
    ];
    if existing.Some? && |existing.value| > 1 then
      var rest := existing.value[1..];
      seed + seq(|rest|, k requires 0 <= k < |rest| => ToContent(rest[k]))
    else seed
  }

  /** The seeded history carries every later turn of the existing history, in order, with
      its author and text: reading the entries after the seed back as turns gives exactly
      `existing[1..]`. */
  lemma SeedHistoryKeepsTurns(blob: Blob, transcript: string, existing: seq<ChatMessage>)
    requires |existing| > 1
    ensures var h := SeedHistory(blob, transcript, Some(existing));
      forall k :: 2 <= k < |h| ==> ToMessage(h[k]) == Some(existing[k - 1])
    ensures var h := SeedHistory(blob, transcript, Some(existing));
      forall k :: 2 <= k < |h| ==> (h[k].role == UserRole <==> existing[k - 1].author == You)
  {
    var h := SeedHistory(blob, transcript, Some(existing));
    var rest := existing[1..];
    forall k | 2 <= k < |h|
      ensures h[k] == ToContent(existing[k - 1])
    {
      assert h[k] == ToContent(rest[k - 2]);
    }
  }

  /** `createChat(blob, transcript, model, existing)`: a session with the seed history, or
      the not-initialised error when there is no client. */
  function CreateChat(client: Option<Client>, blob: Blob, transcript: string, model: string,
                      existing: Option<seq<ChatMessage>>): (r: Result<ChatSession, Thrown>)
    ensures r.Ok? <==> client.Some?
    ensures r.Ok? ==> r.value.model == model && r.value.history == SeedHistory(blob, transcript, existing)
    ensures r.Err? ==> r.error == Error(NotInitialized)
  {
    match Lookup(client)
    case Err(e) => Err(e)
    case Ok(_) => Ok(ChatSession(model, SeedHistory(blob, transcript, existing)))
  }
}
