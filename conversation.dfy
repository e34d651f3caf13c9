/** The follow-up conventions the single-mode and the batch-mode chat handlers share: the
    turn that stands for the user's question, the parts sent to the session, and the turn
    that stands for a failed reply. */
module Conversation {
  import opened Wrappers
  import opened Text
  import opened Base64
  import opened Media
  import opened GeminiService

  const AudioMessage := "[Audio Message]"
  const UnknownError := "An unknown error occurred."
  const ChatErrorPrefix := "Sorry, I encountered an error: "

  /** How a session's `sendMessage` settles: with the reply's text, or with what it threw. */
  datatype ChatReply = Answered(text: string) | Refused(thrown: Thrown)

  /** The user turn of a follow-up: its text, or a placeholder for a spoken question. */
  function UserTurn(message: string): (m: ChatMessage)
    ensures m.author == You && m.text != []
    ensures message != [] ==> m.text == message
    ensures message == [] ==> m.text == AudioMessage
  {
    ChatMessage(You, if Truthy(message) then message else AudioMessage)
  }

  /** The turn that ends a follow-up: the reply, or the error it settled with. */
  function ReplyTurn(reply: ChatReply): (m: ChatMessage)
    ensures m.author == AI
    ensures reply.Answered? ==> m.text == reply.text
    ensures reply.Refused? ==> m.text == ChatErrorPrefix + MessageOf(reply.thrown, UnknownError)
  {
    match reply
    case Answered(text) => ChatMessage(AI, text)
    case Refused(t) => ChatMessage(AI, ChatErrorPrefix + MessageOf(t, UnknownError))
  }

  /** The first turn of a fresh transcription's chat: the transcript, then the greeting. */
  function GreetingTurn(transcript: string, greeting: string): (m: ChatMessage)
    ensures m.author == AI && transcript <= m.text
  {
    ChatMessage(AI, transcript + "\n\n" + greeting)
  }

  const SpokenFollowUp := "This is a spoken follow-up question. Please listen to the audio and answer it based on our previous conversation about the original audio and transcript."

  /** The parts both chat handlers send for one follow-up: the text when there is any, then,
      for a recorded question, an instruction (only when the text is blank) and the audio,
      whose payload is what `blobToBase64` yields as written: the encoding of its bytes when
      its type has no comma. */
  function FollowUpParts(message: string, audio: Option<Blob>): (parts: seq<Part>)
    ensures parts == [] <==> message == [] && audio.None?
    ensures message != [] ==> parts[0] == TextPart(message)
    ensures audio.Some? ==> parts[|parts| - 1] == InlineData(GetCleanMimeType(audio.value), BlobToBase64AsWritten(audio.value))
    ensures audio.Some? && ',' !in audio.value.mimeType ==>
      parts[|parts| - 1] == InlineData(GetCleanMimeType(audio.value), Encode(audio.value.bytes))
    ensures |parts| == (if message != [] then 1 else 0) + (if audio.None? then 0 else if Trim(message) == [] then 2 else 1)
    ensures audio.Some? && Trim(message) == [] ==> parts[|parts| - 2] == TextPart(SpokenFollowUp)
  {
    var text := if message != [] then [TextPart(message)] else [];
    match audio
    case None => text
    case Some(a) =>
      var instruction := if Trim(message) == [] then [TextPart(SpokenFollowUp)] else [];
      assert ',' !in a.mimeType ==> BlobToBase64AsWritten(a) == Encode(a.bytes) by {
        if ',' !in a.mimeType {
          AsWrittenAgreesWithoutComma(a);
        }
      }
      text + instruction + [InlineData(GetCleanMimeType(a), BlobToBase64AsWritten(a))]
  }

}
