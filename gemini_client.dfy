/**
 * The process-wide client slot of services/geminiClient.ts: `null` until a key is supplied,
 * replaced on every initialisation, emptied on logout.
 */
module GeminiClient {
  import opened Wrappers

  /** A client bound to an API key. */
  datatype Client = Client(apiKey: string)

  const MissingKey := "API key is required to initialize Gemini Client"
  const NotInitialized := "Gemini Client not initialized. Please ensure you are logged in and have provided an API key."

  /** `getGeminiClient()` over the slot's current content. */
  function Lookup(slot: Option<Client>): (r: Result<Client, Thrown>)
    ensures r.Ok? <==> slot.Some?
    ensures r.Ok? ==> r.value == slot.value
    ensures r.Err? ==> r.error == Error(NotInitialized)
  {
    match slot
    case None => Err(Error(NotInitialized))
    case Some(c) => Ok(c)
  }

  class ClientSlot {
    /** The module-level `ai` variable. */
    var ai: Option<Client>

    constructor ()
      ensures ai == None
    {
      ai := None;
    }

    /** `initializeGeminiClient(apiKey)`: throws on an empty key and leaves the slot as it was;
        otherwise (re)places a client for that key. */
    method Initialize(apiKey: string) returns (r: Result<(), Thrown>)
      modifies this
      ensures apiKey == "" ==> r == Err(Error(MissingKey)) && ai == old(ai)
      ensures apiKey != "" ==> r == Ok(()) && ai == Some(Client(apiKey))
    {
      if apiKey == "" {
        return Err(Error(MissingKey));
      }
      ai := Some(Client(apiKey));
      return Ok(());
    }

    /** `getGeminiClient()`: the client, or the not-initialised error when the slot is empty. */
    method Get() returns (r: Result<Client, Thrown>)
      ensures ai.None? ==> r == Err(Error(NotInitialized))
      ensures ai.Some? ==> r == Ok(ai.value)
    {
      if ai.None? {
        return Err(Error(NotInitialized));
      }
      return Ok(ai.value);
    }

    /** `clearGeminiClient()`. */
    method Clear()
      modifies this
      ensures ai == None
    {
      ai := None;
    }
  }

  /** The slot's lifecycle: after a clear every get throws, and only a successful
      initialisation makes it answer again, with the client for the latest key. */
  method SlotLifecycle(slot: ClientSlot, key: string, other: string) returns (afterClear: Result<Client, Thrown>, afterInit: Result<Client, Thrown>)
    requires key != "" && other != ""
    modifies slot
    ensures afterClear == Err(Error(NotInitialized))
    ensures afterInit == Ok(Client(other))
  {
    var _ := slot.Initialize(key);
    slot.Clear();
    afterClear := slot.Get();
    var refused := slot.Initialize("");
    assert refused.Err? && slot.ai == None;
    var _ := slot.Initialize(key);
    var _ := slot.Initialize(other);
    afterInit := slot.Get();
  }
}
