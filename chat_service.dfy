/** The conversation "brain" of the conversation backend
    (`app/services/chat_service.py`): a chat history kept across turns and
    sent, after a fixed system prompt, to an Ollama model on every turn. The
    Ollama client is a parameter: a function from the request to the reply
    text (`response['message']['content']`) or to the exception it raised. */
module ChatService {
  import opened Wrappers
  import opened Text

  datatype Role = System | User | Assistant

  datatype ChatMessage = ChatMessage(role: Role, content: string)

  const SYSTEM_PROMPT: string :=
    "You are a friendly conversational assistant. "
    + "Keep responses concise (1-3 sentences) for natural spoken dialogue."

  const DEFAULT_MODEL: string := "llama3.2"
  const DEFAULT_BASE_URL: string := "http://localhost:11434"

  /** The arguments of one `client.chat(model=..., messages=[...])` call. */
  datatype ChatRequest = ChatRequest(model: string, messages: seq<ChatMessage>)

  type ChatClient = ChatRequest -> Result<string, string>

  /** One `chat(user_text)` call on a history: the user message is appended
      first; the request carries the system prompt followed by the whole
      history in order; on success the reply is appended and returned, on
      failure the exception propagates and the user message stays. */
  function ChatTurn(model: string, history: seq<ChatMessage>, userText: string, client: ChatClient)
    : (r: (seq<ChatMessage>, Result<string, string>))
    ensures r.1 == client(ChatRequest(model, [ChatMessage(System, SYSTEM_PROMPT)] + history + [ChatMessage(User, userText)]))
    ensures |r.0| == |history| + (if r.1.Ok? then 2 else 1)
    ensures r.0[..|history|] == history && r.0[|history|] == ChatMessage(User, userText)
    ensures r.1.Ok? ==> r.0[|history| + 1] == ChatMessage(Assistant, r.1.value)
  {
    var withUser := history + [ChatMessage(User, userText)];
    assert [ChatMessage(System, SYSTEM_PROMPT)] + withUser == [ChatMessage(System, SYSTEM_PROMPT)] + history + [ChatMessage(User, userText)];
    var reply := client(ChatRequest(model, [ChatMessage(System, SYSTEM_PROMPT)] + withUser));
    match reply
    case Ok(aiText) => (withUser + [ChatMessage(Assistant, aiText)], reply)
    case Err(e) => (withUser, reply)
  }

  /** Two successful turns leave the two exchanges in order in the history. */
  lemma TwoTurnsInOrder(model: string, history: seq<ChatMessage>, t1: string, t2: string, client: ChatClient)
    requires ChatTurn(model, history, t1, client).1.Ok?
    ensures var (h1, r1) := ChatTurn(model, history, t1, client);
            var (h2, r2) := ChatTurn(model, h1, t2, client);
            r2.Ok? ==> h2 == history + [ChatMessage(User, t1), ChatMessage(Assistant, r1.value),
                                        ChatMessage(User, t2), ChatMessage(Assistant, r2.value)]
  {
    var (h1, r1) := ChatTurn(model, history, t1, client);
    var (h2, r2) := ChatTurn(model, h1, t2, client);
    assert h1 == history + [ChatMessage(User, t1), ChatMessage(Assistant, r1.value)];
  }

  class ChatService {
    const model: string
    const baseUrl: string
    /** The host handed to `ollama.Client`; None means the library default. */
    const clientHost: Option<string>
    var history: seq<ChatMessage>

    /** `ChatService()`, given the OLLAMA_MODEL and OLLAMA_BASE_URL environment
        variables. */
    constructor (envModel: Option<string>, envBaseUrl: Option<string>)
      ensures model == envModel.GetOr(DEFAULT_MODEL) && baseUrl == envBaseUrl.GetOr(DEFAULT_BASE_URL)
      ensures clientHost == (if baseUrl != DEFAULT_BASE_URL then Some(baseUrl) else None)
      ensures history == []
    {
      model := envModel.GetOr(DEFAULT_MODEL);
      baseUrl := envBaseUrl.GetOr(DEFAULT_BASE_URL);
      clientHost := if envBaseUrl.GetOr(DEFAULT_BASE_URL) != DEFAULT_BASE_URL then Some(envBaseUrl.GetOr(DEFAULT_BASE_URL)) else None;
      history := [];
    }

    /** `chat(user_text)`. */
    method Chat(userText: string, client: ChatClient) returns (r: Result<string, string>)
      modifies this
      ensures (history, r) == ChatTurn(model, old(history), userText, client)
    {
      history := history + [ChatMessage(User, userText)];
      r := client(ChatRequest(model, [ChatMessage(System, SYSTEM_PROMPT)] + history));
      if r.Ok? {
        history := history + [ChatMessage(Assistant, r.value)];
      }
    }

    /** `reset()`. */
    method Reset()
      modifies this
      ensures history == []
    {
      history := [];
    }
  }

  /** One entry of `client.list()['models']`; `name` is None when the entry
      has no 'name' key. */
  datatype ModelEntry = ModelEntry(name: Option<string>)

  /** What `client.list()` produced: an exception, or a response whose
      'models' key may be missing. */
  datatype ListOutcome = ListFailed(error: string) | Listed(models: Option<seq<ModelEntry>>)

  /** `name.replace(':latest', '')`. */
  function StripLatest(name: string): string {
    Replace(name, ":latest", "")
  }

  /** Either name is a substring of the other. */
  predicate NamesMatch(a: string, b: string) {
    Contains(a, b) || Contains(b, a)
  }

  function AnyMatch(modelBase: string, entries: seq<ModelEntry>): (r: bool)
    requires forall i :: 0 <= i < |entries| ==> entries[i].name.Some?
    ensures r <==> exists i :: 0 <= i < |entries| && NamesMatch(modelBase, StripLatest(entries[i].name.value))
  {
    if entries == [] then false
    else if NamesMatch(modelBase, StripLatest(entries[0].name.value)) then true
    else
      var r := AnyMatch(modelBase, entries[1..]);
      assert forall i :: 1 <= i < |entries| ==> entries[i] == entries[1..][i - 1];
      r
  }

  /** `ChatService.is_available()`: the configured model (default "llama3.2")
      matches some listed model once ":latest" is removed from both, in
      either substring direction. Any exception gives False, including the
      KeyError of an entry without 'name', which the list comprehension raises
      before any match is tried. */
  function IsAvailable(envModel: Option<string>, listing: ListOutcome): (r: bool)
    ensures r <==> listing.Listed?
                   && (forall i :: 0 <= i < |listing.models.GetOr([])| ==> listing.models.GetOr([])[i].name.Some?)
                   && exists i :: 0 <= i < |listing.models.GetOr([])|
                        && NamesMatch(StripLatest(envModel.GetOr(DEFAULT_MODEL)), StripLatest(listing.models.GetOr([])[i].name.value))
  {
    match listing
    case ListFailed(_) => false
    case Listed(models) =>
      var entries := models.GetOr([]);
      if exists i :: 0 <= i < |entries| && entries[i].name.None? then false
      else AnyMatch(StripLatest(envModel.GetOr(DEFAULT_MODEL)), entries)
  }

  /** A listed name that is empty after removing ":latest" is a substring of
      every model name, so it always makes the model available. */
  lemma EmptyListedNameMatchesAnything(envModel: Option<string>, entries: seq<ModelEntry>, k: nat)
    requires forall i :: 0 <= i < |entries| ==> entries[i].name.Some?
    requires k < |entries| && StripLatest(entries[k].name.value) == ""
    ensures IsAvailable(envModel, Listed(Some(entries)))
  {
    assert OccursAt(StripLatest(envModel.GetOr(DEFAULT_MODEL)), "", 0);
  }

  /** With no 'models' key the model is never available. */
  lemma NoModelsNotAvailable(envModel: Option<string>)
    ensures !IsAvailable(envModel, Listed(None))
  {
  }
}
