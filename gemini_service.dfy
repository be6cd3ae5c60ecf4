/** The decision logic around the generative-model calls: how an error is
  * turned into a friendly message, which model and tools a chat uses, how
  * the history is sent, and how an image is picked out of a response. The
  * calls themselves are not modelled: their outcomes are parameters. */
module GeminiService {
  import opened Wrappers
  import opened Text
  import opened Types

  // ---------------------------------------------------------------------
  // Friendly error messages

  /** A thrown error, reduced to the text `error.message || error.toString()`
    * yields and to the first status code found on it, if any. */
  datatype ApiError = ApiError(message: string, status: Option<int>)

  const INVALID_400 := "I apologize, but the request was invalid (400). Please check your input."
  const AUTH_401 := "Authentication failed (401). Please check that your API key is valid."
  const FORBIDDEN_403 := "I cannot access this feature (403). It might be restricted in your region or for your account."
  const NOT_FOUND_404 := "The requested service is currently unavailable (404)."
  const LIMIT_429 := "I have reached my activity limit for now (429). Please try again in a moment."
  const SERVER_500 := "I am experiencing internal server issues (500). Please try again later."
  const UNAVAILABLE_503 := "The service is temporarily unavailable (503). Please check back soon."
  const NETWORK_TEXT := "I am having trouble connecting to the internet. Please check your network."
  const GENERIC_TEXT := "An unexpected error occurred. Please try again."

  /** The nine texts an error can become. */
  const FRIENDLY_TEXTS: set<string> :=
    {INVALID_400, AUTH_401, FORBIDDEN_403, NOT_FOUND_404, LIMIT_429, SERVER_500, UNAVAILABLE_503,
     NETWORK_TEXT, GENERIC_TEXT}

  predicate StatusIs(e: ApiError, code: int)
  {
    e.status == Some(code)
  }

  /** `getFriendlyErrorMessage`: the first test that holds decides. */
  function FriendlyMessage(e: ApiError): (r: string)
    ensures r in FRIENDLY_TEXTS
  {
    var msg := e.message;
    if StatusIs(e, 400) || Contains(msg, "400") || Contains(msg, "INVALID_ARGUMENT") then INVALID_400
    else if StatusIs(e, 401) || Contains(msg, "401") || Contains(msg, "UNAUTHENTICATED") then AUTH_401
    else if StatusIs(e, 403) || Contains(msg, "403") || Contains(msg, "PERMISSION_DENIED") then FORBIDDEN_403
    else if StatusIs(e, 404) || Contains(msg, "404") || Contains(msg, "NOT_FOUND") then NOT_FOUND_404
    else if StatusIs(e, 429) || Contains(msg, "429") || Contains(msg, "RESOURCE_EXHAUSTED") then LIMIT_429
    else if (e.status.Some? && e.status.value >= 500) || Contains(msg, "500") || Contains(msg, "INTERNAL") then SERVER_500
    else if StatusIs(e, 503) || Contains(msg, "503") || Contains(msg, "SERVICE_UNAVAILABLE") then UNAVAILABLE_503
    else if Contains(ToLower(msg), "fetch") || Contains(ToLower(msg), "network") then NETWORK_TEXT
    else GENERIC_TEXT
  }

  /** A status of 503 is caught by the `>= 500` test, so the 503 text is only
    * reached through the message, with a status that none of the earlier
    * tests catches. */
  lemma UnavailableOnlyThroughMessage(e: ApiError)
    requires FriendlyMessage(e) == UNAVAILABLE_503
    ensures Contains(e.message, "503") || Contains(e.message, "SERVICE_UNAVAILABLE")
    ensures e.status.Some? ==> e.status.value < 500 && e.status.value !in {400, 401, 403, 404, 429}
  {
  }

  lemma Status503GivesServerText(e: ApiError)
    requires StatusIs(e, 503)
    ensures FriendlyMessage(e) != UNAVAILABLE_503 && FriendlyMessage(e) != GENERIC_TEXT
  {
  }

  // ---------------------------------------------------------------------
  // Chat requests

  const DEFAULT_MODEL := "gemini-2.5-flash"
  const THINKING_MODEL := "gemini-3-pro-preview"
  const APOLOGY := "I apologize, I could not generate a response at this time."

  datatype Tool = GoogleSearch

  /** A history turn as the chat component hands it over. */
  datatype Turn = Turn(role: Role, text: string)

  /** A history entry as the SDK receives it: a role and its text parts. */
  datatype Content = Content(role: Role, parts: seq<string>)

  /** What `ai.chats.create` is given; `tools` is `None` for `undefined`. */
  datatype ChatRequest = ChatRequest(
    model: string,
    systemInstruction: string,
    tools: Option<seq<Tool>>,
    thinkingBudget: Option<int>,
    history: seq<Content>,
    message: string)

  predicate Thinks(config: Option<ChatConfig>)
  {
    config.Some? && config.value.thinkingBudget.Some? && config.value.thinkingBudget.value > 0
  }

  predicate Searches(config: Option<ChatConfig>)
  {
    config.Some? && config.value.useGoogleSearch == Some(true)
  }

  /** A model name given by the configuration that is not empty. */
  predicate NamesModel(config: Option<ChatConfig>)
  {
    config.Some? && config.value.model.Some? && config.value.model.value != ""
  }

  /** The model, tools and thinking budget of `sendMessageToGemini`: a
    * positive thinking budget wins over search, and search over a named
    * model. */
  method SelectModel(config: Option<ChatConfig>) returns (model: string, tools: seq<Tool>, thinkingBudget: Option<int>)
    ensures Thinks(config) ==> model == THINKING_MODEL && tools == [] && thinkingBudget == config.value.thinkingBudget
    ensures !Thinks(config) && Searches(config) ==> model == DEFAULT_MODEL && tools == [GoogleSearch] && thinkingBudget == None
    ensures !Thinks(config) && !Searches(config) ==> tools == [] && thinkingBudget == None
    ensures !Thinks(config) && !Searches(config) ==> model == if NamesModel(config) then config.value.model.value else DEFAULT_MODEL
    ensures |tools| <= 1 && (thinkingBudget.Some? ==> tools == [])
  {
    model := DEFAULT_MODEL;
    tools := [];
    thinkingBudget := None;
    if Thinks(config) {
      model := THINKING_MODEL;
      thinkingBudget := config.value.thinkingBudget;
    } else if Searches(config) {
      model := DEFAULT_MODEL;
      tools := tools + [GoogleSearch];
    } else if NamesModel(config) {
      model := config.value.model.value;
    }
  }

  /** `history.map(msg => ({ role, parts: [{ text }] }))`. */
  function HistoryContents(history: seq<Turn>): (r: seq<Content>)
    ensures |r| == |history|
    ensures forall i :: 0 <= i < |r| ==> r[i].role == history[i].role && r[i].parts == [history[i].text]
  {
    seq(|history|, i requires 0 <= i < |history| => Content(history[i].role, [history[i].text]))
  }

  /** The sent history reads back as the turns it came from. */
  function TurnsOfContents(contents: seq<Content>): (r: seq<Turn>)
    ensures |r| == |contents|
    ensures forall i :: 0 <= i < |r| ==> r[i].role == contents[i].role
  {
    seq(|contents|, i requires 0 <= i < |contents| =>
      Turn(contents[i].role, if contents[i].parts == [] then "" else contents[i].parts[0]))
  }

  lemma HistoryRoundTrip(history: seq<Turn>)
    ensures TurnsOfContents(HistoryContents(history)) == history
  {
    var back := TurnsOfContents(HistoryContents(history));
    assert forall i :: 0 <= i < |history| ==> back[i] == history[i];
  }

  /** `config?.systemInstruction || DEFAULT_SYSTEM_INSTRUCTION`; the default
    * text itself is a parameter. */
  function SystemInstructionOf(config: Option<ChatConfig>, defaultInstruction: string): (r: string)
    ensures config.Some? && config.value.systemInstruction != "" ==> r == config.value.systemInstruction
    ensures config.None? || config.value.systemInstruction == "" ==> r == defaultInstruction
  {
    if config.Some? && config.value.systemInstruction != "" then config.value.systemInstruction else defaultInstruction
  }

  /** What the chat call brings back: a reply text (empty when the result
    * has none) or a thrown error. */
  datatype ChatOutcome = Replied(text: string) | Threw(error: ApiError)

  /** `result.text || APOLOGY`, or the friendly text of the error. */
  function ReplyText(outcome: ChatOutcome): (r: string)
    ensures r != ""
    ensures outcome.Replied? && outcome.text != "" ==> r == outcome.text
    ensures outcome.Replied? && outcome.text == "" ==> r == APOLOGY
    ensures outcome.Threw? ==> r == FriendlyMessage(outcome.error) && r in FRIENDLY_TEXTS
  {
    match outcome
    case Replied(text) => if text == "" then APOLOGY else text
    case Threw(e) => FriendlyMessage(e)
  }

  /** The apology is none of the error texts, so the apology means the model
    * answered, with nothing or with the apology itself. */
  lemma ApologyOnlyFromReply(outcome: ChatOutcome)
    requires ReplyText(outcome) == APOLOGY
    ensures outcome.Replied? && (outcome.text == "" || outcome.text == APOLOGY)
  {
  }

  /** `sendMessageToGemini`: the request handed to the SDK and the text the
    * caller receives. Errors never escape: they become a friendly text. */
  method SendMessage(history: seq<Turn>, newMessage: string, config: Option<ChatConfig>, defaultInstruction: string,
                     outcome: ChatOutcome)
    returns (request: ChatRequest, reply: string)
    ensures request.history == HistoryContents(history)
    ensures request.message == newMessage
    ensures request.systemInstruction == SystemInstructionOf(config, defaultInstruction)
    ensures request.model ==
      if Thinks(config) then THINKING_MODEL
      else if Searches(config) then DEFAULT_MODEL
      else if NamesModel(config) then config.value.model.value
      else DEFAULT_MODEL
    ensures request.tools.Some? <==> !Thinks(config) && Searches(config)
    ensures request.tools.Some? ==> request.tools.value == [GoogleSearch]
    ensures request.thinkingBudget.Some? <==> Thinks(config)
    ensures Thinks(config) ==> request.thinkingBudget == config.value.thinkingBudget
    ensures reply == ReplyText(outcome) && reply != ""
  {
    var model, tools, budget := SelectModel(config);
    request := ChatRequest(model, SystemInstructionOf(config, defaultInstruction),
                           if |tools| > 0 then Some(tools) else None, budget, HistoryContents(history), newMessage);
    reply := ReplyText(outcome);
  }

  // ---------------------------------------------------------------------
  // Images and video

  const PNG_PREFIX := "data:image/png;base64,"
  const VIDEO_DEFAULT_PROMPT := "Animate this image."

  /** A part of a response: inline image data, if any. */
  datatype ResponsePart = ResponsePart(inlineData: Option<string>)

  /** A candidate of a response; `parts` is `None` when it has no content. */
  datatype Candidate = Candidate(parts: Option<seq<ResponsePart>>)

  /** `response.candidates?.[0]?.content?.parts`. */
  function FirstCandidateParts(candidates: seq<Candidate>): Option<seq<ResponsePart>>
  {
    if candidates == [] then None else candidates[0].parts
  }

  /** The position of the first part carrying inline data. */
  function FirstInline(parts: seq<ResponsePart>): (r: Option<nat>)
    ensures r.Some? ==> r.value < |parts| && parts[r.value].inlineData.Some?
    ensures r.Some? ==> forall j :: 0 <= j < r.value ==> parts[j].inlineData.None?
    ensures r.None? ==> forall j :: 0 <= j < |parts| ==> parts[j].inlineData.None?
  {
    if parts == [] then None
    else if parts[0].inlineData.Some? then Some(0)
    else match FirstInline(parts[1..])
      case None => None
      case Some(i) => Some(i + 1)
  }

  /** The image `editImage` and `generateImage` return: the first inline part
    * as a PNG data URL, or `None` for `null`. */
  method ExtractImage(candidates: seq<Candidate>) returns (r: Option<string>)
    ensures FirstCandidateParts(candidates).None? ==> r == None
    ensures FirstCandidateParts(candidates).Some? ==>
      var parts := FirstCandidateParts(candidates).value;
      match FirstInline(parts)
      case None => r == None
      case Some(k) => r == Some(PNG_PREFIX + parts[k].inlineData.value)
  {
    if candidates == [] || candidates[0].parts.None? {
      return None;
    }
    var parts := candidates[0].parts.value;
    for i := 0 to |parts|
      invariant forall j :: 0 <= j < i ==> parts[j].inlineData.None?
    {
      if parts[i].inlineData.Some? {
        FirstInlineIs(parts, i);
        return Some(PNG_PREFIX + parts[i].inlineData.value);
      }
    }
    FirstInlineNone(parts);
    return None;
  }

  lemma {:induction false} FirstInlineIs(parts: seq<ResponsePart>, i: nat)
    requires i < |parts| && parts[i].inlineData.Some?
    requires forall j :: 0 <= j < i ==> parts[j].inlineData.None?
    ensures FirstInline(parts) == Some(i)
  {
    if i > 0 {
      FirstInlineIs(parts[1..], i - 1);
    }
  }

  lemma {:induction false} FirstInlineNone(parts: seq<ResponsePart>)
    requires forall j :: 0 <= j < |parts| ==> parts[j].inlineData.None?
    ensures FirstInline(parts) == None
  {
    if parts != [] {
      FirstInlineNone(parts[1..]);
    }
  }

  /** `prompt || "Animate this image."`. */
  function VideoPrompt(prompt: string): (r: string)
    ensures r != ""
    ensures prompt != "" ==> r == prompt
    ensures prompt == "" ==> r == VIDEO_DEFAULT_PROMPT
  {
    if prompt == "" then VIDEO_DEFAULT_PROMPT else prompt
  }

  /** `fileToBase64`: `dataUrl.split(',')[1]`, the text between the first and
    * the second comma (`None` for `undefined` when there is no comma). */
  function Base64Payload(dataUrl: string): Option<string>
  {
    SecondField(dataUrl, ',')
  }

  /** A data URL whose header and payload carry no comma gives back its
    * payload. */
  lemma Base64PayloadOfDataUrl(header: string, payload: string)
    requires ',' !in header && ',' !in payload
    ensures Base64Payload(header + "," + payload) == Some(payload)
  {
    assert header + "," + payload == header + [','] + payload;
    SplitAtJoin(header, ',', payload);
    SplitFirst(payload, ',');
  }
}
