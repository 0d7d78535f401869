/**
 * The handlers behind `POST /generate`, `POST /summary` and `GET /`, and
 * the listening address. Each completion handler is a function of the
 * decoded request body (a failure when the JSON does not decode), the
 * backend, the model name and the system prompt read at start-up. It
 * returns the response together with the backend requests it made.
 */
module Handlers {
  import opened Wrappers
  import opened GoStrings
  import opened Http
  import opened Completion

  datatype GenerateRequest = GenerateRequest(prompt: string, date: string)

  datatype SummaryRequest = SummaryRequest(prompt: string)

  /** A handler's response and the backend requests it made, in order. */
  datatype Handled = Handled(response: Response, backendCalls: seq<ChatRequest>)

  const InvalidRequestBody := "Invalid request body"

  const GeneratePrefix := "Create a Jira Comment based on the following information strictly and only for the date of "

  const SummaryPrefix := "Please summarize the following text:\n\n"

  const CompletionErrorPrefix := "Error getting completion: "

  const SummaryErrorPrefix := "Error getting summary: "

  /** The prompt sent for a generate request: the dated instruction, a newline, the notes. */
  function GeneratePrompt(date: string, prompt: string): (composed: string)
    ensures HasPrefix(composed, GeneratePrefix + date + ":\n")
    ensures HasSuffix(composed, prompt)
    ensures |composed| == |GeneratePrefix| + |date| + 2 + |prompt|
  {
    var prePrompt := GeneratePrefix + date + ":";
    prePrompt + "\n" + prompt
  }

  /** The prompt sent for a summary request: the instruction, then the text. */
  function SummaryPrompt(text: string): (composed: string)
    ensures HasPrefix(composed, SummaryPrefix) && composed[|SummaryPrefix|..] == text
  {
    SummaryPrefix + text
  }

  /** `generateHandler` */
  function Generate(body: Result<GenerateRequest, string>, backend: ChatRequest -> BackendResult,
                    model: string, systemPrompt: string): (h: Handled)
    ensures body.Failure? ==> h == Handled(Error(InvalidRequestBody, StatusBadRequest), [])
    ensures body.Success? ==>
      h.backendCalls == [CompletionRequest(model, GeneratePrompt(body.value.date, body.value.prompt), systemPrompt)]
    ensures body.Success? ==>
      h.response == match backend(h.backendCalls[0])
                    case BackendFailed(e) => Error(CompletionErrorPrefix + e, StatusInternalServerError)
                    case Choices(cs) =>
                      if cs == [] then Error(CompletionErrorPrefix + NoCompletionFound, StatusInternalServerError)
                      else JsonObjectResponse([("completion", cs[0])])
    ensures h.response.status in {StatusOK, StatusBadRequest, StatusInternalServerError}
  {
    match body
    case Failure(_) => Handled(Error(InvalidRequestBody, StatusBadRequest), [])
    case Success(req) =>
      var prompt := GeneratePrompt(req.date, req.prompt);
      var call := CompletionRequest(model, prompt, systemPrompt);
      match GetCompletion(backend, model, prompt, systemPrompt)
      case Failure(e) => Handled(Error(CompletionErrorPrefix + e, StatusInternalServerError), [call])
      case Success(completion) => Handled(JsonObjectResponse([("completion", completion)]), [call])
  }

  /** `summaryHandler` */
  function Summary(body: Result<SummaryRequest, string>, backend: ChatRequest -> BackendResult,
                   model: string, systemPrompt: string): (h: Handled)
    ensures body.Failure? ==> h == Handled(Error(InvalidRequestBody, StatusBadRequest), [])
    ensures body.Success? ==>
      h.backendCalls == [CompletionRequest(model, SummaryPrompt(body.value.prompt), systemPrompt)]
    ensures body.Success? ==>
      h.response == match backend(h.backendCalls[0])
                    case BackendFailed(e) => Error(SummaryErrorPrefix + e, StatusInternalServerError)
                    case Choices(cs) =>
                      if cs == [] then Error(SummaryErrorPrefix + NoCompletionFound, StatusInternalServerError)
                      else JsonObjectResponse([("summary", TrimSpace(cs[0]))])
    ensures h.response.status in {StatusOK, StatusBadRequest, StatusInternalServerError}
  {
    match body
    case Failure(_) => Handled(Error(InvalidRequestBody, StatusBadRequest), [])
    case Success(req) =>
      var prompt := SummaryPrompt(req.prompt);
      var call := CompletionRequest(model, prompt, systemPrompt);
      match GetCompletion(backend, model, prompt, systemPrompt)
      case Failure(e) => Handled(Error(SummaryErrorPrefix + e, StatusInternalServerError), [call])
      case Success(summary) => Handled(JsonObjectResponse([("summary", TrimSpace(summary))]), [call])
  }

  /**
   * A summary that reaches the client has no white space at either end,
   * and trimming it again changes nothing.
   */
  lemma SummaryIsTrimmed(body: Result<SummaryRequest, string>, backend: ChatRequest -> BackendResult,
                         model: string, systemPrompt: string)
    ensures var r := Summary(body, backend, model, systemPrompt).response;
            r.status == StatusOK ==>
              r.body.JsonObject? && |r.body.members| == 1 && r.body.members[0].0 == "summary"
              && var s := r.body.members[0].1;
                 (s == [] || (!IsSpace(s[0]) && !IsSpace(s[|s| - 1]))) && TrimSpace(s) == s
  {
    var h := Summary(body, backend, model, systemPrompt);
    if h.response.status == StatusOK {
      var cs := backend(h.backendCalls[0]).contents;
      TrimSpaceIdempotent(cs[0]);
    }
  }

  /** The ways a completion handler can answer, for both handlers. */
  lemma CompletionOutcomes(generate: Result<GenerateRequest, string>, summary: Result<SummaryRequest, string>,
                           backend: ChatRequest -> BackendResult, model: string, system: string)
    ensures var h := Generate(generate, backend, model, system);
            && (h.response.status == StatusBadRequest <==> generate.Failure?)
            && (h.response.status == StatusOK <==>
                  generate.Success? && SelectCompletion(backend(h.backendCalls[0])).Success?)
    ensures var h := Summary(summary, backend, model, system);
            && (h.response.status == StatusBadRequest <==> summary.Failure?)
            && (h.response.status == StatusOK <==>
                  summary.Success? && SelectCompletion(backend(h.backendCalls[0])).Success?)
  {
  }

  /** `indexHandler`: only the exact path "/" serves the index page. */
  function Index(path: string): (r: Response)
    ensures path != "/" ==> r == NotFound()
    ensures path == "/" ==> r.status == StatusOK && r.body == StaticFile("static/index.html")
  {
    if path != "/" then NotFound()
    else Response(StatusOK, TextHtmlUtf8, StaticFile("static/index.html"))
  }

  const DefaultPort := "8080"

  /** The server's address `":" + port`, where the PORT variable defaults to 8080. */
  function ServerAddress(portVariable: string): (addr: string)
    ensures |addr| > 1 && addr[0] == ':'
    ensures portVariable != "" ==> addr[1..] == portVariable
    ensures portVariable == "" ==> addr == ":8080"
  {
    var port := if portVariable == "" then DefaultPort else portVariable;
    ":" + port
  }
}
