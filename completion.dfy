/**
 * `getCompletion`: one chat-completion exchange with the backend. The
 * backend is a total function from the request to its outcome, either a
 * failure with the error's text or the list of returned choices (the
 * content of each choice's message).
 */
module Completion {
  import opened Wrappers

  /** Roles of `openai.ChatMessageRoleSystem` and `openai.ChatMessageRoleUser`. */
  const RoleSystem := "system"
  const RoleUser := "user"

  /** The error text when the backend answers with no choice. */
  const NoCompletionFound := "no completion found"

  datatype Message = Message(role: string, content: string)

  datatype ChatRequest = ChatRequest(model: string, messages: seq<Message>)

  datatype BackendResult =
    | BackendFailed(error: string)
    | Choices(contents: seq<string>)

  /** The request `getCompletion` sends: the system prompt, then the user prompt. */
  function CompletionRequest(model: string, prompt: string, systemPrompt: string): (req: ChatRequest)
    ensures req.model == model && |req.messages| == 2
    ensures req.messages[0] == Message(RoleSystem, systemPrompt)
    ensures req.messages[1] == Message(RoleUser, prompt)
  {
    ChatRequest(model, [Message(RoleSystem, systemPrompt), Message(RoleUser, prompt)])
  }

  /**
   * What `getCompletion` makes of the backend's answer: a failure is
   * passed on unchanged, an answer without choices is the error
   * "no completion found", otherwise the first choice is the completion.
   */
  function SelectCompletion(answer: BackendResult): (r: Result<string, string>)
    ensures r.Success? <==> answer.Choices? && |answer.contents| > 0
    ensures r.Success? ==> r.value == answer.contents[0]
    ensures answer.BackendFailed? ==> r == Failure(answer.error)
    ensures answer.Choices? && answer.contents == [] ==> r == Failure(NoCompletionFound)
  {
    match answer
    case BackendFailed(e) => Failure(e)
    case Choices(cs) => if |cs| > 0 then Success(cs[0]) else Failure(NoCompletionFound)
  }

  /** Only the first choice matters: what follows it never changes the outcome. */
  lemma SelectIgnoresLaterChoices(first: string, rest: seq<string>, rest': seq<string>)
    ensures SelectCompletion(Choices([first] + rest)) == SelectCompletion(Choices([first] + rest'))
  {
  }

  /**
   * `getCompletion(client, model, prompt, systemPrompt)`: the first choice
   * of the backend's answer to the two-message request, or the error.
   */
  function GetCompletion(backend: ChatRequest -> BackendResult, model: string, prompt: string,
                         systemPrompt: string): (r: Result<string, string>)
    ensures var answer := backend(CompletionRequest(model, prompt, systemPrompt));
      && (r.Success? <==> answer.Choices? && |answer.contents| > 0)
      && (r.Success? ==> r.value == answer.contents[0])
      && (answer.BackendFailed? ==> r == Failure(answer.error))
      && (answer.Choices? && answer.contents == [] ==> r == Failure(NoCompletionFound))
  {
    SelectCompletion(backend(CompletionRequest(model, prompt, systemPrompt)))
  }
}
