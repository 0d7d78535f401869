# Case-note generator: request-handling model

A Dafny model of the request-handling decisions of the case-note
generator's HTTP server (`main.go`): a gateway that turns notes into a
Jira comment, or text into a summary, by one chat-completion call to an
OpenAI backend, and that keeps a directory of named prompt templates
(`static/document/*.prompt`) that clients can list, read and overwrite.

The model has seven modules, one file each:

- `Wrappers` (`wrappers.dfy`): `Option` and `Result`. A `Result` stands for Go's `(value, error)` returns and for the outcome of decoding a JSON body.
- `GoStrings` (`gostrings.dfy`): `strings.HasSuffix`, and a prefix test `HasPrefix` used only in contracts. `strings.TrimSpace` with an explicit table of `unicode.IsSpace`. Go's string order `<`, proved a strict total order.
- `FilePath` (`filepath.dfy`): `filepath.Join`, `filepath.Base`, and `filepath.Glob` with the pattern `*.prompt` over the template directory. This includes the `sort.Strings` step that orders Glob's result.
- `Http` (`http.dfy`): a response is a status, a Content-Type and a body. `http.Error` and `http.NotFound` are functions returning such a response.
- `Completion` (`completion.dfy`): the request that `getCompletion` sends and what it makes of the backend's answer. The backend is a function from the request to either a failure or the list of choice contents.
- `Handlers` (`handlers.dfy`): `generateHandler`, `summaryHandler`, `indexHandler` and the listening address. Each completion handler returns its response together with the backend requests it made. That makes "a body that does not decode reaches no backend" a statement about the result.
- `SystemPrompt` (`systemprompt.dfy`): the class `PromptStore`. Its field `files` is the template directory, a map from file name to content. `HandleGet` and `HandlePost` are the two `/systemprompt` handlers, proved against the functions `GetResponse` and `PostResult`. Lemmas about those functions relate successive calls.

These external effects are parameters: a decoded JSON body is a `Result` whose failure carries the decoder's error text, the backend is a total function, the error `os.WriteFile` may report is an `Option<string>` argument of the POST handler, and a parsed query string is a map from key to values. Reads of the template directory are not parameters: they always succeed (see "## Left out").

Two points about the template listing:

- Order: the listing is sorted, because `filepath.Glob` sorts its matches (main.go:275). The model proves the listing strictly sorted.
- Errors: the error branch at main.go:276-279 cannot be taken. `filepath.Glob` fails only on a malformed pattern, and this pattern is a well-formed constant. The branch has no counterpart in the model.

## Model

| member | source | states |
|---|---|---|
| GoStrings.HasSuffix | main.go:308 | defined as: the suffix is no longer than the string and equals its last characters |
| GoStrings.IsSpace | main.go:419 | defined as the table of `unicode.IsSpace`: '\t' to '\r', ' ', U+0085, U+00A0, U+1680, U+2000 to U+200A, U+2028, U+2029, U+202F, U+205F and U+3000 |
| GoStrings.TrimStart | main.go:419 | from the starting index, everything skipped is white space and the character reached, if any, is not |
| GoStrings.TrimStop | main.go:419 | down from the stopping index, everything skipped is white space and the character before the end reached, if still past the start, is not |
| GoStrings.TrimSpace | main.go:419 | the result is a contiguous slice of the input with only white space outside it, and it neither starts nor ends with white space |
| GoStrings.TrimSpaceIdempotent | main.go:418-419 | trimming a trimmed string changes nothing |
| GoStrings.Less | main.go:275 | defined as the order `sort.Strings` uses: the first differing character decides, and a proper prefix comes first |
| GoStrings.LessIrreflexive | main.go:275 | no string sorts before itself under the order Glob sorts by |
| GoStrings.LessTransitive | main.go:275 | the sort order is transitive |
| GoStrings.LessTotal | main.go:275 | any two different strings are ordered one way or the other |
| GoStrings.LessAsymmetric | main.go:275 | two strings are never each before the other |
| FilePath.Join | main.go:275 | the join of the template directory and each matching name inside `filepath.Glob`: the joined path starts with the directory and a separator, ends with the name, and has nothing else in between |
| FilePath.StripTrailingSlashes | main.go:282 | a prefix of the path with no trailing separator, and everything removed is a separator |
| FilePath.LastElement | main.go:282 | defined as the characters after the last separator; its properties are stated by LastElementIsSuffix |
| FilePath.LastElementIsSuffix | main.go:282 | the last element is a separator-free suffix of the path that reaches back to the last separator or to the start of the path |
| FilePath.Base | main.go:282 | the base name is never empty, and an empty path has the base name "." |
| FilePath.BaseOfSeparators | main.go:282 | a path made only of separators has the base name "/" |
| FilePath.BaseOfJoin | main.go:281-283 | the base name of a directory entry's joined path is the entry's own name |
| FilePath.MatchesPromptPattern | main.go:275 | defined as what the pattern `*.prompt` accepts: no separator, and the name ends in ".prompt" |
| FilePath.PromptNames | main.go:275 | defined as the names that `MatchesPromptPattern` accepts: no separator, and the name ends in ".prompt" |
| FilePath.LeastExists | main.go:275 | every non-empty set of names has a least element |
| FilePath.Least | main.go:275 | picks the least name of a non-empty set |
| FilePath.SortedOf | main.go:275 | as many elements as the set has members |
| FilePath.SortedOfSpec | main.go:275 | the sorted sequence is strictly increasing and holds exactly the members of the set |
| FilePath.SortedOfLeast | main.go:275 | the sorted sequence starts with the least element, followed by the sorted rest |
| FilePath.SortStrings | main.go:275 | the names sorted, equal to SortedOf |
| FilePath.Glob | main.go:275 | one path per matching name, path i being the template directory joined with the i-th matching name in sorted order |
| FilePath.BaseNamesOfGlob | main.go:281-283 | the base name of each path the glob returns is the matching name at that place in sorted order |
| Http.Error | main.go:180 | the given status, plain-text content type, and the message followed by a newline |
| Http.NotFound | main.go:253 | status 404, plain-text content type, and the body "404 page not found" followed by a newline |
| Http.JsonObjectResponse | main.go:203-205 | defined as: status 200, content type application/json, and the object's members in the order they are encoded; all three JSON success responses use it (main.go:203-205, main.go:327-339, main.go:422-424) |
| Completion.CompletionRequest | main.go:219-233 | the model, then exactly two messages: the system prompt under role "system", then the prompt under role "user" |
| Completion.SelectCompletion | main.go:234-245 | success exactly when the backend answered with at least one choice, and then the first choice's content; a backend failure is passed on unchanged; zero choices give "no completion found" |
| Completion.SelectIgnoresLaterChoices | main.go:240-242 | choices after the first never change the outcome |
| Completion.GetCompletion | main.go:217-246 | for the backend's answer to the two-message request: success exactly when it has at least one choice, and then the first choice's content; a backend failure is passed on unchanged; zero choices give "no completion found" |
| Handlers.GeneratePrompt | main.go:187-188 | the dated Jira-comment instruction, ":", a newline, then the user's notes verbatim |
| Handlers.SummaryPrompt | main.go:407 | "Please summarize the following text:" and a blank line, then the text verbatim |
| Handlers.Generate | main.go:175-212 | a body that does not decode gives 400 "Invalid request body" with no backend call; otherwise exactly one backend call with the composed prompt and the notes template; a backend failure or zero choices gives 500 "Error getting completion: " plus the error; otherwise 200 with the single member "completion" holding the first choice |
| Handlers.Summary | main.go:396-431 | as for Generate with the summary prompt and template: 500 errors start "Error getting summary: ", and a 200 response holds only the member "summary" with the trimmed first choice |
| Handlers.SummaryIsTrimmed | main.go:418-422 | a 200 summary has no white space at either end, and trimming it again changes nothing |
| Handlers.CompletionOutcomes | main.go:177-199 | for both handlers: 400 exactly when the body fails to decode, 200 exactly when it decodes and the backend yields a first choice |
| Handlers.Index | main.go:250-258 | any path other than "/" gives 404; "/" serves static/index.html |
| Handlers.ServerAddress | main.go:102-112 | the address is ":" followed by the PORT variable, or ":8080" when PORT is unset or empty |
| SystemPrompt.QueryGet | main.go:263 | the first value of the key, or "" when the key has none |
| SystemPrompt.Listing | main.go:275-283 | strictly sorted, and it holds exactly the stored names without a separator that end in ".prompt", once each |
| SystemPrompt.GetResponse | main.go:262-287 | a non-empty file parameter gives 200 with the stored content as plain text, or 404 "File not found" when no such entry exists; without it, 200 with the JSON list of template names |
| SystemPrompt.PostResult | main.go:292-344 | success exactly when the body decodes, the name ends in ".prompt" and the write succeeds, and then only that entry is set to the body and the response is status "success" with its message; otherwise the directory is unchanged and the response is 400 (parse error, bad name) or 500 (write error) with the source's message |
| SystemPrompt.BaseNames | main.go:280-283 | a list as long as the paths whose element i is the base name of path i |
| SystemPrompt.PromptStore.HandleGet | main.go:262-287 | answers as GetResponse, listing through Glob and BaseNames |
| SystemPrompt.PromptStore.HandlePost | main.go:292-344 | the new directory and the response are those of PostResult on the old directory |
| SystemPrompt.RejectedPostChangesNothing | main.go:300-322 | after a rejected POST every GET answers as before |
| SystemPrompt.PostThenGet | main.go:314-333 | a successful POST followed by a GET of the same name returns exactly the posted body |
| SystemPrompt.PostLeavesOthers | main.go:314-317 | a POST does not change the GET answer for any other name |
| SystemPrompt.PostThenList | main.go:275-283 | after a successful POST the listing is the old listing plus the written name, when the pattern matches that name |

## Left out

- Server start, the signal wait and the five-second graceful shutdown (main.go:114-139): concurrency and a lifecycle that lives inside `net/http`.
- Route registration on the default mux (main.go:82-99): the model takes each handler as already chosen for its route; `indexHandler` receives every GET path no other route claims.
- Logging (`logSetup`, `logMiddleware`, every `log.Print`): output only, with no effect on responses.
- Loading `.env`, the fatal checks on the API key and model variables, and reading the two system prompts at start-up (main.go:53-79): start-up I/O; the system prompts are plain parameters of the handlers.
- The OpenAI call itself (main.go:218-233): a network call into a library; only the request sent and the answer's shape are modelled.
- `healthHandler` (main.go:346-391): wall-clock time, runtime sampling and floating-point values.
- Static file serving and the behaviour of `http.ServeFile` (main.go:82-83, main.go:257): `Index` returns the file to serve, not its bytes or ServeFile's own error and caching responses.
- Path cleaning in `filepath.Join` and path traversal: file names are opaque map keys, so ".." and repeated separators are not interpreted, and a name with a separator is a key of its own rather than a file in a sub-directory.
- Response headers other than Content-Type: `http.Error` also sets `X-Content-Type-Options: nosniff`, and the model keeps only the status, the Content-Type and the body of a response.
- Directories inside the template directory: the map holds files only, so a sub-directory whose name ends in ".prompt", which Glob would list, does not occur.
- The failure of JSON encoding a response (main.go:205-210, main.go:339-343, main.go:424-429): only a failing connection can make it fail, and the status has by then been sent.
- SystemPrompt.GetResponse: reading from the template directory never fails. A template that exists but cannot be read is answered with 200 and its content, while `os.ReadFile`'s error gives 404 "File not found" in the source (main.go:266-269). A directory that cannot be read is listed with all its matching names. In the source, `filepath.Glob` ignores that error and lists nothing, giving 200 `[]` (main.go:275). Both are I/O failures outside the map model of the directory.
- SystemPrompt.PostResult: a failed `os.WriteFile` is taken to leave the stored template unchanged; a write that fails after truncating the file is not modelled.
- JSON as bytes: request bodies arrive decoded and response bodies are the values encoded, so escaping, field-name case folding and the encoder's trailing newline are not modelled.
- Concurrent writers to one template: requests are handled one at a time; the last-write-wins race between simultaneous POSTs is not modelled.
- Byte-level strings: strings are sequences of Unicode scalar values, so how `TrimSpace` and the sort order treat invalid UTF-8 is not modelled.
- static/script/script.js: browser UI (DOM, fetch, clipboard, local-time date formatting), outside the server.
