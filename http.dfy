/**
 * HTTP responses as values: a status code, the Content-Type header and a
 * body. JSON bodies are kept as the value that `encoding/json` encodes,
 * not as bytes.
 */
module Http {

  const StatusOK := 200
  const StatusBadRequest := 400
  const StatusNotFound := 404
  const StatusInternalServerError := 500

  /** The Content-Type that `http.Error` sets. */
  const PlainTextUtf8 := "text/plain; charset=utf-8"
  const PlainText := "text/plain"
  const ApplicationJson := "application/json"
  const TextHtmlUtf8 := "text/html; charset=utf-8"

  datatype Body =
    | Text(text: string)
      /** A JSON object, its members in the order they are encoded. */
    | JsonObject(members: seq<(string, string)>)
      /** A JSON array of strings. */
    | JsonArray(items: seq<string>)
      /** The content of a static file, as `http.ServeFile` sends it. */
    | StaticFile(path: string)

  datatype Response = Response(status: int, contentType: string, body: Body)

  /**
   * `http.Error(w, message, code)`: the message followed by a newline, as
   * plain text.
   */
  function Error(message: string, code: int): (r: Response)
    ensures r.status == code && r.contentType == PlainTextUtf8
    ensures r.body.Text? && |r.body.text| == |message| + 1
    ensures r.body.text[..|message|] == message && r.body.text[|message|] == '\n'
  {
    Response(code, PlainTextUtf8, Text(message + "\n"))
  }

  /** `http.NotFound(w, r)` */
  function NotFound(): (r: Response)
    ensures r.status == StatusNotFound && r.contentType == PlainTextUtf8
    ensures r.body == Text("404 page not found\n")
  {
    Error("404 page not found", StatusNotFound)
  }

  /** A 200 response whose body is `json.NewEncoder(w).Encode` of an object. */
  function JsonObjectResponse(members: seq<(string, string)>): Response {
    Response(StatusOK, ApplicationJson, JsonObject(members))
  }
}
