/**
 * The prompt-template endpoints `GET /systemprompt` and
 * `POST /systemprompt`. The template directory `static/document` is the
 * map `files` of a PromptStore, from file name (relative to the
 * directory, otherwise opaque) to file content.
 */
module SystemPrompt {
  import opened Wrappers
  import opened GoStrings
  import opened FilePath
  import opened Http

  /** The JSON body of `POST /systemprompt`. */
  datatype PostRequest = PostRequest(filename: string, prompt: string)

  /** A parsed query string: each key with its values, in order. */
  type Query = map<string, seq<string>>

  const FileParameter := "file"

  const FileNotFound := "File not found"

  const InvalidFilename := "Invalid filename: must end with .prompt"

  const ParseErrorPrefix := "Error parsing JSON request: "

  const WriteErrorPrefix := "Error writing to prompt file: "

  /** `url.Values.Get(key)`: the first value given for `key`, or "" when there is none. */
  function QueryGet(query: Query, key: string): (v: string)
    ensures key in query && |query[key]| > 0 ==> v == query[key][0]
    ensures key !in query || |query[key]| == 0 ==> v == ""
  {
    if key in query && |query[key]| > 0 then query[key][0] else ""
  }

  /** The names the template listing shows: the `*.prompt` entries, sorted. */
  ghost function Listing(files: map<string, string>): (names: seq<string>)
    ensures StrictlySorted(names)
    ensures forall n :: n in names <==> n in files && MatchesPromptPattern(n)
    ensures |names| == |PromptNames(files.Keys)|
  {
    SortedOfSpec(PromptNames(files.Keys));
    SortedOf(PromptNames(files.Keys))
  }

  /**
   * The answer of `systemPromptHandler` when the directory holds `files`.
   * With a `file` parameter: the named template as plain text, or 404.
   * Without: the JSON list of template names.
   */
  ghost function GetResponse(files: map<string, string>, query: Query): (r: Response)
    ensures var name := QueryGet(query, FileParameter);
            && (name != "" && name in files ==> r == Response(StatusOK, PlainText, Text(files[name])))
            && (name != "" && name !in files ==> r == Error(FileNotFound, StatusNotFound))
            && (name == "" ==> r == Response(StatusOK, ApplicationJson, JsonArray(Listing(files))))
  {
    var name := QueryGet(query, FileParameter);
    if name != "" then
      if name in files then Response(StatusOK, PlainText, Text(files[name]))
      else Error(FileNotFound, StatusNotFound)
    else
      Response(StatusOK, ApplicationJson, JsonArray(Listing(files)))
  }

  /**
   * What `systemPromptPostHandler` does to a directory holding `files`:
   * the new directory and the response. `writeError` is the error
   * `os.WriteFile` reports, if any.
   */
  function PostResult(files: map<string, string>, body: Result<PostRequest, string>,
                      writeError: Option<string>): (r: (map<string, string>, Response))
    ensures r.1.status == StatusOK <==>
              body.Success? && HasSuffix(body.value.filename, PromptSuffix) && writeError.None?
    ensures r.1.status != StatusOK ==> r.0 == files
    ensures r.1.status == StatusOK ==>
              && r.0 == files[body.value.filename := body.value.prompt]
              && r.1 == JsonObjectResponse([("status", "success"),
                                            ("message", "Prompt file " + body.value.filename + " updated successfully")])
    ensures body.Failure? ==> r.1 == Error(ParseErrorPrefix + body.error, StatusBadRequest)
    ensures body.Success? && !HasSuffix(body.value.filename, PromptSuffix) ==>
              r.1 == Error(InvalidFilename, StatusBadRequest)
    ensures body.Success? && HasSuffix(body.value.filename, PromptSuffix) && writeError.Some? ==>
              r.1 == Error(WriteErrorPrefix + writeError.value, StatusInternalServerError)
  {
    match body
    case Failure(e) => (files, Error(ParseErrorPrefix + e, StatusBadRequest))
    case Success(req) =>
      if !HasSuffix(req.filename, PromptSuffix) then (files, Error(InvalidFilename, StatusBadRequest))
      else if writeError.Some? then
        (files, Error(WriteErrorPrefix + writeError.value, StatusInternalServerError))
      else
        (files[req.filename := req.prompt],
         JsonObjectResponse([("status", "success"),
                             ("message", "Prompt file " + req.filename + " updated successfully")]))
  }

  /**
   * The loop of `systemPromptHandler` that fills the listing: the base name
   * of each path, written index by index into a new array.
   */
  method BaseNames(paths: seq<string>) returns (fileList: seq<string>)
    ensures |fileList| == |paths|
    ensures forall i :: 0 <= i < |paths| ==> fileList[i] == Base(paths[i])
  {
    var list := new string[|paths|];
    for i := 0 to |paths|
      invariant forall k :: 0 <= k < i ==> list[k] == Base(paths[k])
    {
      list[i] := Base(paths[i]);
    }
    fileList := list[..];
  }

  class PromptStore {
    /** The template directory: file name to content. */
    var files: map<string, string>

    constructor (initial: map<string, string>)
      ensures files == initial
    {
      files := initial;
    }

    /** `systemPromptHandler` */
    method HandleGet(query: Query) returns (resp: Response)
      ensures resp == GetResponse(files, query)
    {
      var fileName := QueryGet(query, FileParameter);
      if fileName != "" {
        if fileName !in files {
          return Error(FileNotFound, StatusNotFound);
        }
        return Response(StatusOK, PlainText, Text(files[fileName]));
      }
      var paths := Glob(files.Keys);
      var fileList := BaseNames(paths);
      BaseNamesOfGlob(files.Keys, paths);
      assert fileList == Listing(files);
      resp := Response(StatusOK, ApplicationJson, JsonArray(fileList));
    }

    /** `systemPromptPostHandler` */
    method HandlePost(body: Result<PostRequest, string>, writeError: Option<string>) returns (resp: Response)
      modifies this
      ensures (files, resp) == PostResult(old(files), body, writeError)
    {
      if body.Failure? {
        return Error(ParseErrorPrefix + body.error, StatusBadRequest);
      }
      var req := body.value;
      if !HasSuffix(req.filename, PromptSuffix) {
        return Error(InvalidFilename, StatusBadRequest);
      }
      if writeError.Some? {
        return Error(WriteErrorPrefix + writeError.value, StatusInternalServerError);
      }
      files := files[req.filename := req.prompt];
      resp := JsonObjectResponse([("status", "success"),
                                  ("message", "Prompt file " + req.filename + " updated successfully")]);
    }
  }

  /** A rejected write, whatever the reason, leaves every template as it was. */
  lemma RejectedPostChangesNothing(files: map<string, string>, body: Result<PostRequest, string>,
                                   writeError: Option<string>, query: Query)
    requires PostResult(files, body, writeError).1.status != StatusOK
    ensures GetResponse(PostResult(files, body, writeError).0, query) == GetResponse(files, query)
  {
  }

  /** Reading a template back after writing it yields exactly what was written. */
  lemma PostThenGet(files: map<string, string>, name: string, prompt: string, query: Query)
    requires HasSuffix(name, PromptSuffix)
    requires QueryGet(query, FileParameter) == name
    ensures var (files', posted) := PostResult(files, Success(PostRequest(name, prompt)), None);
            posted.status == StatusOK
            && GetResponse(files', query) == Response(StatusOK, PlainText, Text(prompt))
  {
  }

  /** A write leaves the reading of every other template as it was. */
  lemma PostLeavesOthers(files: map<string, string>, body: Result<PostRequest, string>,
                         writeError: Option<string>, query: Query)
    requires var name := QueryGet(query, FileParameter);
             name != "" && (body.Success? ==> name != body.value.filename)
    ensures GetResponse(PostResult(files, body, writeError).0, query) == GetResponse(files, query)
  {
  }

  /**
   * After a successful write, the listing holds the written name (when it is
   * a directory entry the pattern matches) besides exactly the names it held.
   */
  lemma PostThenList(files: map<string, string>, name: string, prompt: string)
    requires HasSuffix(name, PromptSuffix)
    ensures var files' := PostResult(files, Success(PostRequest(name, prompt)), None).0;
            forall n :: n in Listing(files') <==>
                          n in Listing(files) || (n == name && MatchesPromptPattern(name))
  {
  }
}
