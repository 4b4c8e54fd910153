/** The Workspace service: `download_databricks_notebook`, `get_workspace_status` and
    `list_workspace_contents`. */
module Workspace {
  import opened Wrappers
  import opened Json
  import opened Decimal
  import opened Auth
  import opened Http

  const ExportPath := "/api/2.0/workspace/export"
  const StatusPath := "/api/2.0/workspace/get-status"
  const ListPath := "/api/2.0/workspace/list"

  const DownloadPrefix := "Error downloading notebook: "
  const DefaultExportFormat := "SOURCE"
  const UnknownErrorCode := "UNKNOWN_ERROR"

  /** `base64.b64decode` on a string: the bytes, or the error it raises for text that is
      not ASCII or not valid base64. */
  type Decoder = string -> Result<seq<byte>>

  /** The message Python gives for `value.get(...)` on a value that is not a dict. */
  function NoGetMessage(j: Json): string {
    "'" + TypeName(j) + "' object has no attribute 'get'"
  }

  /** The message `b64decode` gives for a value that is neither text nor bytes. */
  function NotDecodableMessage(j: Json): string {
    "argument should be a bytes-like object or ASCII string, not '" + TypeName(j) + "'"
  }

  /** The export parameters: all three are always sent. */
  function ExportParams(path: string, format: string, directDownload: bool): (p: Query)
    ensures p.Keys == {"path", "format", "direct_download"}
    ensures p["path"] == JString(path) && p["format"] == JString(format)
    ensures p["direct_download"].JString?
            && ParseBoolText(p["direct_download"].s) == Some(directDownload)
  {
    BoolTextRoundTrip(directDownload);
    map["path" := JString(path), "format" := JString(format),
        "direct_download" := JString(BoolText(directDownload))]
  }

  /** The request `download_databricks_notebook` emits. */
  function DownloadRequest(env: Env, path: string, format: string := DefaultExportFormat,
                           directDownload: bool := false): (r: Result<HttpRequest>)
    ensures r.Ok? <==> GetCredentials(env).Ok?
    ensures r.Err? ==> r.error == GetCredentials(env).error
    ensures r.Ok? ==>
      var q := r.value;
      && q.verb == GET && q.body.None?
      && q.url == BaseUrlOf(GetCredentials(env).value) + ExportPath
      && q.headers == BearerHeaders(GetCredentials(env).value)
      && q.params == ExportParams(path, format, directDownload)
  {
    match GetCredentials(env)
    case Err(e) => Err(e)
    case Ok(c) => Ok(GetRequest(c, ExportPath, ExportParams(path, format, directDownload)))
  }

  /** How `download_databricks_notebook` reads the answer: the raw body when downloading
      directly, otherwise the base64 `content` field of the JSON answer, or nothing when that
      field is missing or empty. */
  function InterpretExport(resp: HttpResponse, directDownload: bool, decode: Decoder)
    : (r: Result<Option<seq<byte>>>)
    ensures resp.status != 200 ==> r.Err? && r.error.kind == Exception
    ensures resp.status != 200 ==>
              ParseStatusMessage(DownloadPrefix, r.error.message) == Some((resp.status, resp.text))
    ensures resp.status == 200 && directDownload ==> r == Ok(Some(resp.content))
    ensures resp.status == 200 && !directDownload && resp.json.Err? ==> r == Err(resp.json.error)
    ensures resp.status == 200 && !directDownload && resp.json.Ok? && !resp.json.value.JObject? ==>
              r == Err(Error(AttributeError, NoGetMessage(resp.json.value)))
    ensures resp.status == 200 && !directDownload && resp.json.Ok? && resp.json.value.JObject? ==>
              var content := DictGet(resp.json.value.fields, "content", JNull);
              && (!Truthy(content) ==> r == Ok(None))
              && (Truthy(content) && content.JString? && decode(content.s).Ok? ==>
                    r == Ok(Some(decode(content.s).value)))
              && (Truthy(content) && content.JString? && decode(content.s).Err? ==>
                    r == Err(decode(content.s).error))
              && (Truthy(content) && !content.JString? ==>
                    r == Err(Error(TypeError, NotDecodableMessage(content))))
  {
    if resp.status != 200 then
      StatusMessageRoundTrip(DownloadPrefix, resp.status, resp.text);
      Err(Error(Exception, StatusMessage(DownloadPrefix, resp.status, resp.text)))
    else if directDownload then Ok(Some(resp.content))
    else
      match resp.json
      case Err(e) => Err(e)
      case Ok(data) =>
        if !data.JObject? then Err(Error(AttributeError, NoGetMessage(data)))
        else
          var content := DictGet(data.fields, "content", JNull);
          if !Truthy(content) then Ok(None)
          else if !content.JString? then Err(Error(TypeError, NotDecodableMessage(content)))
          else
            match decode(content.s)
            case Err(e) => Err(e)
            case Ok(bytes) => Ok(Some(bytes))
  }

  /** The outcome of a download that emits `q`. */
  function ExportCall(q: Result<HttpRequest>, send: Transport, directDownload: bool,
                      decode: Decoder): Result<Option<seq<byte>>> {
    match q
    case Err(e) => Err(e)
    case Ok(req) => InterpretExport(send(req), directDownload, decode)
  }

  /** Reads the answer of an export as `download_databricks_notebook` does. */
  method ReadExportAnswer(response: HttpResponse, directDownload: bool, decode: Decoder)
    returns (r: Result<Option<seq<byte>>>)
    ensures r == InterpretExport(response, directDownload, decode)
  {
    if response.status != 200 {
      return Err(Error(Exception, StatusMessage(DownloadPrefix, response.status, response.text)));
    }
    if directDownload {
      return Ok(Some(response.content));
    }
    if response.json.Err? {
      return Err(response.json.error);
    }
    var data := response.json.value;
    if !data.JObject? {
      return Err(Error(AttributeError, NoGetMessage(data)));
    }
    var content := DictGet(data.fields, "content", JNull);
    if Truthy(content) {
      if !content.JString? {
        return Err(Error(TypeError, NotDecodableMessage(content)));
      }
      var bytes := decode(content.s);
      if bytes.Err? {
        return Err(bytes.error);
      }
      return Ok(Some(bytes.value));
    }
    r := Ok(None);
  }

  /** `download_databricks_notebook`: one call and its interpretation. */
  method DownloadNotebook(env: Env, path: string, format: string := DefaultExportFormat,
                          directDownload: bool := false, send: Transport, decode: Decoder)
    returns (r: Result<Option<seq<byte>>>, sent: seq<HttpRequest>)
    ensures sent == Sent(DownloadRequest(env, path, format, directDownload))
    ensures r == ExportCall(DownloadRequest(env, path, format, directDownload), send,
                            directDownload, decode)
  {
    var baseUrl := GetBaseUrl(env);
    if baseUrl.Err? {
      return Err(baseUrl.error), [];
    }
    var headers := GetHeaders(env).value;
    var url := baseUrl.value + ExportPath;
    var params: Query := map["path" := JString(path), "format" := JString(format),
                             "direct_download" := JString(BoolText(directDownload))];
    var request := HttpRequest(GET, url, headers, params, None);
    var response := send(request);
    sent := [request];
    r := ReadExportAnswer(response, directDownload, decode);
  }

  /** A download with the defaults asks for the `SOURCE` export as base64 JSON, not the
      raw file. */
  lemma DownloadDefaults(env: Env, path: string)
    requires GetCredentials(env).Ok?
    ensures DownloadRequest(env, path).value.params
            == map["path" := JString(path), "format" := JString("SOURCE"),
                   "direct_download" := JString("false")]
  {
    var p := DownloadRequest(env, path).value.params;
    assert p == ExportParams(path, "SOURCE", false);
  }

  /** A download yields nothing exactly when the call succeeded without direct download and
      the JSON answer is a dict whose `content` is missing or empty. */
  lemma DownloadNothingIff(resp: HttpResponse, directDownload: bool, decode: Decoder)
    ensures InterpretExport(resp, directDownload, decode) == Ok(None) <==>
            && resp.status == 200 && !directDownload
            && resp.json.Ok? && resp.json.value.JObject?
            && !Truthy(DictGet(resp.json.value.fields, "content", JNull))
  {
  }

  /** Downloaded bytes always come from the decoder when not downloading directly: with a
      decoder that inverts an encoder, what the server encoded is what the caller gets. */
  lemma DownloadDecodes(resp: HttpResponse, decode: Decoder, encode: seq<byte> -> string,
                        data: seq<byte>)
    requires forall b :: decode(encode(b)) == Ok(b)
    requires encode(data) != ""
    requires resp.status == 200 && resp.json == Ok(JObject(map["content" := JString(encode(data))]))
    ensures InterpretExport(resp, false, decode) == Ok(Some(data))
  {
    assert decode(encode(data)) == Ok(data);
  }

  /** The body of a failed status or listing call: the JSON answer when its content type says
      JSON, an empty dict otherwise. */
  function ErrorData(resp: HttpResponse): Result<Json> {
    if StartsWith(resp.contentType, "application/json") then resp.json else Ok(JObject(map[]))
  }

  /** How `get_workspace_status` and `list_workspace_contents` read the answer: a failed
      status does not raise but becomes an `error_code`/`message` dict, defaulting to
      `UNKNOWN_ERROR` and the response text. */
  function InterpretWorkspace(resp: HttpResponse): (r: Result<Json>)
    ensures resp.status == 200 ==> r == resp.json
    ensures resp.status != 200 && ErrorData(resp).Err? ==> r == ErrorData(resp)
    ensures resp.status != 200 && ErrorData(resp).Ok? && !ErrorData(resp).value.JObject? ==>
              r == Err(Error(AttributeError, NoGetMessage(ErrorData(resp).value)))
    ensures resp.status != 200 && ErrorData(resp).Ok? && ErrorData(resp).value.JObject? ==>
              var f := ErrorData(resp).value.fields;
              && r.Ok? && r.value.JObject? && r.value.fields.Keys == {"error_code", "message"}
              && r.value.fields["error_code"] == DictGet(f, "error_code", JString(UnknownErrorCode))
              && r.value.fields["message"] == DictGet(f, "message", JString(resp.text))
  {
    if resp.status == 200 then resp.json
    else
      match ErrorData(resp)
      case Err(e) => Err(e)
      case Ok(data) =>
        if !data.JObject? then Err(Error(AttributeError, NoGetMessage(data)))
        else
          Ok(JObject(map["error_code" := DictGet(data.fields, "error_code", JString(UnknownErrorCode)),
                         "message" := DictGet(data.fields, "message", JString(resp.text))]))
  }

  /** A failed call whose answer is not JSON reports `UNKNOWN_ERROR` with the response text,
      and a non-200 status never raises an `Exception` of its own. */
  lemma NonJsonErrorReported(resp: HttpResponse)
    requires resp.status != 200 && !StartsWith(resp.contentType, "application/json")
    ensures InterpretWorkspace(resp)
            == Ok(JObject(map["error_code" := JString(UnknownErrorCode),
                              "message" := JString(resp.text)]))
  {
    var r := InterpretWorkspace(resp);
    assert r.value.fields.Keys == {"error_code", "message"};
  }

  /** Unlike the other services, a listing or status call never turns a status code into an
      exception: every error it reports was raised while reading the answer. */
  lemma WorkspaceNeverRaisesOnStatus(resp: HttpResponse)
    ensures InterpretWorkspace(resp).Err? ==>
              InterpretWorkspace(resp) == resp.json
              || InterpretWorkspace(resp).error.kind == AttributeError
  {
  }

  /** The outcome of a status or listing call that emits `q`. */
  function WorkspaceCall(q: Result<HttpRequest>, send: Transport): Result<Json> {
    match q
    case Err(e) => Err(e)
    case Ok(req) => InterpretWorkspace(send(req))
  }

  /** The request `get_workspace_status` emits: the path is its only parameter. */
  function StatusRequest(env: Env, path: string): (r: Result<HttpRequest>)
    ensures r.Ok? <==> GetCredentials(env).Ok?
    ensures r.Err? ==> r.error == GetCredentials(env).error
    ensures r.Ok? ==>
      var q := r.value;
      && q.verb == GET && q.body.None?
      && q.url == BaseUrlOf(GetCredentials(env).value) + StatusPath
      && q.headers == BearerHeaders(GetCredentials(env).value)
      && q.params.Keys == {"path"} && q.params["path"] == JString(path)
  {
    match GetCredentials(env)
    case Err(e) => Err(e)
    case Ok(c) => Ok(GetRequest(c, StatusPath, map["path" := JString(path)]))
  }

  /** Reads the answer of a status or listing call as both functions do. */
  method ReadWorkspaceAnswer(response: HttpResponse) returns (r: Result<Json>)
    ensures r == InterpretWorkspace(response)
  {
    if response.status == 200 {
      return response.json;
    }
    var errorData: Result<Json>;
    if StartsWith(response.contentType, "application/json") {
      errorData := response.json;
    } else {
      errorData := Ok(JObject(map[]));
    }
    if errorData.Err? {
      return Err(errorData.error);
    }
    var data := errorData.value;
    if !data.JObject? {
      return Err(Error(AttributeError, NoGetMessage(data)));
    }
    r := Ok(JObject(map["error_code" := DictGet(data.fields, "error_code", JString(UnknownErrorCode)),
                        "message" := DictGet(data.fields, "message", JString(response.text))]));
  }

  /** `get_workspace_status`: one call; a failed status comes back as an error dict. */
  method GetWorkspaceStatus(env: Env, path: string, send: Transport)
    returns (r: Result<Json>, sent: seq<HttpRequest>)
    ensures sent == Sent(StatusRequest(env, path))
    ensures r == WorkspaceCall(StatusRequest(env, path), send)
  {
    var baseUrl := GetBaseUrl(env);
    if baseUrl.Err? {
      return Err(baseUrl.error), [];
    }
    var headers := GetHeaders(env).value;
    var url := baseUrl.value + StatusPath;
    var params: Query := map["path" := JString(path)];
    var request := HttpRequest(GET, url, headers, params, None);
    var response := send(request);
    sent := [request];
    r := ReadWorkspaceAnswer(response);
  }

  /** The listing parameters: the path, and the modification bound as decimal text when
      given. */
  function ListParams(path: string, modifiedAfter: Option<int>): (p: Query)
    ensures p.Keys <= {"path", "notebooks_modified_after"}
    ensures "path" in p && p["path"] == JString(path)
    ensures Optional(p, "notebooks_modified_after", DecimalParam(modifiedAfter))
    ensures modifiedAfter.Some? ==> ParseInt(p["notebooks_modified_after"].s) == modifiedAfter
  {
    if modifiedAfter.Some? then
      IntToStringRoundTrip(modifiedAfter.value);
      map["path" := JString(path),
          "notebooks_modified_after" := JString(IntToString(modifiedAfter.value))]
    else map["path" := JString(path)]
  }

  /** The request `list_workspace_contents` emits. */
  function ListRequest(env: Env, path: string, modifiedAfter: Option<int>): (r: Result<HttpRequest>)
    ensures r.Ok? <==> GetCredentials(env).Ok?
    ensures r.Err? ==> r.error == GetCredentials(env).error
    ensures r.Ok? ==>
      var q := r.value;
      && q.verb == GET && q.body.None?
      && q.url == BaseUrlOf(GetCredentials(env).value) + ListPath
      && q.headers == BearerHeaders(GetCredentials(env).value)
      && q.params == ListParams(path, modifiedAfter)
  {
    match GetCredentials(env)
    case Err(e) => Err(e)
    case Ok(c) => Ok(GetRequest(c, ListPath, ListParams(path, modifiedAfter)))
  }

  /** `list_workspace_contents`: builds the parameters in place, makes one call and reads
      the answer as `get_workspace_status` does. */
  method ListWorkspaceContents(env: Env, path: string, modifiedAfter: Option<int>, send: Transport)
    returns (r: Result<Json>, sent: seq<HttpRequest>)
    ensures sent == Sent(ListRequest(env, path, modifiedAfter))
    ensures r == WorkspaceCall(ListRequest(env, path, modifiedAfter), send)
  {
    var baseUrl := GetBaseUrl(env);
    if baseUrl.Err? {
      return Err(baseUrl.error), [];
    }
    var headers := GetHeaders(env).value;
    var url := baseUrl.value + ListPath;
    var params: Query := map["path" := JString(path)];
    if modifiedAfter.Some? {
      params := params["notebooks_modified_after" := JString(IntToString(modifiedAfter.value))];
    }
    var request := HttpRequest(GET, url, headers, params, None);
    var response := send(request);
    sent := [request];
    r := ReadWorkspaceAnswer(response);
  }
}
