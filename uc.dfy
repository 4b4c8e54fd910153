/** The Unity Catalog service: `list_unity_catalogs`, `list_unity_tables`,
    `get_unity_table_info` and the three tools that wrap them. */
module UnityCatalog {
  import opened Wrappers
  import opened Json
  import opened Auth
  import opened Http

  const CatalogsPath := "/api/2.1/unity-catalog/catalogs"
  const TablesPath := "/api/2.1/unity-catalog/tables"

  /** Every Unity Catalog call reports a failed status as "Error: <status> - <text>". */
  const Prefix := "Error: "

  /** The arguments of `list_unity_catalogs`. */
  datatype CatalogsArgs = CatalogsArgs(
    includeBrowse: Option<bool>,
    maxResults: Option<int>,
    pageToken: Option<string>)

  const CatalogsKeys: set<string> := {"include_browse", "max_results", "page_token"}

  /** How `list_unity_catalogs` encodes each of its query keys. */
  function CatalogsArg(a: CatalogsArgs, key: string): Option<Json> {
    match key
    case "include_browse" => BoolParam(a.includeBrowse)
    case "max_results" => IntParam(a.maxResults)
    case "page_token" => StrParam(a.pageToken)
    case _ => None
  }

  /** The request `list_unity_catalogs` emits, or the credential error raised before it. */
  function ListCatalogsRequest(env: Env, a: CatalogsArgs): (r: Result<HttpRequest>)
    ensures r.Ok? <==> GetCredentials(env).Ok?
    ensures r.Err? ==> r.error == GetCredentials(env).error
    ensures r.Ok? ==>
      var q := r.value;
      && q.verb == GET && q.body.None?
      && q.url == BaseUrlOf(GetCredentials(env).value) + CatalogsPath
      && q.headers == BearerHeaders(GetCredentials(env).value)
      && q.params.Keys <= CatalogsKeys
      && forall k :: k in CatalogsKeys ==> Optional(q.params, k, CatalogsArg(a, k))
  {
    match GetCredentials(env)
    case Err(e) => Err(e)
    case Ok(c) =>
      CollectParams(k => CatalogsArg(a, k), CatalogsKeys);
      Ok(GetRequest(c, CatalogsPath, Collect(k => CatalogsArg(a, k), CatalogsKeys)))
  }

  /** `list_unity_catalogs`: builds the parameters in place, makes one call and interprets it. */
  method ListUnityCatalogs(env: Env, a: CatalogsArgs, send: Transport)
    returns (r: Result<Json>, sent: seq<HttpRequest>)
    ensures sent == Sent(ListCatalogsRequest(env, a))
    ensures r == JsonCall(ListCatalogsRequest(env, a), send, Prefix)
  {
    var baseUrl := GetBaseUrl(env);
    if baseUrl.Err? {
      return Err(baseUrl.error), [];
    }
    var headers := GetHeaders(env).value;
    var url := baseUrl.value + CatalogsPath;
    ghost var arg := k => CatalogsArg(a, k);
    ghost var done: set<string> := {};
    var params: Query := map[];
    ghost var before: Query;
    before := params;
    if a.includeBrowse.Some? {
      params := params["include_browse" := JString(BoolText(a.includeBrowse.value))];
    }
    CollectInsert(arg, done, "include_browse", before, params);
    done := done + {"include_browse"};
    before := params;
    if a.maxResults.Some? {
      params := params["max_results" := JNumber(a.maxResults.value)];
    }
    CollectInsert(arg, done, "max_results", before, params);
    done := done + {"max_results"};
    before := params;
    if a.pageToken.Some? {
      params := params["page_token" := JString(a.pageToken.value)];
    }
    CollectInsert(arg, done, "page_token", before, params);
    done := done + {"page_token"};
    assert done == CatalogsKeys;
    var request := HttpRequest(GET, url, headers, params, None);
    var response := send(request);
    sent := [request];
    if response.status == 200 {
      r := response.json;
    } else {
      r := Err(Error(Exception, StatusMessage(Prefix, response.status, response.text)));
    }
  }

  /** The arguments of `list_unity_tables`: the catalog and schema are required. */
  datatype TablesArgs = TablesArgs(
    catalogName: string,
    schemaName: string,
    maxResults: Option<int>,
    pageToken: Option<string>,
    omitColumns: Option<bool>,
    omitProperties: Option<bool>,
    omitUsername: Option<bool>,
    includeBrowse: Option<bool>,
    includeManifestCapabilities: Option<bool>)

  /** The keys the call starts from and the first optional ones, up to `omit_columns`. */
  const TablesHeadKeys: set<string> :=
    {"catalog_name", "schema_name", "max_results", "page_token", "omit_columns"}

  const TablesKeys: set<string> :=
    TablesHeadKeys + {"omit_properties", "omit_username", "include_browse",
                      "include_manifest_capabilities"}

  /** How `list_unity_tables` encodes each of its query keys. */
  function TablesArg(a: TablesArgs, key: string): Option<Json> {
    match key
    case "catalog_name" => Some(JString(a.catalogName))
    case "schema_name" => Some(JString(a.schemaName))
    case "max_results" => IntParam(a.maxResults)
    case "page_token" => StrParam(a.pageToken)
    case "omit_columns" => BoolParam(a.omitColumns)
    case "omit_properties" => BoolParam(a.omitProperties)
    case "omit_username" => BoolParam(a.omitUsername)
    case "include_browse" => BoolParam(a.includeBrowse)
    case "include_manifest_capabilities" => BoolParam(a.includeManifestCapabilities)
    case _ => None
  }

  /** The request `list_unity_tables` emits: catalog and schema always, the rest when given. */
  function ListTablesRequest(env: Env, a: TablesArgs): (r: Result<HttpRequest>)
    ensures r.Ok? <==> GetCredentials(env).Ok?
    ensures r.Err? ==> r.error == GetCredentials(env).error
    ensures r.Ok? ==>
      var q := r.value;
      && q.verb == GET && q.body.None?
      && q.url == BaseUrlOf(GetCredentials(env).value) + TablesPath
      && q.headers == BearerHeaders(GetCredentials(env).value)
      && q.params.Keys <= TablesKeys
      && (forall k :: k in TablesKeys ==> Optional(q.params, k, TablesArg(a, k)))
      && "catalog_name" in q.params && q.params["catalog_name"] == JString(a.catalogName)
      && "schema_name" in q.params && q.params["schema_name"] == JString(a.schemaName)
  {
    match GetCredentials(env)
    case Err(e) => Err(e)
    case Ok(c) =>
      CollectParams(k => TablesArg(a, k), TablesKeys);
      assert TablesArg(a, "catalog_name").Some? && TablesArg(a, "schema_name").Some?;
      Ok(GetRequest(c, TablesPath, Collect(k => TablesArg(a, k), TablesKeys)))
  }

  /** The first half of the query `list_unity_tables` builds in place. */
  method TablesHeadParams(a: TablesArgs) returns (params: Query)
    ensures params == Collect(k => TablesArg(a, k), TablesHeadKeys)
  {
    ghost var arg := k => TablesArg(a, k);
    params := map["catalog_name" := JString(a.catalogName), "schema_name" := JString(a.schemaName)];
    CollectInsert(arg, {}, "catalog_name", map[], map["catalog_name" := JString(a.catalogName)]);
    CollectInsert(arg, {"catalog_name"}, "schema_name",
                  map["catalog_name" := JString(a.catalogName)], params);
    ghost var done: set<string> := {"catalog_name", "schema_name"};
    ghost var before: Query;
    before := params;
    if a.maxResults.Some? {
      params := params["max_results" := JNumber(a.maxResults.value)];
    }
    CollectInsert(arg, done, "max_results", before, params);
    done := done + {"max_results"};
    before := params;
    if a.pageToken.Some? {
      params := params["page_token" := JString(a.pageToken.value)];
    }
    CollectInsert(arg, done, "page_token", before, params);
    done := done + {"page_token"};
    before := params;
    if a.omitColumns.Some? {
      params := params["omit_columns" := JString(BoolText(a.omitColumns.value))];
    }
    CollectInsert(arg, done, "omit_columns", before, params);
    done := done + {"omit_columns"};
    assert done == TablesHeadKeys;
  }

  /** The second half: the remaining boolean flags, added in place. */
  method AddTablesFlagParams(a: TablesArgs, params0: Query) returns (params: Query)
    requires params0 == Collect(k => TablesArg(a, k), TablesHeadKeys)
    ensures params == Collect(k => TablesArg(a, k), TablesKeys)
  {
    ghost var arg := k => TablesArg(a, k);
    ghost var done := TablesHeadKeys;
    params := params0;
    ghost var before: Query;
    before := params;
    if a.omitProperties.Some? {
      params := params["omit_properties" := JString(BoolText(a.omitProperties.value))];
    }
    CollectInsert(arg, done, "omit_properties", before, params);
    done := done + {"omit_properties"};
    before := params;
    if a.omitUsername.Some? {
      params := params["omit_username" := JString(BoolText(a.omitUsername.value))];
    }
    CollectInsert(arg, done, "omit_username", before, params);
    done := done + {"omit_username"};
    before := params;
    if a.includeBrowse.Some? {
      params := params["include_browse" := JString(BoolText(a.includeBrowse.value))];
    }
    CollectInsert(arg, done, "include_browse", before, params);
    done := done + {"include_browse"};
    before := params;
    if a.includeManifestCapabilities.Some? {
      params := params["include_manifest_capabilities" :=
                       JString(BoolText(a.includeManifestCapabilities.value))];
    }
    CollectInsert(arg, done, "include_manifest_capabilities", before, params);
    done := done + {"include_manifest_capabilities"};
    assert done == TablesKeys;
  }

  /** `list_unity_tables`: builds the parameters, makes one call and interprets it. */
  method ListUnityTables(env: Env, a: TablesArgs, send: Transport)
    returns (r: Result<Json>, sent: seq<HttpRequest>)
    ensures sent == Sent(ListTablesRequest(env, a))
    ensures r == JsonCall(ListTablesRequest(env, a), send, Prefix)
  {
    var baseUrl := GetBaseUrl(env);
    if baseUrl.Err? {
      return Err(baseUrl.error), [];
    }
    var headers := GetHeaders(env).value;
    var url := baseUrl.value + TablesPath;
    var head := TablesHeadParams(a);
    var params := AddTablesFlagParams(a, head);
    var request := HttpRequest(GET, url, headers, params, None);
    var response := send(request);
    sent := [request];
    if response.status == 200 {
      r := response.json;
    } else {
      r := Err(Error(Exception, StatusMessage(Prefix, response.status, response.text)));
    }
  }

  /** The request `get_unity_table_info` emits: the name is appended to the path as given,
      and there are no parameters. */
  function TableInfoRequest(env: Env, fullTableName: string): (r: Result<HttpRequest>)
    ensures r.Ok? <==> GetCredentials(env).Ok?
    ensures r.Err? ==> r.error == GetCredentials(env).error
    ensures r.Ok? ==>
      var q := r.value;
      && q.verb == GET && q.body.None? && q.params == map[]
      && q.url == BaseUrlOf(GetCredentials(env).value) + TablesPath + "/" + fullTableName
      && q.headers == BearerHeaders(GetCredentials(env).value)
  {
    match GetCredentials(env)
    case Err(e) => Err(e)
    case Ok(c) => Ok(GetRequest(c, TablesPath + "/" + fullTableName, map[]))
  }

  /** `get_unity_table_info`: one call without parameters. */
  method GetUnityTableInfo(env: Env, fullTableName: string, send: Transport)
    returns (r: Result<Json>, sent: seq<HttpRequest>)
    ensures sent == Sent(TableInfoRequest(env, fullTableName))
    ensures r == JsonCall(TableInfoRequest(env, fullTableName), send, Prefix)
  {
    var baseUrl := GetBaseUrl(env);
    if baseUrl.Err? {
      return Err(baseUrl.error), [];
    }
    var headers := GetHeaders(env).value;
    var url := baseUrl.value + TablesPath + "/" + fullTableName;
    var request := HttpRequest(GET, url, headers, map[], None);
    var response := send(request);
    sent := [request];
    if response.status == 200 {
      r := response.json;
    } else {
      r := Err(Error(Exception, StatusMessage(Prefix, response.status, response.text)));
    }
  }

  /** What a tool returns instead of raising: `{"status": "success", "data": ...}` or
      `{"status": "error", "message": str(e)}`. */
  function ToolResult(o: Result<Json>): (j: Json)
    ensures j.JObject? && DictGet(j.fields, "status", JNull).JString?
    ensures DictGet(j.fields, "status", JNull) == JString("success") <==> o.Ok?
    ensures o.Ok? ==> j.fields.Keys == {"status", "data"}
                      && j.fields["status"] == JString("success") && j.fields["data"] == o.value
    ensures o.Err? ==> j.fields.Keys == {"status", "message"}
                       && j.fields["status"] == JString("error")
                       && j.fields["message"] == JString(o.error.message)
  {
    match o
    case Ok(data) => JObject(map["status" := JString("success"), "data" := data])
    case Err(e) => JObject(map["status" := JString("error"), "message" := JString(e.message)])
  }

  /** The arguments the tool `uc_list_catalogs` passes on: `include_browse` defaults to
      `False` there and is always passed, so it is never None. */
  function ToolCatalogsArgs(includeBrowse: bool := false, maxResults: Option<int> := None,
                            pageToken: Option<string> := None): CatalogsArgs
  {
    CatalogsArgs(Some(includeBrowse), maxResults, pageToken)
  }

  /** The tool `uc_list_catalogs`, with the tool's own defaults. */
  method UcListCatalogs(env: Env, includeBrowse: bool := false, maxResults: Option<int> := None,
                        pageToken: Option<string> := None, send: Transport)
    returns (j: Json, sent: seq<HttpRequest>)
    ensures sent == Sent(ListCatalogsRequest(env, ToolCatalogsArgs(includeBrowse, maxResults, pageToken)))
    ensures j == ToolResult(JsonCall(ListCatalogsRequest(env,
                   ToolCatalogsArgs(includeBrowse, maxResults, pageToken)), send, Prefix))
  {
    var r;
    r, sent := ListUnityCatalogs(env, ToolCatalogsArgs(includeBrowse, maxResults, pageToken), send);
    j := ToolResult(r);
  }

  /** The tool `uc_list_tables`. */
  method UcListTables(env: Env, a: TablesArgs, send: Transport)
    returns (j: Json, sent: seq<HttpRequest>)
    ensures sent == Sent(ListTablesRequest(env, a))
    ensures j == ToolResult(JsonCall(ListTablesRequest(env, a), send, Prefix))
  {
    var r;
    r, sent := ListUnityTables(env, a, send);
    j := ToolResult(r);
  }

  /** The tool `uc_get_table_info`. */
  method UcGetTableInfo(env: Env, fullTableName: string, send: Transport)
    returns (j: Json, sent: seq<HttpRequest>)
    ensures sent == Sent(TableInfoRequest(env, fullTableName))
    ensures j == ToolResult(JsonCall(TableInfoRequest(env, fullTableName), send, Prefix))
  {
    var r;
    r, sent := GetUnityTableInfo(env, fullTableName, send);
    j := ToolResult(r);
  }

  /** Through the tool, `include_browse` is always among the parameters, as the boolean
      given, whereas the plain call leaves it out when not given. */
  lemma ToolAlwaysSendsIncludeBrowse(env: Env, includeBrowse: bool, maxResults: Option<int>,
                                     pageToken: Option<string>)
    requires GetCredentials(env).Ok?
    ensures var q := ListCatalogsRequest(env, ToolCatalogsArgs(includeBrowse, maxResults, pageToken));
            q.Ok? && "include_browse" in q.value.params
            && q.value.params["include_browse"] == JString(if includeBrowse then "true" else "false")
    ensures "include_browse" !in
            ListCatalogsRequest(env, CatalogsArgs(None, maxResults, pageToken)).value.params
  {
    var a := ToolCatalogsArgs(includeBrowse, maxResults, pageToken);
    assert Optional(ListCatalogsRequest(env, a).value.params, "include_browse",
                    CatalogsArg(a, "include_browse"));
    var b := CatalogsArgs(None, maxResults, pageToken);
    assert Optional(ListCatalogsRequest(env, b).value.params, "include_browse",
                    CatalogsArg(b, "include_browse"));
  }

  /** A bare call of the tool sends exactly `include_browse=false`, while a bare call of
      `list_unity_catalogs` sends no parameters at all. */
  lemma ToolDefaultCatalogsParams(env: Env)
    requires GetCredentials(env).Ok?
    ensures ListCatalogsRequest(env, ToolCatalogsArgs()).value.params
            == map["include_browse" := JString("false")]
    ensures ListCatalogsRequest(env, CatalogsArgs(None, None, None)).value.params == map[]
  {
    var a := ToolCatalogsArgs();
    var p := ListCatalogsRequest(env, a).value.params;
    assert Optional(p, "include_browse", CatalogsArg(a, "include_browse"));
    assert p.Keys == {"include_browse"};
    var b := CatalogsArgs(None, None, None);
    var pb := ListCatalogsRequest(env, b).value.params;
    assert forall k :: k in CatalogsKeys ==> CatalogsArg(b, k).None?;
    assert pb.Keys == {};
  }

  /** A failed call reaches the client as an error result whose message still carries the
      status code and the response text. */
  lemma FailedCallReported(q: HttpRequest, send: Transport)
    requires send(q).status != 200
    ensures var j := ToolResult(JsonCall(Ok(q), send, Prefix));
            DictGet(j.fields, "status", JNull) == JString("error")
            && j.fields["message"].JString?
            && ParseStatusMessage(Prefix, j.fields["message"].s) == Some((send(q).status, send(q).text))
  {
  }
}
