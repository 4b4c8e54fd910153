/** The SQL service: `execute_sql_statement` on the SQL Statement Execution API. */
module Sql {
  import opened Wrappers
  import opened Json
  import opened Decimal
  import opened Auth
  import opened Http

  const StatementsPath := "/api/2.0/sql/statements/"
  const Prefix := "SQL execution failed: "

  const DefaultWaitTimeout := "10s"
  const DefaultOnWaitTimeout := "CONTINUE"
  const DefaultDisposition := "INLINE"
  const DefaultFormat := "JSON_ARRAY"

  /** The arguments of `execute_sql_statement`. */
  datatype SqlArgs = SqlArgs(
    statement: string,
    warehouseId: string,
    catalog: Option<string>,
    schema: Option<string>,
    disposition: string,
    format: string,
    waitTimeout: string,
    onWaitTimeout: string,
    parameters: Option<seq<Json>>,
    byteLimit: Option<int>,
    rowLimit: Option<int>)

  /** A call that names only the statement and the warehouse. */
  function DefaultArgs(statement: string, warehouseId: string): SqlArgs {
    SqlArgs(statement, warehouseId, None, None, DefaultDisposition, DefaultFormat,
            DefaultWaitTimeout, DefaultOnWaitTimeout, None, None, None)
  }

  /** The payload's dict literal: the six fields every statement carries. */
  function BasePayload(a: SqlArgs): Query {
    map["statement" := JString(a.statement),
        "warehouse_id" := JString(a.warehouseId),
        "disposition" := JString(a.disposition),
        "format" := JString(a.format),
        "wait_timeout" := JString(a.waitTimeout),
        "on_wait_timeout" := JString(a.onWaitTimeout)]
  }

  const BaseKeys: set<string> :=
    {"statement", "warehouse_id", "disposition", "format", "wait_timeout", "on_wait_timeout"}

  const OptionalKeys: set<string> := {"catalog", "schema", "parameters", "byte_limit", "row_limit"}

  /** `if value:` on an optional string. */
  function TruthyString(o: Option<string>): Option<Json> {
    if o.Some? && Truthy(JString(o.value)) then Some(JString(o.value)) else None
  }

  /** How the payload encodes each optional field: catalog, schema and parameters when
      truthy, the limits whenever given. */
  function OptionalArg(a: SqlArgs, key: string): Option<Json> {
    match key
    case "catalog" => TruthyString(a.catalog)
    case "schema" => TruthyString(a.schema)
    case "parameters" =>
      if a.parameters.Some? && Truthy(JArray(a.parameters.value))
      then Some(JArray(a.parameters.value)) else None
    case "byte_limit" => DecimalParam(a.byteLimit)
    case "row_limit" => DecimalParam(a.rowLimit)
    case _ => None
  }

  /** The bearer header plus the JSON content type. */
  function SqlHeaders(c: Credentials): map<string, string> {
    BearerHeaders(c)["Content-Type" := "application/json"]
  }

  /** The JSON body of a statement: the dict literal plus the optional fields admitted. */
  function Payload(a: SqlArgs): Query {
    BasePayload(a) + Collect(k => OptionalArg(a, k), OptionalKeys)
  }

  /** The body holds the six fixed fields as given, each optional field exactly when its
      test admits it, and nothing else. */
  lemma PayloadFields(a: SqlArgs)
    ensures Payload(a).Keys <= BasePayload(a).Keys + OptionalKeys
    ensures forall k :: k in BasePayload(a) ==> k in Payload(a) && Payload(a)[k] == BasePayload(a)[k]
    ensures forall k :: k in OptionalKeys ==> Optional(Payload(a), k, OptionalArg(a, k))
  {
    assert BasePayload(a).Keys == BaseKeys;
    assert BaseKeys !! OptionalKeys;
    CollectOntoParams(BasePayload(a), k => OptionalArg(a, k), OptionalKeys);
  }

  /** The request `execute_sql_statement` emits: a POST to the statements endpoint with the
      JSON content type and the payload as its body. */
  function SqlRequest(env: Env, a: SqlArgs): (r: Result<HttpRequest>)
    ensures r.Ok? <==> GetCredentials(env).Ok?
    ensures r.Err? ==> r.error == GetCredentials(env).error
    ensures r.Ok? ==>
      var q := r.value;
      && q.verb == POST && q.params == map[]
      && q.url == BaseUrlOf(GetCredentials(env).value) + StatementsPath
      && q.headers.Keys == {"Authorization", "Content-Type"}
      && q.headers["Authorization"] == BearerHeaders(GetCredentials(env).value)["Authorization"]
      && q.headers["Content-Type"] == "application/json"
      && q.body == Some(JObject(Payload(a)))
  {
    match GetCredentials(env)
    case Err(e) => Err(e)
    case Ok(c) =>
      Ok(HttpRequest(POST, BaseUrlOf(c) + StatementsPath, SqlHeaders(c), map[], Some(JObject(Payload(a)))))
  }

  /** The payload as `execute_sql_statement` builds it in place. */
  method BuildPayload(a: SqlArgs) returns (payload: Query)
    ensures payload == Payload(a)
  {
    ghost var arg := k => OptionalArg(a, k);
    ghost var base := BasePayload(a);
    payload := map["statement" := JString(a.statement),
                   "warehouse_id" := JString(a.warehouseId),
                   "disposition" := JString(a.disposition),
                   "format" := JString(a.format),
                   "wait_timeout" := JString(a.waitTimeout),
                   "on_wait_timeout" := JString(a.onWaitTimeout)];
    ghost var done: set<string> := {};
    ghost var before: Query;
    assert payload == base + Collect(arg, done);
    before := payload;
    if a.catalog.Some? && a.catalog.value != "" {
      payload := payload["catalog" := JString(a.catalog.value)];
    }
    CollectInsertOnto(base, arg, done, "catalog", before, payload);
    done := done + {"catalog"};
    before := payload;
    if a.schema.Some? && a.schema.value != "" {
      payload := payload["schema" := JString(a.schema.value)];
    }
    CollectInsertOnto(base, arg, done, "schema", before, payload);
    done := done + {"schema"};
    before := payload;
    if a.parameters.Some? && |a.parameters.value| > 0 {
      payload := payload["parameters" := JArray(a.parameters.value)];
    }
    CollectInsertOnto(base, arg, done, "parameters", before, payload);
    done := done + {"parameters"};
    before := payload;
    if a.byteLimit.Some? {
      payload := payload["byte_limit" := JString(IntToString(a.byteLimit.value))];
    }
    CollectInsertOnto(base, arg, done, "byte_limit", before, payload);
    done := done + {"byte_limit"};
    before := payload;
    if a.rowLimit.Some? {
      payload := payload["row_limit" := JString(IntToString(a.rowLimit.value))];
    }
    CollectInsertOnto(base, arg, done, "row_limit", before, payload);
    done := done + {"row_limit"};
    assert done == OptionalKeys;
  }

  /** `execute_sql_statement`: one POST; a failed status raises with status and text. */
  method ExecuteSqlStatement(env: Env, a: SqlArgs, send: Transport)
    returns (r: Result<Json>, sent: seq<HttpRequest>)
    ensures sent == Sent(SqlRequest(env, a))
    ensures r == JsonCall(SqlRequest(env, a), send, Prefix)
  {
    var baseUrl := GetBaseUrl(env);
    if baseUrl.Err? {
      return Err(baseUrl.error), [];
    }
    var headers := GetHeaders(env).value;
    headers := headers["Content-Type" := "application/json"];
    var url := baseUrl.value + StatementsPath;
    var payload := BuildPayload(a);
    var request := HttpRequest(POST, url, headers, map[], Some(JObject(payload)));
    var response := send(request);
    sent := [request];
    if response.status == 200 {
      r := response.json;
    } else {
      r := Err(Error(Exception, StatusMessage(Prefix, response.status, response.text)));
    }
  }

  /** A statement with every default sends exactly the six fixed fields, with the
      documented defaults. */
  lemma DefaultsPayload(statement: string, warehouseId: string)
    ensures Payload(DefaultArgs(statement, warehouseId))
            == map["statement" := JString(statement), "warehouse_id" := JString(warehouseId),
                   "disposition" := JString("INLINE"), "format" := JString("JSON_ARRAY"),
                   "wait_timeout" := JString("10s"), "on_wait_timeout" := JString("CONTINUE")]
  {
    var a := DefaultArgs(statement, warehouseId);
    PayloadFields(a);
    forall k | k in OptionalKeys
      ensures k !in Payload(a)
    {
      assert OptionalArg(a, k).None?;
    }
    assert Payload(a).Keys == BasePayload(a).Keys;
  }

  /** Catalog, schema and parameters are tested for truthiness: empty ones are left out. */
  lemma FalsyFieldsOmitted(a: SqlArgs)
    requires a.catalog == Some("") && a.schema == Some("") && a.parameters == Some([])
    ensures "catalog" !in Payload(a) && "schema" !in Payload(a) && "parameters" !in Payload(a)
  {
    assert OptionalArg(a, "catalog").None? && OptionalArg(a, "schema").None?;
    assert OptionalArg(a, "parameters").None?;
    assert "catalog" !in BasePayload(a) && "schema" !in BasePayload(a);
    assert "parameters" !in BasePayload(a);
  }

  /** The limits are tested with `is not None`: a zero limit is sent, as "0". */
  lemma ZeroLimitsSent(a: SqlArgs)
    requires a.byteLimit == Some(0) && a.rowLimit == Some(0)
    ensures "byte_limit" in Payload(a) && Payload(a)["byte_limit"] == JString("0")
    ensures "row_limit" in Payload(a) && Payload(a)["row_limit"] == JString("0")
  {
    assert OptionalArg(a, "byte_limit") == Some(JString("0"));
    assert OptionalArg(a, "row_limit") == Some(JString("0"));
    assert "byte_limit" in OptionalKeys && "row_limit" in OptionalKeys;
  }

  /** The limits survive their trip as text: the receiver reads back the same integer. */
  lemma LimitsReadBack(a: SqlArgs)
    ensures a.byteLimit.Some? ==> "byte_limit" in Payload(a) && Payload(a)["byte_limit"].JString?
                                  && ParseInt(Payload(a)["byte_limit"].s) == a.byteLimit
    ensures a.rowLimit.Some? ==> "row_limit" in Payload(a) && Payload(a)["row_limit"].JString?
                                 && ParseInt(Payload(a)["row_limit"].s) == a.rowLimit
  {
    assert OptionalArg(a, "byte_limit") == DecimalParam(a.byteLimit);
    assert OptionalArg(a, "row_limit") == DecimalParam(a.rowLimit);
    assert "byte_limit" in OptionalKeys && "row_limit" in OptionalKeys;
    if a.byteLimit.Some? {
      IntToStringRoundTrip(a.byteLimit.value);
    }
    if a.rowLimit.Some? {
      IntToStringRoundTrip(a.rowLimit.value);
    }
  }
}
