# Databricks unified MCP server — a Dafny model

This project models the Databricks unified MCP server (rhuanca/databricks_mcp_server). The
server gathers the tools of four services (SQL, Unity Catalog, Workspace and Jobs) behind one
protocol server. It has four parts, and the model follows them:

- **Registry and dispatch** (`server.dfy`, module `McpServer`). The factory registers the
  enabled services in the fixed order sql, uc, ws, jobs. It then installs the `initialize`,
  `ping`, `list_tools` and `call_tool` handlers.
- **Service enablement** (`config.dfy`, module `Config`). Each service has one
  `ServiceConfig` object, held by a `DatabricksConfig` and switched on and off in place.
- **The services** (`jobs.dfy`, `uc.dfy`, `sql.dfy`, `ws.dfy`). Each endpoint makes one HTTP
  call and interprets the answer. The endpoints build their requests in one of three ways:
  - `list_jobs` and `list_job_runs` first check `limit` against a range. They then build
    their query by conditional in-place insertions.
  - `list_unity_catalogs`, `list_unity_tables`, `list_workspace_contents` and the payload of
    `execute_sql_statement` are also built by conditional in-place insertions, without any
    argument check.
  - `get_job`, `download_databricks_notebook` and `get_workspace_status` send a dict literal.
    `get_unity_table_info` sends no parameters.
- **Credentials** (`auth.dfy`, module `Auth`). The host and token are read from the
  environment, and the base URL and bearer header are formatted from them.

Shared modules:

- `wrappers.dfy`: `Option`, `Result` and the exception kinds.
- `json.dfy`: decoded JSON values, and the Python operations the services apply to them
  (truthiness, `dict.get`, `str(b).lower()`).
- `decimal.dfy`: `str(int)` and its inverse.
- `http.dfy`: request and response records, the parameter-collection lemmas, and the shared
  status handling.

How each endpoint is modelled:

- A declarative **request function** (`ListJobsRequest`, `SqlRequest`, …) gives the request
  the endpoint emits, or the exception it raises before emitting one. Its `ensures` state
  which keys are present and how each is encoded.
- An imperative **method** (`ListJobs`, `ExecuteSqlStatement`, …) builds the dict
  insertion by insertion, as the source does. It is proved equal to the request function.
  - The network is a parameter `send: HttpRequest -> HttpResponse`.
  - The method returns its outcome and the trace `sent` of the requests it emitted (zero
    or one). Its contract states that trace: nothing is recorded when validation fails, and
    exactly the specified request is recorded otherwise.
- A query is specified as `Collect(arg, keys)`: the keys of `keys` whose encoded argument
  `arg(key)` is present. `CollectInsert` relates each `if x is not None: params[k] = ...` to
  one more key collected.

## Model

| member | source | states |
|---|---|---|
| Auth.GetCredentials | databricks_mcp_server/common/auth.py:14-32 | success exactly when both host and token are present and non-empty, returning them unchanged; otherwise an EnvironmentError whose message names DATABRICKS_HOST when the host is missing (even if the token is missing too), else DATABRICKS_TOKEN |
| Auth.GetHeaders | databricks_mcp_server/common/auth.py:35-43 | fails exactly when the credentials fail, with the same error; otherwise exactly one header, Authorization, which carries the token back as a bearer token |
| Auth.GetBaseUrl | databricks_mcp_server/common/auth.py:46-54 | fails exactly when the credentials fail; otherwise an https URL whose host reads back as DATABRICKS_HOST |
| Decimal.IntToStringRoundTrip | databricks_mcp_server/services/sql_service.py:78-81 | `str(n)` of any integer, negative included, parses back to n |
| Json.BoolTextRoundTrip | databricks_mcp_server/services/jobs_service.py:45-46 | `str(b).lower()` reads back as b, and the two booleans give different strings |
| Http.CollectParams | databricks_mcp_server/services/jobs_service.py:38-52 | a collected query has only keys from the endpoint's key set, and each key is present exactly when its argument was given, with the encoded value |
| Http.CollectInsert | databricks_mcp_server/services/jobs_service.py:45-46 | one conditional insertion turns the query collected over a key set into the query collected over that set plus the key |
| Http.CollectOntoParams | databricks_mcp_server/services/sql_service.py:62-81 | starting from a dict literal, the literal's entries survive unchanged, and each optional key is present exactly when admitted |
| Http.CollectInsertOnto | databricks_mcp_server/services/sql_service.py:72-73 | one conditional insertion on top of a dict literal adds exactly one more collected key |
| Http.StatusMessageRoundTrip | databricks_mcp_server/services/jobs_service.py:58-59 | the failure message carries status and response text in a form from which both are recovered exactly |
| Http.InterpretJson | databricks_mcp_server/services/jobs_service.py:56-59 | status 200 yields the decoded JSON (or its decoding error); any other status yields an Exception from which the status and text are recovered |
| Jobs.ListJobsRequest | databricks_mcp_server/services/jobs_service.py:32-54 | credential errors come first; then an error exactly when a given limit is outside [1, 100], with "limit must be between 1 and 100"; otherwise a GET to /api/2.2/jobs/list whose keys are among limit, expand_tasks, name and page_token, each present exactly when given, with booleans as "true"/"false" |
| Jobs.ListJobsParams | databricks_mcp_server/services/jobs_service.py:38-52 | the in-place build refuses an out-of-range limit, and otherwise yields the collected query |
| Jobs.ListJobs | databricks_mcp_server/services/jobs_service.py:11-59 | emits exactly the request of `ListJobsRequest` (nothing when it fails) and returns the interpretation of its answer with prefix "Error listing jobs: " |
| Jobs.ListJobsDefaultsAccepted | databricks_mcp_server/services/jobs_service.py:12-13 | the defaults are accepted and send exactly limit 20 and expand_tasks "false" |
| Jobs.ListJobsLimitBoundaries | databricks_mcp_server/services/jobs_service.py:40-42 | limits 0 and 101 raise the ValueError; 1, 50 and 100 pass |
| Jobs.GetJobRequest | databricks_mcp_server/services/jobs_service.py:75-81 | a GET to /api/2.1/jobs/get with exactly one parameter, job_id |
| Jobs.GetJob | databricks_mcp_server/services/jobs_service.py:62-86 | emits that request and interprets the answer with a prefix naming the job id |
| Jobs.ListRunsRequest | databricks_mcp_server/services/jobs_service.py:115-141 | credential errors first; then an error exactly when a given limit is outside [1, 1000]; otherwise a GET to /api/2.1/jobs/runs/list whose eight optional keys are each present exactly when given, with booleans lower-cased |
| Jobs.ListRunsFilterParams | databricks_mcp_server/services/jobs_service.py:120-131 | the first four insertions, with the limit check, yield the query collected over job_id, active_only, completed_only and limit, or the ValueError |
| Jobs.AddListRunsPageParams | databricks_mcp_server/services/jobs_service.py:132-139 | the remaining four insertions complete the query over all eight keys |
| Jobs.ListJobRuns | databricks_mcp_server/services/jobs_service.py:89-146 | emits exactly the request of `ListRunsRequest` and interprets its answer with prefix "Error listing job runs: " |
| Jobs.ListRunsLimitBoundaries | databricks_mcp_server/services/jobs_service.py:128-131 | limits 0 and 1001 raise the ValueError; 1 and 1000 pass; the defaults send exactly limit 20 |
| UnityCatalog.ListCatalogsRequest | databricks_mcp_server/services/uc_service.py:27-40 | a GET to /api/2.1/unity-catalog/catalogs whose keys are among include_browse, max_results and page_token, each present exactly when not None |
| UnityCatalog.ListUnityCatalogs | databricks_mcp_server/services/uc_service.py:11-45 | emits exactly that request and interprets its answer with prefix "Error: " |
| UnityCatalog.ListTablesRequest | databricks_mcp_server/services/uc_service.py:76-100 | catalog_name and schema_name are always sent as given; the seven other keys are each present exactly when not None, with booleans lower-cased |
| UnityCatalog.TablesHeadParams | databricks_mcp_server/services/uc_service.py:80-90 | the dict literal and the first three insertions yield the query collected over the first five keys |
| UnityCatalog.AddTablesFlagParams | databricks_mcp_server/services/uc_service.py:91-98 | the four flag insertions complete the query over all nine keys |
| UnityCatalog.ListUnityTables | databricks_mcp_server/services/uc_service.py:48-105 | emits exactly the request of `ListTablesRequest` and interprets its answer with prefix "Error: " |
| UnityCatalog.TableInfoRequest | databricks_mcp_server/services/uc_service.py:118-122 | a GET to the tables path, "/" and the full table name as given, with no parameters |
| UnityCatalog.GetUnityTableInfo | databricks_mcp_server/services/uc_service.py:108-127 | emits that request and interprets the answer with prefix "Error: " |
| UnityCatalog.ToolResult | databricks_mcp_server/services/uc_service.py:142-150 | status "success" exactly when the call succeeded; then exactly status "success" and data holding the result; otherwise exactly status "error" and message holding the exception's text, whatever raised it |
| UnityCatalog.UcListCatalogs | databricks_mcp_server/services/uc_service.py:134-150 | the tool, with include_browse defaulting to false and the other two to None, calls `list_unity_catalogs` with include_browse always given, and shapes every outcome with `ToolResult` instead of raising |
| UnityCatalog.UcListTables | databricks_mcp_server/services/uc_service.py:152-181 | the tool passes its arguments through and shapes every outcome with `ToolResult` |
| UnityCatalog.UcGetTableInfo | databricks_mcp_server/services/uc_service.py:183-192 | the tool passes the name through and shapes every outcome with `ToolResult` |
| UnityCatalog.ToolAlwaysSendsIncludeBrowse | databricks_mcp_server/services/uc_service.py:135 | through the tool include_browse is always sent, as the boolean given, while the plain call omits it when not given |
| UnityCatalog.ToolDefaultCatalogsParams | databricks_mcp_server/services/uc_service.py:135-138 | a bare call of the tool sends exactly include_browse "false"; a bare call of `list_unity_catalogs` sends no parameters |
| UnityCatalog.FailedCallReported | databricks_mcp_server/services/uc_service.py:149-150 | a failed status reaches the client as an error result whose message still yields the status and text |
| Sql.PayloadFields | databricks_mcp_server/services/sql_service.py:62-81 | the payload holds the six fixed fields as given, each of catalog, schema, parameters, byte_limit and row_limit exactly when its test admits it, and nothing else |
| Sql.SqlRequest | databricks_mcp_server/services/sql_service.py:56-83 | a POST to /api/2.0/sql/statements/ with exactly the Authorization and Content-Type: application/json headers, no query parameters and the payload as JSON body |
| Sql.BuildPayload | databricks_mcp_server/services/sql_service.py:62-81 | the in-place build yields exactly the specified payload |
| Sql.ExecuteSqlStatement | databricks_mcp_server/services/sql_service.py:21-88 | emits exactly that request (after mutating the headers) and interprets the answer with prefix "SQL execution failed: " |
| Sql.DefaultsPayload | databricks_mcp_server/services/sql_service.py:15-18 | with only statement and warehouse given, the payload is exactly the six fields with INLINE, JSON_ARRAY, "10s" and CONTINUE |
| Sql.FalsyFieldsOmitted | databricks_mcp_server/services/sql_service.py:72-77 | an empty catalog, an empty schema and an empty parameter list are left out |
| Sql.ZeroLimitsSent | databricks_mcp_server/services/sql_service.py:78-81 | zero limits are still sent, as "0" |
| Sql.LimitsReadBack | databricks_mcp_server/services/sql_service.py:78-81 | a given limit is sent as text from which the same integer is read back |
| Workspace.ExportParams | databricks_mcp_server/services/ws_service.py:32-36 | exactly path, format and direct_download, the last reading back as the boolean given |
| Workspace.DownloadRequest | databricks_mcp_server/services/ws_service.py:28-38 | a GET to /api/2.0/workspace/export with exactly those parameters |
| Workspace.InterpretExport | databricks_mcp_server/services/ws_service.py:40-51 | a non-200 status raises with the status and text; a direct download returns the raw bytes; otherwise a non-dict answer raises AttributeError, a missing or empty content gives None, text content gives what the decoder gives, and other content raises TypeError |
| Workspace.ReadExportAnswer | databricks_mcp_server/services/ws_service.py:40-51 | the branching code computes exactly `InterpretExport` |
| Workspace.DownloadNotebook | databricks_mcp_server/services/ws_service.py:12-51 | with format defaulting to "SOURCE" and direct_download to false, emits exactly the export request and returns the interpretation of its answer |
| Workspace.DownloadDefaults | databricks_mcp_server/services/ws_service.py:14-15 | with the defaults, the export parameters are exactly the path, format "SOURCE" and direct_download "false" |
| Workspace.DownloadNothingIff | databricks_mcp_server/services/ws_service.py:44-49 | None comes back exactly when status is 200, not direct, and the answer is a dict with missing or empty content |
| Workspace.DownloadDecodes | databricks_mcp_server/services/ws_service.py:44-48 | with a decoder that inverts an encoder, the bytes the server encoded are the bytes returned |
| Workspace.InterpretWorkspace | databricks_mcp_server/services/ws_service.py:72-79 | status 200 gives the JSON; another status gives a dict of exactly error_code and message, from the JSON body when its content type is JSON, defaulting to UNKNOWN_ERROR and the response text; a non-dict body raises AttributeError |
| Workspace.NonJsonErrorReported | databricks_mcp_server/services/ws_service.py:75-79 | a failed call whose content type is not JSON returns exactly the two defaults |
| Workspace.WorkspaceNeverRaisesOnStatus | databricks_mcp_server/services/ws_service.py:107-114 | a listing or status call never raises because of the status: any error comes from reading the body |
| Workspace.StatusRequest | databricks_mcp_server/services/ws_service.py:64-70 | a GET to /api/2.0/workspace/get-status with exactly the path parameter |
| Workspace.ReadWorkspaceAnswer | databricks_mcp_server/services/ws_service.py:72-79 | the branching code computes exactly `InterpretWorkspace` |
| Workspace.GetWorkspaceStatus | databricks_mcp_server/services/ws_service.py:54-79 | emits exactly that request and reads the answer with `InterpretWorkspace` |
| Workspace.ListParams | databricks_mcp_server/services/ws_service.py:100-103 | path always; notebooks_modified_after exactly when given, as text that reads back as the integer |
| Workspace.ListRequest | databricks_mcp_server/services/ws_service.py:96-105 | a GET to /api/2.0/workspace/list with those parameters |
| Workspace.ListWorkspaceContents | databricks_mcp_server/services/ws_service.py:82-114 | builds the parameters in place, emits exactly that request and reads the answer with `InterpretWorkspace` |
| Config.ServiceConfig.constructor | databricks_mcp_server/common/config.py:11-13 | enabled unless told otherwise, with the extra options kept verbatim |
| Config.SetEnabled | databricks_mcp_server/common/config.py:36-38 | a known service gets the new value, every other entry is kept, and an unknown name changes nothing |
| Config.EnableAfterDisable | databricks_mcp_server/common/config.py:34-44 | enabling after disabling restores the service and leaves the others as they were |
| Config.DatabricksConfig.constructor | databricks_mcp_server/common/config.py:19-23 | four fresh, distinct records, all enabled, with no options |
| Config.DatabricksConfig.GetServiceConfig | databricks_mcp_server/common/config.py:30-32 | the service's own record for sql, uc, ws and jobs, and nothing for any other name |
| Config.DatabricksConfig.IsServiceEnabled | databricks_mcp_server/common/config.py:25-28 | true exactly for a known service whose record is enabled, false for every other name |
| Config.DatabricksConfig.EnabledServices | databricks_mcp_server/common/config.py:25-28 | exactly the names `is_service_enabled` answers true for |
| Config.DatabricksConfig.DisableService | databricks_mcp_server/common/config.py:34-38 | a known service is switched off, the others keep their state, an unknown name changes nothing, and all options are kept |
| Config.DatabricksConfig.EnableService | databricks_mcp_server/common/config.py:40-44 | the same with the switch turned on |
| Config.DatabricksConfig.GetServiceConfigAsWritten | databricks_mcp_server/common/config.py:30-32 | the `getattr` lookup as written: the four records for the four names, the bound methods for "disable" and "enable", nothing otherwise |
| Config.DatabricksConfig.IsServiceEnabledAsWritten | databricks_mcp_server/common/config.py:25-28 | as written, "disable" and "enable" raise AttributeError; every other name agrees with `IsServiceEnabled` |
| Config.DatabricksConfig.DisableServiceAsWritten | databricks_mcp_server/common/config.py:34-38 | as written, "disable" and "enable" raise and change nothing; every other name behaves as `DisableService` |
| Config.DatabricksConfig.EnableServiceAsWritten | databricks_mcp_server/common/config.py:40-44 | as written, "disable" and "enable" raise and change nothing; every other name behaves as `EnableService` |
| Config.DatabricksConfig.DisableNameRaises | databricks_mcp_server/common/config.py:27-28 | the discrepancy: `is_service_enabled("disable")` raises where an unknown name reads as disabled |
| Config.ServiceAttributeName | databricks_mcp_server/common/config.py:27 | `f"{name}_service"` names a service's attribute exactly when name is that service |
| Config.DisableEnableAttributeName | databricks_mcp_server/common/config.py:36 | `f"{name}_service"` names a method exactly for "disable" and "enable" |
| McpServer.SelectedMembers | databricks_mcp_server/server.py:65-67 | a service is registered exactly when it is in the registry and enabled |
| McpServer.SelectedAll | databricks_mcp_server/server.py:51-52 | with all services enabled, all are registered, in registry order |
| McpServer.RegisterServices | databricks_mcp_server/server.py:59-67 | the loop calls the register functions of exactly the enabled services, in order, and accumulates their providers and handlers |
| McpServer.CreateServer | databricks_mcp_server/server.py:41-72 | the invoked services are the enabled ones in the order sql, uc, ws, jobs, and all four when no config is given; the server has the name, the accumulated providers and handlers, and the four protocol kinds |
| McpServer.ListingAppend | databricks_mcp_server/server.py:99-101 | listing the concatenation of two provider lists is the concatenation of their listings |
| McpServer.ListingByService | databricks_mcp_server/server.py:97-102 | a created server lists its tools service by service, in registration order |
| McpServer.HandlerOwner | databricks_mcp_server/server.py:67 | a tool name is handled exactly when some registered service contributed it, and then by the last one to do so |
| McpServer.HandleInitialize | databricks_mcp_server/server.py:82-92 | always "Databricks Unified MCP Server", "0.1.0", protocol "2024-11-05" and the tools capability |
| McpServer.HandleListTools | databricks_mcp_server/server.py:97-102 | the concatenation of every provider's output, in order |
| McpServer.HandleCallTool | databricks_mcp_server/server.py:104-110 | an unknown name fails with "Unknown tool: <name>" and calls no handler; a known name calls exactly that handler once, on the arguments, and passes its outcome through unchanged |
| McpServer.Handle | databricks_mcp_server/server.py:112-119 | each of the four installed kinds goes to its handler: initialize gives the constant answer, ping the empty result, list_tools the listing; call_tool gives the handler's content, or the very error the handler raised |

## Left out

- HTTP. `requests.get`/`requests.post` become a transport parameter. `response.json()` becomes
  the `json` field of the response, decoding error included. The content-type header becomes a
  field, "" when absent. Connection errors and timeouts are not modelled.
- Base64. `base64.b64decode` on text is a decoder parameter, so the model says nothing about
  which strings decode.
- The environment. `os.getenv` is a map passed in.
- The protocol library, `async`/`await`, and the `@mcp_instance.tool()` decorator that turns
  the tool wrappers into JSON-argument handlers. The tools take typed arguments instead.
- The register functions. `register_sql_tools`, `register_ws_tools` and `register_jobs_tools`
  are imported by the server but not defined in the service files. `register_uc_tools` takes
  one argument but is called with three. Registration is therefore a parameter: each service
  yields providers, appended to the tool list, and handlers, written into the handler map.
- The package's `__init__.py` and `__main__.py`. The first only sets a version string. The
  second is entry-point plumbing that imports a name the server module does not define.
- Concurrency between in-flight calls. Nothing in the code coordinates them.
- Dict ordering. Queries and payloads are maps, so the order in which keys are encoded is not
  captured.
- JSON numbers are integers. No endpoint here reads a fraction.
- Exception texts produced by libraries (JSON decoding, base64) are whatever the response or
  decoder supplies.
- Python's `bool` is an `int`. A `True` passed as a limit is not modelled.
- McpServer.HandleCallTool: the absence of a handler call is stated through the `calls` trace
  the method returns, not through the handlers themselves.
- The endpoint methods (`Jobs.ListJobs`, `Sql.ExecuteSqlStatement`, `Workspace.DownloadNotebook`
  and the others) record the requests they emit in the `sent` trace they return. The transport
  is a pure function value, so the contracts cannot rule out a second call to it that is left
  out of the trace. "Exactly one call" holds of the trace, not of the transport.

## Findings

| source | as written | input that shows it | evidently intended | confidence | as-written member | corrected member |
|---|---|---|---|---|---|---|
| databricks_mcp_server/common/config.py:27-28 | `getattr(self, f"{service_name}_service", None)` also finds the bound methods `disable_service` and `enable_service` | `is_service_enabled("disable")` raises AttributeError "'method' object has no attribute 'enabled'"; `get_service_config("enable")` returns a method; `disable_service("disable")` raises | an unknown service name reads as disabled, has no config, and switching it changes nothing | not executed | Config.DatabricksConfig.IsServiceEnabledAsWritten | Config.DatabricksConfig.IsServiceEnabled |

The server itself only asks about sql, uc, ws and jobs, so the quirk does not affect
registration. `Config.DatabricksConfig.DisableNameRaises` exhibits the discrepancy.
`GetServiceConfigAsWritten`, `DisableServiceAsWritten` and `EnableServiceAsWritten` show the
same lookup in the other three methods. The rest of the model uses the corrected members.
