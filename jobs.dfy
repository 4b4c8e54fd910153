/** The Jobs service: `list_jobs`, `get_job` and `list_job_runs`. */
module Jobs {
  import opened Wrappers
  import opened Json
  import opened Decimal
  import opened Auth
  import opened Http

  const ListJobsPath := "/api/2.2/jobs/list"
  const GetJobPath := "/api/2.1/jobs/get"
  const ListRunsPath := "/api/2.1/jobs/runs/list"

  const ListJobsLimitMessage := "limit must be between 1 and 100"
  const ListRunsLimitMessage := "limit must be between 1 and 1000"

  const ListJobsPrefix := "Error listing jobs: "
  const ListRunsPrefix := "Error listing job runs: "

  function GetJobPrefix(jobId: int): string {
    "Error getting job " + IntToString(jobId) + ": "
  }

  /** The arguments of `list_jobs`; `None` stands for Python's `None`. */
  datatype ListJobsArgs = ListJobsArgs(
    limit: Option<int>,
    expandTasks: Option<bool>,
    name: Option<string>,
    pageToken: Option<string>)

  /** `list_jobs()` called with no arguments. */
  const DefaultListJobsArgs := ListJobsArgs(Some(20), Some(false), None, None)

  /** The arguments of `list_job_runs`. */
  datatype ListRunsArgs = ListRunsArgs(
    jobId: Option<int>,
    activeOnly: Option<bool>,
    completedOnly: Option<bool>,
    limit: Option<int>,
    pageToken: Option<string>,
    runType: Option<string>,
    startTimeFrom: Option<int>,
    startTimeTo: Option<int>)

  /** `list_job_runs()` called with no arguments. */
  const DefaultListRunsArgs := ListRunsArgs(None, None, None, Some(20), None, None, None, None)

  const ListJobsKeys: set<string> := {"limit", "expand_tasks", "name", "page_token"}

  /** How `list_jobs` encodes each of its query keys. */
  function ListJobsArg(a: ListJobsArgs, key: string): Option<Json> {
    match key
    case "limit" => IntParam(a.limit)
    case "expand_tasks" => BoolParam(a.expandTasks)
    case "name" => StrParam(a.name)
    case "page_token" => StrParam(a.pageToken)
    case _ => None
  }

  const ListRunsKeys: set<string> := {"job_id", "active_only", "completed_only", "limit",
                                      "page_token", "run_type", "start_time_from", "start_time_to"}

  /** How `list_job_runs` encodes each of its query keys. */
  function ListRunsArg(a: ListRunsArgs, key: string): Option<Json> {
    match key
    case "job_id" => IntParam(a.jobId)
    case "active_only" => BoolParam(a.activeOnly)
    case "completed_only" => BoolParam(a.completedOnly)
    case "limit" => IntParam(a.limit)
    case "page_token" => StrParam(a.pageToken)
    case "run_type" => StrParam(a.runType)
    case "start_time_from" => IntParam(a.startTimeFrom)
    case "start_time_to" => IntParam(a.startTimeTo)
    case _ => None
  }

  predicate InRange(limit: Option<int>, high: int) {
    limit.Some? ==> 1 <= limit.value <= high
  }

  /** The request `list_jobs` emits, or the exception it raises before emitting one:
      first the credentials, then the limit. */
  function ListJobsRequest(env: Env, a: ListJobsArgs): (r: Result<HttpRequest>)
    ensures GetCredentials(env).Err? ==> r == Err(GetCredentials(env).error)
    ensures GetCredentials(env).Ok? ==> (r.Err? <==> !InRange(a.limit, 100))
    ensures GetCredentials(env).Ok? && r.Err? ==> r.error == Error(ValueError, ListJobsLimitMessage)
    ensures r.Ok? ==>
      var q := r.value;
      && q.verb == GET && q.body.None?
      && q.url == BaseUrlOf(GetCredentials(env).value) + ListJobsPath
      && q.headers == BearerHeaders(GetCredentials(env).value)
      && q.params.Keys <= ListJobsKeys
      && forall k :: k in ListJobsKeys ==> Optional(q.params, k, ListJobsArg(a, k))
  {
    match GetCredentials(env)
    case Err(e) => Err(e)
    case Ok(c) =>
      if !InRange(a.limit, 100) then Err(Error(ValueError, ListJobsLimitMessage))
      else
        CollectParams(k => ListJobsArg(a, k), ListJobsKeys);
        Ok(GetRequest(c, ListJobsPath, Collect(k => ListJobsArg(a, k), ListJobsKeys)))
  }

  /** The query `list_jobs` builds in place, refusing a limit outside [1, 100] when it
      reaches that key. */
  method ListJobsParams(a: ListJobsArgs) returns (r: Result<Query>)
    ensures !InRange(a.limit, 100) ==> r == Err(Error(ValueError, ListJobsLimitMessage))
    ensures InRange(a.limit, 100) ==> r == Ok(Collect(k => ListJobsArg(a, k), ListJobsKeys))
  {
    ghost var arg := k => ListJobsArg(a, k);
    ghost var done: set<string> := {};
    var params: Query := map[];
    ghost var before: Query;
    before := params;
    if a.limit.Some? {
      if !(1 <= a.limit.value <= 100) {
        return Err(Error(ValueError, ListJobsLimitMessage));
      }
      params := params["limit" := JNumber(a.limit.value)];
    }
    CollectInsert(arg, done, "limit", before, params);
    done := done + {"limit"};
    before := params;
    if a.expandTasks.Some? {
      params := params["expand_tasks" := JString(BoolText(a.expandTasks.value))];
    }
    CollectInsert(arg, done, "expand_tasks", before, params);
    done := done + {"expand_tasks"};
    before := params;
    if a.name.Some? {
      params := params["name" := JString(a.name.value)];
    }
    CollectInsert(arg, done, "name", before, params);
    done := done + {"name"};
    before := params;
    if a.pageToken.Some? {
      params := params["page_token" := JString(a.pageToken.value)];
    }
    CollectInsert(arg, done, "page_token", before, params);
    done := done + {"page_token"};
    assert done == ListJobsKeys;
    return Ok(params);
  }

  /** `list_jobs`: builds the parameters, makes one call and interprets it. */
  method ListJobs(env: Env, a: ListJobsArgs, send: Transport)
    returns (r: Result<Json>, sent: seq<HttpRequest>)
    ensures sent == Sent(ListJobsRequest(env, a))
    ensures r == JsonCall(ListJobsRequest(env, a), send, ListJobsPrefix)
  {
    var baseUrl := GetBaseUrl(env);
    if baseUrl.Err? {
      return Err(baseUrl.error), [];
    }
    // the headers come from the same environment, so they cannot fail once the URL did not
    var headers := GetHeaders(env).value;
    var url := baseUrl.value + ListJobsPath;
    var params := ListJobsParams(a);
    if params.Err? {
      return Err(params.error), [];
    }
    var request := HttpRequest(GET, url, headers, params.value, None);
    var response := send(request);
    sent := [request];
    if response.status == 200 {
      r := response.json;
    } else {
      r := Err(Error(Exception, StatusMessage(ListJobsPrefix, response.status, response.text)));
    }
  }

  /** The default limit 20 is accepted and sent, with `expand_tasks` as "false". */
  lemma ListJobsDefaultsAccepted(env: Env)
    requires GetCredentials(env).Ok?
    ensures ListJobsRequest(env, DefaultListJobsArgs).Ok?
    ensures ListJobsRequest(env, DefaultListJobsArgs).value.params
            == map["limit" := JNumber(20), "expand_tasks" := JString("false")]
  {
  }

  /** The request `get_job` emits: exactly one parameter, `job_id`. */
  function GetJobRequest(env: Env, jobId: int): (r: Result<HttpRequest>)
    ensures r.Ok? <==> GetCredentials(env).Ok?
    ensures r.Err? ==> r.error == GetCredentials(env).error
    ensures r.Ok? ==>
      var q := r.value;
      && q.verb == GET && q.body.None?
      && q.url == BaseUrlOf(GetCredentials(env).value) + GetJobPath
      && q.headers == BearerHeaders(GetCredentials(env).value)
      && q.params.Keys == {"job_id"} && q.params["job_id"] == JNumber(jobId)
  {
    match GetCredentials(env)
    case Err(e) => Err(e)
    case Ok(c) => Ok(GetRequest(c, GetJobPath, map["job_id" := JNumber(jobId)]))
  }

  /** `get_job`: one call; a failure message names the job and carries status and text. */
  method GetJob(env: Env, jobId: int, send: Transport)
    returns (r: Result<Json>, sent: seq<HttpRequest>)
    ensures sent == Sent(GetJobRequest(env, jobId))
    ensures r == JsonCall(GetJobRequest(env, jobId), send, GetJobPrefix(jobId))
  {
    var baseUrl := GetBaseUrl(env);
    if baseUrl.Err? {
      return Err(baseUrl.error), [];
    }
    var headers := GetHeaders(env).value;
    var url := baseUrl.value + GetJobPath;
    var params: Query := map["job_id" := JNumber(jobId)];
    var request := HttpRequest(GET, url, headers, params, None);
    var response := send(request);
    sent := [request];
    if response.status == 200 {
      r := response.json;
    } else {
      r := Err(Error(Exception, StatusMessage(GetJobPrefix(jobId), response.status, response.text)));
    }
  }

  /** The request `list_job_runs` emits: credentials first, then the limit in [1, 1000]. */
  function ListRunsRequest(env: Env, a: ListRunsArgs): (r: Result<HttpRequest>)
    ensures GetCredentials(env).Err? ==> r == Err(GetCredentials(env).error)
    ensures GetCredentials(env).Ok? ==> (r.Err? <==> !InRange(a.limit, 1000))
    ensures GetCredentials(env).Ok? && r.Err? ==> r.error == Error(ValueError, ListRunsLimitMessage)
    ensures r.Ok? ==>
      var q := r.value;
      && q.verb == GET && q.body.None?
      && q.url == BaseUrlOf(GetCredentials(env).value) + ListRunsPath
      && q.headers == BearerHeaders(GetCredentials(env).value)
      && q.params.Keys <= ListRunsKeys
      && forall k :: k in ListRunsKeys ==> Optional(q.params, k, ListRunsArg(a, k))
  {
    match GetCredentials(env)
    case Err(e) => Err(e)
    case Ok(c) =>
      if !InRange(a.limit, 1000) then Err(Error(ValueError, ListRunsLimitMessage))
      else
        CollectParams(k => ListRunsArg(a, k), ListRunsKeys);
        Ok(GetRequest(c, ListRunsPath, Collect(k => ListRunsArg(a, k), ListRunsKeys)))
  }

  /** The first four keys of `list_job_runs`, which hold the run filters and the limit. */
  const ListRunsFilterKeys: set<string> := {"job_id", "active_only", "completed_only", "limit"}

  /** The first half of the query `list_job_runs` builds in place, refusing a limit outside
      [1, 1000] when it reaches that key. */
  method ListRunsFilterParams(a: ListRunsArgs) returns (r: Result<Query>)
    ensures !InRange(a.limit, 1000) ==> r == Err(Error(ValueError, ListRunsLimitMessage))
    ensures InRange(a.limit, 1000) ==> r == Ok(Collect(k => ListRunsArg(a, k), ListRunsFilterKeys))
  {
    ghost var arg := k => ListRunsArg(a, k);
    ghost var done: set<string> := {};
    var params: Query := map[];
    ghost var before: Query;
    before := params;
    if a.jobId.Some? {
      params := params["job_id" := JNumber(a.jobId.value)];
    }
    CollectInsert(arg, done, "job_id", before, params);
    done := done + {"job_id"};
    before := params;
    if a.activeOnly.Some? {
      params := params["active_only" := JString(BoolText(a.activeOnly.value))];
    }
    CollectInsert(arg, done, "active_only", before, params);
    done := done + {"active_only"};
    before := params;
    if a.completedOnly.Some? {
      params := params["completed_only" := JString(BoolText(a.completedOnly.value))];
    }
    CollectInsert(arg, done, "completed_only", before, params);
    done := done + {"completed_only"};
    before := params;
    if a.limit.Some? {
      if !(1 <= a.limit.value <= 1000) {
        return Err(Error(ValueError, ListRunsLimitMessage));
      }
      params := params["limit" := JNumber(a.limit.value)];
    }
    CollectInsert(arg, done, "limit", before, params);
    done := done + {"limit"};
    assert done == ListRunsFilterKeys;
    return Ok(params);
  }

  /** The second half: the paging and time-window keys, added to the first half in place. */
  method AddListRunsPageParams(a: ListRunsArgs, params0: Query) returns (params: Query)
    requires params0 == Collect(k => ListRunsArg(a, k), ListRunsFilterKeys)
    ensures params == Collect(k => ListRunsArg(a, k), ListRunsKeys)
  {
    ghost var arg := k => ListRunsArg(a, k);
    ghost var done := ListRunsFilterKeys;
    params := params0;
    ghost var before: Query;
    before := params;
    if a.pageToken.Some? {
      params := params["page_token" := JString(a.pageToken.value)];
    }
    CollectInsert(arg, done, "page_token", before, params);
    done := done + {"page_token"};
    before := params;
    if a.runType.Some? {
      params := params["run_type" := JString(a.runType.value)];
    }
    CollectInsert(arg, done, "run_type", before, params);
    done := done + {"run_type"};
    before := params;
    if a.startTimeFrom.Some? {
      params := params["start_time_from" := JNumber(a.startTimeFrom.value)];
    }
    CollectInsert(arg, done, "start_time_from", before, params);
    done := done + {"start_time_from"};
    before := params;
    if a.startTimeTo.Some? {
      params := params["start_time_to" := JNumber(a.startTimeTo.value)];
    }
    CollectInsert(arg, done, "start_time_to", before, params);
    done := done + {"start_time_to"};
    assert done == ListRunsKeys;
  }

  /** `list_job_runs`: builds the parameters, makes one call and interprets it. */
  method ListJobRuns(env: Env, a: ListRunsArgs, send: Transport)
    returns (r: Result<Json>, sent: seq<HttpRequest>)
    ensures sent == Sent(ListRunsRequest(env, a))
    ensures r == JsonCall(ListRunsRequest(env, a), send, ListRunsPrefix)
  {
    var baseUrl := GetBaseUrl(env);
    if baseUrl.Err? {
      return Err(baseUrl.error), [];
    }
    var headers := GetHeaders(env).value;
    var url := baseUrl.value + ListRunsPath;
    var filters := ListRunsFilterParams(a);
    if filters.Err? {
      return Err(filters.error), [];
    }
    var params := AddListRunsPageParams(a, filters.value);
    var request := HttpRequest(GET, url, headers, params, None);
    var response := send(request);
    sent := [request];
    if response.status == 200 {
      r := response.json;
    } else {
      r := Err(Error(Exception, StatusMessage(ListRunsPrefix, response.status, response.text)));
    }
  }

  /** The limit bounds of `list_jobs`: 0 and 101 are refused, 1, 50 and 100 are accepted. */
  lemma ListJobsLimitBoundaries(env: Env, a: ListJobsArgs)
    requires GetCredentials(env).Ok?
    ensures a.limit == Some(0) || a.limit == Some(101) ==>
              ListJobsRequest(env, a) == Err(Error(ValueError, ListJobsLimitMessage))
    ensures a.limit == Some(1) || a.limit == Some(50) || a.limit == Some(100) ==>
              ListJobsRequest(env, a).Ok?
  {
  }

  /** The limit bounds of `list_job_runs`: 0 and 1001 are refused, 1 and 1000 are accepted,
      and the default 20 is accepted and sent. */
  lemma ListRunsLimitBoundaries(env: Env, a: ListRunsArgs)
    requires GetCredentials(env).Ok?
    ensures a.limit == Some(0) || a.limit == Some(1001) ==>
              ListRunsRequest(env, a) == Err(Error(ValueError, ListRunsLimitMessage))
    ensures a.limit == Some(1) || a.limit == Some(1000) ==> ListRunsRequest(env, a).Ok?
    ensures ListRunsRequest(env, DefaultListRunsArgs).Ok?
    ensures ListRunsRequest(env, DefaultListRunsArgs).value.params == map["limit" := JNumber(20)]
  {
  }
}
