/** Credential resolution: host and token from the process environment. */
module Auth {
  import opened Wrappers
  import opened Json

  /** The process environment, as `os.getenv` sees it. */
  type Env = map<string, string>

  const HostVar := "DATABRICKS_HOST"
  const TokenVar := "DATABRICKS_TOKEN"

  datatype Credentials = Credentials(host: string, token: string)

  /** `os.getenv(name)` is truthy: the variable is present and not empty. */
  predicate IsSet(env: Env, name: string) {
    name in env && env[name] != ""
  }

  function MustBeSet(name: string): string {
    "Environment variable " + name + " must be set."
  }

  /** The variable a credential error message names. */
  function NamedVariable(message: string): Option<string> {
    var head := "Environment variable ";
    var tail := " must be set.";
    if |head| + |tail| <= |message| && message[..|head|] == head
       && message[|message| - |tail|..] == tail
    then Some(message[|head|..|message| - |tail|])
    else None
  }

  /** `get_databricks_credentials`: the host is checked first, then the token; a missing
      or empty value is absent. */
  function GetCredentials(env: Env): (r: Result<Credentials>)
    ensures r.Ok? <==> IsSet(env, HostVar) && IsSet(env, TokenVar)
    ensures r.Ok? ==> r.value == Credentials(env[HostVar], env[TokenVar])
    ensures r.Err? ==> r.error.kind == EnvironmentError
    ensures r.Err? ==> NamedVariable(r.error.message)
                       == Some(if IsSet(env, HostVar) then TokenVar else HostVar)
  {
    if !IsSet(env, HostVar) then Err(Error(EnvironmentError, MustBeSet(HostVar)))
    else if !IsSet(env, TokenVar) then Err(Error(EnvironmentError, MustBeSet(TokenVar)))
    else Ok(Credentials(env[HostVar], env[TokenVar]))
  }

  function BearerHeaders(c: Credentials): map<string, string> {
    map["Authorization" := "Bearer " + c.token]
  }

  function BaseUrlOf(c: Credentials): string {
    "https://" + c.host
  }

  /** The token an Authorization value carries. */
  function BearerToken(value: string): Option<string> {
    if StartsWith(value, "Bearer ") then Some(value[7..]) else None
  }

  /** The host a base URL names. */
  function UrlHost(url: string): Option<string> {
    if StartsWith(url, "https://") then Some(url[8..]) else None
  }

  /** `get_databricks_headers`: exactly one header, carrying the token as a bearer token. */
  function GetHeaders(env: Env): (r: Result<map<string, string>>)
    ensures r.Ok? <==> GetCredentials(env).Ok?
    ensures r.Err? ==> r.error == GetCredentials(env).error
    ensures r.Ok? ==> r.value.Keys == {"Authorization"}
                      && BearerToken(r.value["Authorization"]) == Some(env[TokenVar])
  {
    match GetCredentials(env)
    case Err(e) => Err(e)
    case Ok(c) =>
      assert StartsWith("Bearer " + c.token, "Bearer ");
      Ok(BearerHeaders(c))
  }

  /** `get_databricks_base_url`: the host behind an https scheme. */
  function GetBaseUrl(env: Env): (r: Result<string>)
    ensures r.Ok? <==> GetCredentials(env).Ok?
    ensures r.Err? ==> r.error == GetCredentials(env).error
    ensures r.Ok? ==> UrlHost(r.value) == Some(env[HostVar])
  {
    match GetCredentials(env)
    case Err(e) => Err(e)
    case Ok(c) =>
      assert StartsWith("https://" + c.host, "https://");
      Ok(BaseUrlOf(c))
  }
}
