/** Requests as emitted records, responses as supplied values, and the shared status handling. */
module Http {
  import opened Wrappers
  import opened Json
  import opened Decimal
  import opened Auth

  newtype byte = b: int | 0 <= b < 256

  datatype Method = GET | POST

  /** Query parameters (`params=`) or a JSON payload's fields. */
  type Query = map<string, Json>

  /** What `requests.get` / `requests.post` is called with. */
  datatype HttpRequest = HttpRequest(
    verb: Method,
    url: string,
    headers: map<string, string>,
    params: Query,
    body: Option<Json>)

  /** What comes back: the status, `response.text`, `response.content`, the outcome of
      `response.json()` and the content-type header ("" when absent). */
  datatype HttpResponse = HttpResponse(
    status: int,
    text: string,
    content: seq<byte>,
    json: Result<Json>,
    contentType: string)

  /** The network: every request gets exactly one response. */
  type Transport = HttpRequest -> HttpResponse

  /** `key` is in `p` exactly when its argument was given, with the given value. */
  predicate Optional(p: Query, key: string, v: Option<Json>) {
    (key in p <==> v.Some?) && (v.Some? ==> p[key] == v.value)
  }

  /** The parameters an endpoint sends: every key of `keys` whose argument `arg(key)` was
      given, with its encoding, and nothing else. */
  function Collect(arg: string -> Option<Json>, keys: set<string>): Query {
    map k | k in keys && arg(k).Some? :: arg(k).value
  }

  /** What `Collect` promises: only keys of `keys`, each present exactly when given. */
  lemma CollectParams(arg: string -> Option<Json>, keys: set<string>)
    ensures Collect(arg, keys).Keys <= keys
    ensures forall k :: k in keys ==> Optional(Collect(arg, keys), k, arg(k))
  {
  }

  /** One conditional insertion `if v is not None: params[k] = v` extends the collected
      key set by `k`. */
  lemma CollectInsert(arg: string -> Option<Json>, keys: set<string>, k: string,
                      before: Query, after: Query)
    requires before == Collect(arg, keys)
    requires after == if arg(k).Some? then before[k := arg(k).value] else before
    ensures after == Collect(arg, keys + {k})
  {
  }

  /** The parameters of a call that starts from the dict literal `base` and then adds the
      keys of `keys` whose argument was given. */
  lemma CollectOntoParams(base: Query, arg: string -> Option<Json>, keys: set<string>)
    requires forall k :: k in keys ==> k !in base
    ensures (base + Collect(arg, keys)).Keys <= base.Keys + keys
    ensures forall k :: k in base ==> k in base + Collect(arg, keys)
                                      && (base + Collect(arg, keys))[k] == base[k]
    ensures forall k :: k in keys ==> Optional(base + Collect(arg, keys), k, arg(k))
  {
  }

  /** `CollectInsert` on top of a dict literal `base`. */
  lemma CollectInsertOnto(base: Query, arg: string -> Option<Json>, keys: set<string>,
                          k: string, before: Query, after: Query)
    requires before == base + Collect(arg, keys)
    requires after == if arg(k).Some? then before[k := arg(k).value] else before
    ensures after == base + Collect(arg, keys + {k})
  {
    CollectInsert(arg, keys, k, Collect(arg, keys),
                  if arg(k).Some? then Collect(arg, keys)[k := arg(k).value] else Collect(arg, keys));
  }

  function IntParam(o: Option<int>): Option<Json> {
    if o.Some? then Some(JNumber(o.value)) else None
  }

  /** Booleans travel as `str(b).lower()`. */
  function BoolParam(o: Option<bool>): Option<Json> {
    if o.Some? then Some(JString(BoolText(o.value))) else None
  }

  /** `str(value)` when given: an integer sent as its decimal text. */
  function DecimalParam(o: Option<int>): Option<Json> {
    if o.Some? then Some(JString(IntToString(o.value))) else None
  }

  function StrParam(o: Option<string>): Option<Json> {
    if o.Some? then Some(JString(o.value)) else None
  }

  /** A GET to `path` under the workspace, with the bearer header. */
  function GetRequest(c: Credentials, path: string, params: Query): HttpRequest {
    HttpRequest(GET, BaseUrlOf(c) + path, BearerHeaders(c), params, None)
  }

  /** The `f"{prefix}{status_code} - {text}"` message of a failed call. */
  function StatusMessage(prefix: string, status: int, text: string): string {
    prefix + IntToString(status) + " - " + text
  }

  /** The position of the first space in `s`, or `|s|` when there is none. */
  function SpaceIndex(s: string): (k: nat)
    ensures k <= |s|
    ensures forall j :: 0 <= j < k ==> s[j] != ' '
    ensures k < |s| ==> s[k] == ' '
  {
    if s == [] || s[0] == ' ' then 0 else 1 + SpaceIndex(s[1..])
  }

  /** Recovers status and body from a status message with a known prefix. */
  function ParseStatusMessage(prefix: string, message: string): Option<(int, string)> {
    if !StartsWith(message, prefix) then None
    else
      var rest := message[|prefix|..];
      var k := SpaceIndex(rest);
      var code := ParseInt(rest[..k]);
      if code.None? || !StartsWith(rest[k..], " - ") then None
      else Some((code.value, rest[k + 3..]))
  }

  /** A status message carries the status code and the response text verbatim. */
  lemma StatusMessageRoundTrip(prefix: string, status: int, text: string)
    ensures ParseStatusMessage(prefix, StatusMessage(prefix, status, text)) == Some((status, text))
  {
    var code := IntToString(status);
    var message := StatusMessage(prefix, status, text);
    assert message[..|prefix|] == prefix;
    var rest := message[|prefix|..];
    assert rest == code + " - " + text;
    var k := SpaceIndex(rest);
    assert rest[|code|] == ' ';
    assert k == |code|;
    assert rest[..k] == code;
    IntToStringRoundTrip(status);
    assert rest[k..] == " - " + text;
    assert rest[k + 3..] == text;
  }

  /** The shared response handling: status 200 gives `response.json()`, any other status
      raises an exception whose message carries the status and the text. */
  function InterpretJson(resp: HttpResponse, prefix: string): (r: Result<Json>)
    ensures resp.status == 200 ==> r == resp.json
    ensures resp.status != 200 ==> r.Err? && r.error.kind == Exception
    ensures resp.status != 200 ==>
              ParseStatusMessage(prefix, r.error.message) == Some((resp.status, resp.text))
  {
    if resp.status == 200 then resp.json
    else
      StatusMessageRoundTrip(prefix, resp.status, resp.text);
      Err(Error(Exception, StatusMessage(prefix, resp.status, resp.text)))
  }

  /** The requests a call emits: one when it got past its checks, none otherwise. */
  function Sent(q: Result<HttpRequest>): seq<HttpRequest> {
    if q.Ok? then [q.value] else []
  }

  /** The outcome of a call that emits `q` and interprets the answer with `InterpretJson`. */
  function JsonCall(q: Result<HttpRequest>, send: Transport, prefix: string): Result<Json> {
    match q
    case Err(e) => Err(e)
    case Ok(req) => InterpretJson(send(req), prefix)
  }
}
