/** The HTTP gateway (`makeApiRequest`): builds one request from the
    configured base URL and API key, and turns the upstream's reply into the
    parsed payload or a failure. The network call itself is not modelled:
    its outcome is an `Upstream` value handed in by the caller. */
module Gateway {
  import opened Wrappers
  import opened Strings
  import opened Errors
  import opened JsValues

  /** Process configuration, read once at start-up. */
  datatype Config = Config(baseUrl: string, apiKey: Option<string>)

  const DefaultBaseUrl := "http://localhost:8000"

  /** The configuration the process builds from its two environment
      variables (`None` when a variable is unset): an unset or empty base
      URL falls back to the local default; the key is kept as given. */
  function ConfigFromEnv(urlVar: Option<string>, keyVar: Option<string>): (c: Config)
    ensures c.baseUrl != ""
    ensures urlVar.Some? && urlVar.value != "" ==> c.baseUrl == urlVar.value
    ensures urlVar.None? || urlVar.value == "" ==> c.baseUrl == DefaultBaseUrl
    ensures c.apiKey == keyVar
  {
    Config(if urlVar.Some? && urlVar.value != "" then urlVar.value else DefaultBaseUrl, keyVar)
  }

  /** A key is used only when it is set and non-empty (a truthy string). */
  predicate HasKey(cfg: Config) {
    cfg.apiKey.Some? && cfg.apiKey.value != ""
  }

  datatype Request = Request(url: string, verb: string, headers: map<string, string>, body: Option<Value>)

  /** The headers every request carries. */
  function RequestHeaders(cfg: Config): (h: map<string, string>)
    ensures "Content-Type" in h && h["Content-Type"] == "application/json"
    ensures "Authorization" in h <==> HasKey(cfg)
    ensures HasKey(cfg) ==> h["Authorization"] == "Token " + cfg.apiKey.value
    ensures h.Keys <= {"Content-Type", "Authorization"}
  {
    var base := map["Content-Type" := "application/json"];
    if HasKey(cfg) then base["Authorization" := "Token " + cfg.apiKey.value] else base
  }

  /** The request issued for `endpoint`: the URL is the base URL followed
      by the endpoint, unescaped; a body is sent only when it is truthy. */
  function ApiRequest(cfg: Config, endpoint: string, verb: string, body: Option<Value>): (r: Request)
    ensures r.url == cfg.baseUrl + endpoint && EndsWith(r.url, endpoint)
    ensures r.verb == verb
    ensures r.headers == RequestHeaders(cfg)
    ensures r.body.Some? <==> body.Some? && Truthy(body.value)
    ensures r.body.Some? ==> r.body == body
  {
    Request(cfg.baseUrl + endpoint, verb, RequestHeaders(cfg),
            if body.Some? && Truthy(body.value) then body else None)
  }

  /** What the network call produced: a reply (its status, its text, and
      the outcome of parsing that text as JSON) or a transport failure. */
  datatype Upstream =
    | Reply(status: int, text: string, parsed: Result<Value, string>)
    | TransportErr(cause: string)

  /** `response.ok`. */
  predicate IsOkStatus(status: int) {
    200 <= status <= 299
  }

  /** The payload `makeApiRequest` resolves to, or the error it throws. */
  function ApiResponse(up: Upstream): (r: Fallible<Value>)
    ensures r.Ok? <==> up.Reply? && IsOkStatus(up.status) && up.parsed.Ok?
    ensures r.Ok? ==> r.value == up.parsed.value
    ensures r.Err? ==> StartsWith(Message(r.error), NetworkPrefix)
    ensures up.Reply? && !IsOkStatus(up.status) ==> r == Err(ApiStatus(up.status, up.text))
  {
    match up
    case TransportErr(cause) => Err(Transport(cause))
    case Reply(status, text, parsed) =>
      if !IsOkStatus(status) then Err(ApiStatus(status, text))
      else match parsed
        case Ok(v) => Ok(v)
        case Err(cause) => Err(Transport(cause))
  }

  /** `makeApiRequest` step by step: the URL, a header dictionary that is
      created with the content type and then given the authorization entry
      when a key is configured, the request, and the reply's handling. */
  method MakeApiRequest(cfg: Config, endpoint: string, verb: string, body: Option<Value>, up: Upstream)
    returns (req: Request, r: Fallible<Value>)
    ensures req == ApiRequest(cfg, endpoint, verb, body)
    ensures r == ApiResponse(up)
  {
    var url := cfg.baseUrl + endpoint;
    var headers: map<string, string> := map["Content-Type" := "application/json"];
    if cfg.apiKey.Some? && cfg.apiKey.value != "" {
      headers := headers["Authorization" := "Token " + cfg.apiKey.value];
    }
    var sent := if body.Some? && Truthy(body.value) then body else None;
    req := Request(url, verb, headers, sent);
    if up.TransportErr? {
      r := Err(Transport(up.cause));
    } else if !(200 <= up.status <= 299) {
      r := Err(ApiStatus(up.status, up.text));
    } else if up.parsed.Err? {
      r := Err(Transport(up.parsed.error));
    } else {
      r := Ok(up.parsed.value);
    }
  }
}
