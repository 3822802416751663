/** The front end of the request dispatchers, everything they do before the
    network call and after the status code comes back:

    - `_send_request` (package and root): URL `{api_url}/{endpoint}`; the
      default bearer header whenever no headers are given.
    - `_asend_request` (package): an explicit `url` overrides the endpoint,
      neither one is an error; the default header only with a truthy token.
    - `_stream_request` / `_astream_request` (package), `_asend_request` /
      `_astream_request` (root): the same token-guarded header rule.
    - A 200 answer returns the decoded body, any other status raises with the
      response text.
    - The comma join that the per-account wrappers apply to their arguments. */
module Dispatcher {
  import opened Common
  import opened Json
  import Text

  const LiveApiUrl := "https://api.tradestation.com/v3"
  const DemoApiUrl := "https://sim-api.tradestation.com/v3"

  /** The base URL the package client picks from `is_demo`. */
  function ApiUrl(isDemo: bool): (u: string)
    ensures isDemo ==> u == DemoApiUrl
    ensures !isDemo ==> u == LiveApiUrl
  {
    if isDemo then DemoApiUrl else LiveApiUrl
  }

  type Headers = map<string, string>

  /** Python truthiness of the optional `headers` argument: `None` and `{}` are falsy. */
  predicate HeadersGiven(h: Option<Headers>) {
    h.Some? && h.value != map[]
  }

  /** `{"Authorization": f"Bearer {self.access_token}"}`; a `None` token is
      rendered as the text `None`. */
  function BearerHeader(token: Option<string>): (h: Headers)
    ensures h.Keys == {"Authorization"} && h != map[]
    ensures token.Some? ==> h["Authorization"] == "Bearer " + token.value
    ensures token.None? ==> h["Authorization"] == "Bearer None"
  {
    map["Authorization" := "Bearer " + PyStr(token)]
  }

  /** The header rule of `_send_request` in both clients: the default header
      replaces any falsy `headers`, whatever the token. */
  function SyncHeaders(h: Option<Headers>, token: Option<string>): (r: Option<Headers>)
    ensures HeadersGiven(h) ==> r == h
    ensures !HeadersGiven(h) ==> r == Some(BearerHeader(token))
    ensures r.Some? && r.value != map[]
  {
    if HeadersGiven(h) then h else Some(BearerHeader(token))
  }

  /** The header rule of the asynchronous and streaming dispatchers: the
      default header is added only when `headers` is falsy and the token is
      truthy; otherwise `headers` is passed on as given. */
  function GuardedHeaders(h: Option<Headers>, token: Option<string>): (r: Option<Headers>)
    ensures !HeadersGiven(h) && StrSet(token) ==> r == Some(BearerHeader(token))
    ensures HeadersGiven(h) || !StrSet(token) ==> r == h
    ensures (r.Some? && "Authorization" in r.value && r != h) ==> StrSet(token)
  {
    if !HeadersGiven(h) && StrSet(token) then Some(BearerHeader(token)) else h
  }

  /** The two rules differ exactly when no headers are given and the token is
      falsy: the synchronous dispatcher then sends `Bearer None` (or a bare
      `Bearer `), the guarded ones send no default header at all. */
  lemma HeaderRulesDiffer(h: Option<Headers>, token: Option<string>)
    ensures SyncHeaders(h, token) != GuardedHeaders(h, token) <==> !HeadersGiven(h) && !StrSet(token)
    ensures !HeadersGiven(h) && token.None? ==> SyncHeaders(h, token) == Some(map["Authorization" := "Bearer None"])
  {
    if !HeadersGiven(h) && !StrSet(token) {
      assert SyncHeaders(h, token).value != map[];
      assert GuardedHeaders(h, token) == h;
    }
    assert "Bearer " + "None" == "Bearer None";
  }

  /** `f"{api_url}/{endpoint}"`. */
  function EndpointUrl(apiUrl: string, endpoint: string): (u: string)
    ensures |u| == |apiUrl| + 1 + |endpoint|
    ensures u[..|apiUrl|] == apiUrl && u[|apiUrl|] == '/' && u[|apiUrl| + 1..] == endpoint
  {
    apiUrl + "/" + endpoint
  }

  /** URL resolution of the package's `_asend_request`: a truthy `url` wins,
      otherwise a truthy `endpoint` is appended to the base URL, otherwise the
      call is refused before any request. */
  function ResolveUrl(apiUrl: string, endpoint: Option<string>, url: Option<string>): (r: Result<string>)
    ensures StrSet(url) ==> r == Ok(url.value)
    ensures !StrSet(url) && StrSet(endpoint) ==> r == Ok(EndpointUrl(apiUrl, endpoint.value))
    ensures r.Err? <==> !StrSet(url) && !StrSet(endpoint)
    ensures r.Err? ==> r.error == MissingEndpoint
  {
    if StrSet(url) then Ok(url.value)
    else if !StrSet(endpoint) then Err(MissingEndpoint)
    else Ok(EndpointUrl(apiUrl, endpoint.value))
  }

  /** What a dispatcher hands to the HTTP client. */
  datatype Prepared = Prepared(httpMethod: string, url: string, headers: Option<Headers>)

  /** The request `_send_request` prepares. */
  function PrepareSync(apiUrl: string, token: Option<string>, httpMethod: string, endpoint: string, h: Option<Headers>): (p: Prepared)
    ensures p.url == EndpointUrl(apiUrl, endpoint) && p.httpMethod == httpMethod
    ensures p.headers.Some? && (!HeadersGiven(h) ==> p.headers.value == BearerHeader(token))
    ensures HeadersGiven(h) ==> p.headers == h
  {
    Prepared(httpMethod, EndpointUrl(apiUrl, endpoint), SyncHeaders(h, token))
  }

  /** The request the package's `_asend_request` prepares, or the error it raises first. */
  function PrepareAsync(apiUrl: string, token: Option<string>, httpMethod: string,
                        endpoint: Option<string>, url: Option<string>, h: Option<Headers>): (r: Result<Prepared>)
    ensures r.Err? <==> ResolveUrl(apiUrl, endpoint, url).Err?
    ensures r.Ok? ==> r.value.url == ResolveUrl(apiUrl, endpoint, url).value
    ensures r.Ok? ==> r.value.headers == GuardedHeaders(h, token) && r.value.httpMethod == httpMethod
  {
    var u :- ResolveUrl(apiUrl, endpoint, url);
    Ok(Prepared(httpMethod, u, GuardedHeaders(h, token)))
  }

  /** The request the streaming dispatchers prepare (no `url` override). */
  function PrepareStream(apiUrl: string, token: Option<string>, httpMethod: string, endpoint: string, h: Option<Headers>): (p: Prepared)
    ensures p.url == EndpointUrl(apiUrl, endpoint) && p.headers == GuardedHeaders(h, token)
  {
    Prepared(httpMethod, EndpointUrl(apiUrl, endpoint), GuardedHeaders(h, token))
  }

  /** The answer of the HTTP client: the status, the body text, and what
      `response.json()` makes of the text (`None` when it is not JSON). */
  datatype Response = Response(status: int, text: string, decoded: Option<Json>)

  /** A 200 returns the decoded body (a body that is not JSON raises from
      `response.json()`); any other status raises with the status and text. */
  function Outcome(resp: Response): (r: Result<Json>)
    ensures r.Ok? <==> resp.status == 200 && resp.decoded.Some?
    ensures r.Ok? ==> r.value == resp.decoded.value
    ensures resp.status != 200 ==> r == Err(RequestFailed(resp.status, resp.text))
    ensures resp.status == 200 && resp.decoded.None? ==> r == Err(InvalidJson(resp.text))
  {
    if resp.status == 200 then
      match resp.decoded
      case Some(v) => Ok(v)
      case None => Err(InvalidJson(resp.text))
    else Err(RequestFailed(resp.status, resp.text))
  }

  // ---------------------------------------------------------------------
  // The account-list argument of the per-account wrappers

  /** A wrapper's `accounts` argument: one id, or a list of ids. */
  datatype Ids = One(id: string) | Many(ids: seq<string>)

  function IdList(a: Ids): seq<string> {
    match a
    case One(id) => [id]
    case Many(ids) => ids
  }

  /** `",".join(accounts)` after a single string has been wrapped in a list. */
  function CommaJoin(a: Ids): string {
    Text.Join(IdList(a), ',')
  }

  /** A non-empty list of comma-free ids is recovered from the joined path
      segment by splitting it at the commas. */
  lemma CommaJoinSplits(a: Ids)
    requires |IdList(a)| >= 1
    requires forall i :: 0 <= i < |IdList(a)| ==> ',' !in IdList(a)[i]
    ensures Text.Split(CommaJoin(a), ',') == IdList(a)
  {
    Text.SplitJoin(IdList(a), ',');
  }

  /** A single id is passed through unchanged. */
  lemma CommaJoinOne(id: string)
    ensures CommaJoin(One(id)) == id
  {
  }
}
