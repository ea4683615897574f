/**
 * The internal request helper `_make_request` and the `ByteflowAPIError`
 * record: it builds the URL and the authorised headers, hands one request to
 * the HTTP client library, and classifies every failure into an `ApiError`.
 *
 * The remote service and the HTTP client library are abstracted into a
 * scripted `server` function that answers the n-th wire request; the client
 * keeps a ghost log of the requests it was asked to make.
 */
module Gateway {
  import opened PyValues

  /**
   * `ByteflowAPIError`: a message and, for HTTP failures only, the status
   * code and the raw response body.
   */
  datatype ApiError = ApiError(message: string, statusCode: Option<int>, responseText: Option<string>)

  /** What the request helper returns to a tool: the decoded body, or the error it raised. */
  datatype Outcome = Ok(value: Json) | Err(error: ApiError)

  /** One call of the request helper: HTTP method (verb), endpoint path and optional JSON body. */
  datatype Request = Request(verb: string, endpoint: string, body: Option<Json>)

  /** What the HTTP client library is asked to send. */
  datatype WireRequest = WireRequest(verb: string, url: string, headers: map<string, string>, body: Option<Json>, timeout: nat)

  /**
   * What the HTTP client library reports: a response (status, body text and
   * decoded body), or the kind of exception it raised with its text.
   * A connect timeout is a connection error in the library, so `TimedOut`
   * stands for the remaining (read) timeouts.
   */
  datatype WireReply =
    | Response(status: nat, text: string, json: Json)
    | ConnectionFailed(detail: string)
    | TimedOut(detail: string)
    | RequestFailed(detail: string)

  /** How the remote service answers the n-th request sent to it. */
  type Server = (nat, WireRequest) -> WireReply

  /** How the request helper answers the n-th request a tool makes. */
  type Answerer = (nat, Request) -> Outcome

  const RequestTimeout: nat := 15
  const PlaceholderKey := "dummy_key_for_tests"
  const SharedHeaders: map<string, string> := map["Content-Type" := "application/json"]

  const HttpErrorPrefix := "Byteflow API HTTP Error: "
  const ConnectionErrorPrefix := "Byteflow API Connection Error: "
  const TimeoutErrorPrefix := "Byteflow API Timeout Error: "
  const RequestErrorPrefix := "An unexpected request error occurred with Byteflow API: "

  /** The request URL: the base URL with the endpoint path appended. */
  function Url(base: string, endpoint: string): (url: string)
    ensures StartsWith(url, base)
    ensures url[|base|..] == endpoint
  {
    StartsWithConcat(base, endpoint);
    base + endpoint
  }

  /** The credential: the environment value if the variable is set (even if empty), else the placeholder. */
  function BearerToken(env: Option<string>): (token: string)
    ensures env.Some? ==> token == env.value
    ensures env.None? ==> token == PlaceholderKey
  {
    match env
    case Some(key) => key
    case None => PlaceholderKey
  }

  /** A copy of the shared headers with both authorisation headers set to the credential. */
  function WithAuth(headers: map<string, string>, token: string): (h: map<string, string>)
    ensures h.Keys == headers.Keys + {"Authorization", "X-API-Key"}
    ensures h["Authorization"] == "Bearer " + token
    ensures h["X-API-Key"] == token
    ensures forall name :: name in headers && name != "Authorization" && name != "X-API-Key" ==> h[name] == headers[name]
  {
    headers["Authorization" := "Bearer " + token]["X-API-Key" := token]
  }

  /** The wire request the helper hands to the HTTP client library. */
  function ToWire(base: string, headers: map<string, string>, token: string, req: Request): (w: WireRequest)
    ensures w.verb == req.verb && w.body == req.body && w.timeout == RequestTimeout
    ensures w.url == Url(base, req.endpoint)
    ensures w.headers == WithAuth(headers, token)
  {
    WireRequest(req.verb, Url(base, req.endpoint), WithAuth(headers, token), req.body, RequestTimeout)
  }

  /** `raise_for_status` raises for client and server error statuses only. */
  predicate IsErrorStatus(status: nat) {
    400 <= status < 600
  }

  /**
   * The helper's outcome for one library reply: the decoded body for a
   * non-error response, otherwise a `ByteflowAPIError` whose status code and
   * response text are present exactly for HTTP error responses.
   */
  function Classify(reply: WireReply): (o: Outcome)
    ensures o.Ok? <==> reply.Response? && !IsErrorStatus(reply.status)
    ensures o.Ok? ==> o.value == reply.json
    ensures o.Err? ==> (o.error.statusCode.Some? <==> reply.Response?)
    ensures o.Err? ==> (o.error.responseText.Some? <==> reply.Response?)
    ensures o.Err? && reply.Response? ==>
      o.error.statusCode == Some(reply.status as int) && o.error.responseText == Some(reply.text)
    ensures o.Err? && reply.Response? ==> Contains(o.error.message, reply.text)
    ensures o.Err? && !reply.Response? ==> Contains(o.error.message, reply.detail)
  {
    match reply
    case Response(status, text, json) =>
      if IsErrorStatus(status) then
        var prefix := HttpErrorPrefix + NatStr(status) + " - ";
        ContainsEnd(prefix, text);
        Err(ApiError(prefix + text, Some(status), Some(text)))
      else Ok(json)
    case ConnectionFailed(detail) =>
      ContainsEnd(ConnectionErrorPrefix, detail);
      Err(ApiError(ConnectionErrorPrefix + detail, None, None))
    case TimedOut(detail) =>
      ContainsEnd(TimeoutErrorPrefix, detail);
      Err(ApiError(TimeoutErrorPrefix + detail, None, None))
    case RequestFailed(detail) =>
      ContainsEnd(RequestErrorPrefix, detail);
      Err(ApiError(RequestErrorPrefix + detail, None, None))
  }

  /** A timeout is reported with a message no other kind of failure produces. */
  lemma TimeoutIsDistinguishable(reply: WireReply)
    requires Classify(reply).Err?
    ensures StartsWith(Classify(reply).error.message, TimeoutErrorPrefix) <==> reply.TimedOut?
  {
    assert TimeoutErrorPrefix[13] == 'T';
    match reply
    case Response(status, text, _) =>
      var prefix := HttpErrorPrefix + NatStr(status) + " - ";
      assert (prefix + text)[13] == HttpErrorPrefix[13] == 'H';
      NotStartsWith(prefix + text, TimeoutErrorPrefix, 13);
    case ConnectionFailed(detail) =>
      assert (ConnectionErrorPrefix + detail)[13] == 'C';
      NotStartsWith(ConnectionErrorPrefix + detail, TimeoutErrorPrefix, 13);
    case TimedOut(detail) =>
      StartsWithConcat(TimeoutErrorPrefix, detail);
    case RequestFailed(detail) =>
      assert RequestErrorPrefix[13] == ' ';
      assert (RequestErrorPrefix + detail)[13] == ' ';
      NotStartsWith(RequestErrorPrefix + detail, TimeoutErrorPrefix, 13);
  }

  /**
   * The adapter's view of the remote API: the base URL read at start-up, the
   * shared header dictionary, the current value of the credential variable,
   * the scripted remote service, and a log of the requests made so far.
   */
  class Client {
    const baseUrl: string
    var headers: map<string, string>
    var apiKeyEnv: Option<string>
    const server: Server
    var sent: nat
    ghost var log: seq<Request>

    ghost predicate Valid()
      reads this
    {
      sent == |log|
    }

    constructor (baseUrl: string, apiKeyEnv: Option<string>, server: Server)
      ensures Valid()
      ensures this.baseUrl == baseUrl && this.apiKeyEnv == apiKeyEnv && this.server == server
      ensures headers == SharedHeaders && log == []
    {
      this.baseUrl := baseUrl;
      this.headers := SharedHeaders;
      this.apiKeyEnv := apiKeyEnv;
      this.server := server;
      this.sent := 0;
      this.log := [];
    }

    /** How the request helper answers, given the current headers and credential. */
    function Answer(): Answerer
      reads this`headers, this`apiKeyEnv
    {
      var base, shared, token, remote := baseUrl, headers, BearerToken(apiKeyEnv), server;
      (n: nat, req: Request) => Classify(remote(n, ToWire(base, shared, token, req)))
    }

    /**
     * `_make_request`: copies the shared headers, adds both authorisation
     * headers to the copy, sends one request and classifies the reply. The
     * shared headers are left as they were.
     */
    method MakeRequest(req: Request) returns (o: Outcome)
      requires Valid()
      modifies this`sent, this`log
      ensures Valid()
      ensures log == old(log) + [req]
      ensures headers == old(headers)
      ensures o == Answer()(old(sent), req)
    {
      var url := baseUrl + req.endpoint;
      var current := headers;
      var token := BearerToken(apiKeyEnv);
      current := current["Authorization" := "Bearer " + token];
      current := current["X-API-Key" := token];
      var reply := server(sent, WireRequest(req.verb, url, current, req.body, RequestTimeout));
      o := Classify(reply);
      assert url == Url(baseUrl, req.endpoint);
      assert current == WithAuth(headers, token);
      assert WireRequest(req.verb, url, current, req.body, RequestTimeout) == ToWire(baseUrl, headers, token, req);
      assert o == Answer()(sent, req);
      sent := sent + 1;
      log := log + [req];
    }
  }
}
