/**
 * The tool surface: every tool makes its request through the request helper
 * and never raises across the tool boundary. A success is handed back
 * unchanged; a `ByteflowAPIError` becomes a descriptive string, with a
 * distinguished "not found" text for a 404 on the call-id tools.
 */
module Tools {
  import opened PyValues
  import opened Gateway

  /** What a tool returns: the remote's structured result, or a descriptive string. */
  datatype ToolResult = Data(value: Json) | Text(message: string)

  /** The tools' shape: a success is passed through unchanged, a failure is described. */
  function Relay(o: Outcome, describe: ApiError -> string): (r: ToolResult)
    ensures r.Data? <==> o.Ok?
    ensures o.Ok? ==> r.value == o.value
    ensures o.Err? ==> r.message == describe(o.error)
  {
    match o
    case Ok(value) => Data(value)
    case Err(e) => Text(describe(e))
  }

  const HealthAction := "Failed to get health status"
  const ConfigurationAction := "Failed to get configuration"
  const ActiveCallsAction := "Failed to get active calls"
  const DidListAction := "Failed to list available DIDs"

  const HealthRequest := Request("GET", "/api/health", None)
  const ConfigurationRequest := Request("GET", "/api/config", None)
  const ActiveCallsRequest := Request("GET", "/api/calls/active", None)

  const NotFound := "not found"

  /** "<action>: <e.message>", the failure text of the tools without special cases. */
  function Failure(action: string, e: ApiError): (m: string)
    ensures StartsWith(m, action)
    ensures Contains(m, e.message)
    ensures forall t :: Contains(action, t) ==> Contains(m, t)
  {
    StartsWithConcat(action, ": ");
    StartsWithExtend(action + ": ", action, e.message);
    ContainsEnd(action + ": ", e.message);
    forall t | Contains(action, t)
      ensures Contains(action + ": " + e.message, t)
    {
      ContainsExtend(action, t, ": ");
      ContainsExtend(action + ": ", t, e.message);
    }
    action + ": " + e.message
  }

  /** The text "<before><id><after>" contains the id and starts with `before`. */
  lemma Quoted(before: string, id: string, after: string)
    ensures Contains(before + id + after, id)
    ensures StartsWith(before + id + after, before)
  {
    ContainsMiddle(before, id, after);
    StartsWithConcat(before, id);
    StartsWithExtend(before + id, before, after);
  }

  /** The text "<lead><id><mid>not found<tail>" holds both the id and "not found". */
  lemma NotFoundText(lead: string, id: string, mid: string, tail: string)
    ensures var m := lead + id + mid + NotFound + tail;
      Contains(m, id) && Contains(m, NotFound) && StartsWith(m, lead)
  {
    Quoted(lead, id, mid);
    ContainsExtend(lead + id + mid, id, NotFound);
    ContainsExtend(lead + id + mid + NotFound, id, tail);
    StartsWithExtend(lead + id + mid, lead, NotFound);
    StartsWithExtend(lead + id + mid + NotFound, lead, tail);
    ContainsMiddle(lead + id + mid, NotFound, tail);
  }

  /**
   * `get_call_status`'s failure text: a 404 gives the "not found" text, any
   * other failure the helper's message; both name the call id, and the two
   * kinds are told apart by how they begin.
   */
  function CallStatusFailure(callId: string, e: ApiError): (m: string)
    ensures Contains(m, callId)
    ensures e.statusCode == Some(404) ==> Contains(m, NotFound)
    ensures e.statusCode != Some(404) ==> Contains(m, e.message)
    ensures StartsWith(m, "Call with ID '") <==> e.statusCode == Some(404)
  {
    if e.statusCode == Some(404) then
      NotFoundText("Call with ID '", callId, "' ", ". Please check the call ID.");
      "Call with ID '" + callId + "' " + NotFound + ". Please check the call ID."
    else
      var action := "Failed to get call status for '" + callId + "'";
      Quoted("Failed to get call status for '", callId, "'");
      var m := Failure(action, e);
      assert m[0] == 'F';
      NotStartsWith(m, "Call with ID '", 0);
      m
  }

  /** `get_call_transcript`'s failure text, with its own "not found" wording for a 404. */
  function TranscriptFailure(callId: string, e: ApiError): (m: string)
    ensures Contains(m, callId)
    ensures e.statusCode == Some(404) ==> Contains(m, NotFound)
    ensures e.statusCode != Some(404) ==> Contains(m, e.message)
    ensures StartsWith(m, "Transcript for call ID '") <==> e.statusCode == Some(404)
  {
    if e.statusCode == Some(404) then
      NotFoundText("Transcript for call ID '", callId, "' ", " or call does not exist. It might not be available yet.");
      "Transcript for call ID '" + callId + "' " + NotFound + " or call does not exist. It might not be available yet."
    else
      var action := "Failed to get call transcript for '" + callId + "'";
      Quoted("Failed to get call transcript for '", callId, "'");
      var m := Failure(action, e);
      assert m[0] == 'F';
      NotStartsWith(m, "Transcript for call ID '", 0);
      m
  }

  /** `force_disconnect_call`'s failure text, with its own "not found" wording for a 404. */
  function DisconnectFailure(callId: string, e: ApiError): (m: string)
    ensures Contains(m, callId)
    ensures e.statusCode == Some(404) ==> Contains(m, NotFound)
    ensures e.statusCode != Some(404) ==> Contains(m, e.message)
    ensures StartsWith(m, "Call with ID '") <==> e.statusCode == Some(404)
  {
    if e.statusCode == Some(404) then
      NotFoundText("Call with ID '", callId, "' ", " or already disconnected. Cannot force disconnect.");
      "Call with ID '" + callId + "' " + NotFound + " or already disconnected. Cannot force disconnect."
    else
      var action := "Failed to force disconnect call '" + callId + "'";
      Quoted("Failed to force disconnect call '", callId, "'");
      var m := Failure(action, e);
      assert m[0] == 'F';
      NotStartsWith(m, "Call with ID '", 0);
      m
  }

  function CallStatusRequest(callId: string): Request {
    Request("GET", "/api/call/" + callId, None)
  }

  function TranscriptRequest(callId: string): Request {
    Request("GET", "/api/call/" + callId + "/transcript", None)
  }

  function DisconnectRequest(callId: string): Request {
    Request("POST", "/api/call/" + callId + "/force-disconnect", None)
  }

  /** `get_health_status`: one `GET /api/health`. */
  method GetHealthStatus(api: Client) returns (r: ToolResult)
    requires api.Valid()
    modifies api`sent, api`log
    ensures api.Valid()
    ensures api.log == old(api.log) + [HealthRequest]
    ensures r == Relay(api.Answer()(old(api.sent), HealthRequest), e => Failure(HealthAction, e))
  {
    var response := api.MakeRequest(HealthRequest);
    match response
    case Ok(value) => r := Data(value);
    case Err(e) => r := Text(Failure(HealthAction, e));
  }

  /** `get_configuration`: one `GET /api/config`. */
  method GetConfiguration(api: Client) returns (r: ToolResult)
    requires api.Valid()
    modifies api`sent, api`log
    ensures api.Valid()
    ensures api.log == old(api.log) + [ConfigurationRequest]
    ensures r == Relay(api.Answer()(old(api.sent), ConfigurationRequest), e => Failure(ConfigurationAction, e))
  {
    var response := api.MakeRequest(ConfigurationRequest);
    match response
    case Ok(value) => r := Data(value);
    case Err(e) => r := Text(Failure(ConfigurationAction, e));
  }

  /** `get_active_calls`: one `GET /api/calls/active`. */
  method GetActiveCalls(api: Client) returns (r: ToolResult)
    requires api.Valid()
    modifies api`sent, api`log
    ensures api.Valid()
    ensures api.log == old(api.log) + [ActiveCallsRequest]
    ensures r == Relay(api.Answer()(old(api.sent), ActiveCallsRequest), e => Failure(ActiveCallsAction, e))
  {
    var response := api.MakeRequest(ActiveCallsRequest);
    match response
    case Ok(value) => r := Data(value);
    case Err(e) => r := Text(Failure(ActiveCallsAction, e));
  }

  /** `get_call_status`: one `GET /api/call/<id>`. */
  method GetCallStatus(api: Client, callId: string) returns (r: ToolResult)
    requires api.Valid()
    modifies api`sent, api`log
    ensures api.Valid()
    ensures api.log == old(api.log) + [CallStatusRequest(callId)]
    ensures r == Relay(api.Answer()(old(api.sent), CallStatusRequest(callId)), e => CallStatusFailure(callId, e))
  {
    var response := api.MakeRequest(CallStatusRequest(callId));
    match response
    case Ok(value) => r := Data(value);
    case Err(e) => r := Text(CallStatusFailure(callId, e));
  }

  /** `get_call_transcript`: one `GET /api/call/<id>/transcript`. */
  method GetCallTranscript(api: Client, callId: string) returns (r: ToolResult)
    requires api.Valid()
    modifies api`sent, api`log
    ensures api.Valid()
    ensures api.log == old(api.log) + [TranscriptRequest(callId)]
    ensures r == Relay(api.Answer()(old(api.sent), TranscriptRequest(callId)), e => TranscriptFailure(callId, e))
  {
    var response := api.MakeRequest(TranscriptRequest(callId));
    match response
    case Ok(value) => r := Data(value);
    case Err(e) => r := Text(TranscriptFailure(callId, e));
  }

  /** `force_disconnect_call`: one `POST /api/call/<id>/force-disconnect`. */
  method ForceDisconnectCall(api: Client, callId: string) returns (r: ToolResult)
    requires api.Valid()
    modifies api`sent, api`log
    ensures api.Valid()
    ensures api.log == old(api.log) + [DisconnectRequest(callId)]
    ensures r == Relay(api.Answer()(old(api.sent), DisconnectRequest(callId)), e => DisconnectFailure(callId, e))
  {
    var response := api.MakeRequest(DisconnectRequest(callId));
    match response
    case Ok(value) => r := Data(value);
    case Err(e) => r := Text(DisconnectFailure(callId, e));
  }
}
