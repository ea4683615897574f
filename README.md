# Byteflow call manager: a verified model of its tool core

The Byteflow call manager exposes a remote telephony-bot REST API as MCP
tools: health and configuration checks, call status, transcripts, active
calls, DID (caller number) listing, starting a call and forcing a call to
disconnect. Each tool makes its requests through one internal helper,
`_make_request`, and turns every `ByteflowAPIError` into a descriptive
string instead of raising.

This project models that core in Dafny:

- `py_values.dfy` (module `PyValues`): decoded JSON values, with objects
  kept in insertion order as Python dicts are. Also Python truthiness, the
  `or` operator on optional strings and `str()` of a value.
- `gateway.dfy` (module `Gateway`): the `ByteflowAPIError` record and
  `_make_request`. It builds the URL by concatenation and copies the shared
  headers before adding the `Authorization: Bearer <key>` and `X-API-Key`
  headers to the copy. It sends the request with a 15-second timeout and
  sorts each failure into an `ApiError`. Only an HTTP error carries a status
  code and response text. The remote service and the HTTP library are one
  scripted function, `server`, that answers the n-th wire request. The class
  `Client` keeps a counter and a ghost log of the requests made, so request
  counts and order can be stated.
- `tools.dfy` (module `Tools`): the tools that make one request. A success
  comes back unchanged. For the three call-id tools a 404 gives a "not
  found" text that names the call id. Every other failure gives a text
  containing the error's message.
- `did_chain.dfy` (module `DidChain`): `list_available_dids`, written as a
  loop over the three sources in a fixed order. The first success wins. The
  loop makes at most three requests, and when all three fail the text
  carries the third failure's message.
- `start_call.dfy` (module `StartCall`): `start_new_call`. This covers alias
  resolution and defaults with `or`, and the validation failure that sends
  nothing. It also covers the single best-effort DID lookup, the rejection
  when no DID is left, and payload assembly with `script_id` and `metadata`
  only when they are not `None`. The payload goes out as the only
  `POST /api/call`, and its failure text is modelled too.

Each tool is a module-level method that takes the `Client` as its `api`
parameter. Each method is proved against a pure
function that gives its result and the exact list of requests it makes,
given how the helper answers (`Client.Answer()`). The lemmas state the
tools' promises about those functions.

Behaviour worth noting, as the code has it:

- Defaults. `ai_client`, `system_prompt` and `greeting_text` are resolved
  with Python's `or`, so an empty string is replaced by the default as well
  as a missing value. The same holds for `destination` and `did_number`: an
  empty direct field falls through to the legacy alias. See
  `EmptyStringsFallThrough`.
- Auto-selection uses the lookup response only when it is a dict whose
  `"dids"` value is a list. A lookup that answers with a top-level list is
  ignored, and no call is placed (`TopLevelListIgnored`). With
  `{"dids": [...]}` the first entry is used (`AutoSelectedExample`).
- The failure text of a placed call names the `to_number` input, not the
  resolved destination. When only `destination` was given it reads
  `'None'`.

## Model

| member | source | states |
|---|---|---|
| PyValues.Or | byteflowcall.py:288-289 | `a or b` on optional strings: the result is truthy iff either operand is; a truthy left operand wins; a falsy one (`None` or `""`) yields the right operand |
| PyValues.OrDefault | byteflowcall.py:290-292 | `a or default`: a truthy value is kept; `None` and the empty string both yield the default; with a non-empty default the result is never empty |
| PyValues.PyStr | byteflowcall.py:307 | `str(x)` is the string itself for a string, "None" for null, "True"/"False" for a boolean, the decimal text for an integer, and a non-empty text for a list or dict |
| Gateway.Url | byteflowcall.py:57 | the URL starts with the base URL and the rest is exactly the endpoint path |
| Gateway.BearerToken | byteflowcall.py:61 | the credential is the variable's value whenever it is set, even if empty; otherwise the placeholder key |
| Gateway.WithAuth | byteflowcall.py:60-64 | the sent headers are the shared ones plus exactly `Authorization` = "Bearer " + key and `X-API-Key` = key; all other shared headers keep their values |
| Gateway.ToWire | byteflowcall.py:57-66 | the wire request keeps method and body, uses the concatenated URL and the authorised header copy, with a 15-second timeout |
| Gateway.Classify | byteflowcall.py:66-81 | success iff a response with a status outside 400-599, and then the decoded body unchanged; an error has a status code and response text iff it is an HTTP error, and they are that response's; its message contains the response text or the library's exception text |
| Gateway.TimeoutIsDistinguishable | byteflowcall.py:69-81 | a failure's message starts with the timeout prefix iff the failure was a timeout |
| Gateway.Client.constructor | byteflowcall.py:21-25 | a fresh client has the configured base URL and credential variable, the shared `Content-Type` headers and an empty request log |
| Gateway.Client.MakeRequest | byteflowcall.py:41-84 | appends exactly the one request to the log, leaves the shared headers unchanged, and returns the classified reply of the server to the authorised wire request at the current position |
| Tools.Relay | byteflowcall.py:131-136 | a tool returns structured data iff the helper succeeded, and then the helper's result unchanged; otherwise the text describing the error |
| Tools.Failure | byteflowcall.py:134-136 | a plain tool's failure text starts with the tool's action and contains the error's message and everything the action names |
| Tools.CallStatusFailure | byteflowcall.py:177-181 | the text always names the call id; a 404 gives a text containing "not found"; any other failure's text contains the error message; the two kinds are told apart by their first words |
| Tools.TranscriptFailure | byteflowcall.py:203-207 | as for call status, with the transcript tool's own "not found" wording |
| Tools.DisconnectFailure | byteflowcall.py:355-359 | as for call status, with the disconnect tool's "not found or already disconnected" wording |
| Tools.GetHealthStatus | byteflowcall.py:131-136 | exactly one `GET /api/health`; success passed through, failure described with its message |
| Tools.GetConfiguration | byteflowcall.py:151-156 | exactly one `GET /api/config`; success passed through, failure described with its message |
| Tools.GetActiveCalls | byteflowcall.py:223-228 | exactly one `GET /api/calls/active`; success passed through, failure described with its message |
| Tools.GetCallStatus | byteflowcall.py:174-181 | exactly one `GET /api/call/<id>`; success passed through, failure described by the call-status text |
| Tools.GetCallTranscript | byteflowcall.py:200-207 | exactly one `GET /api/call/<id>/transcript`; success passed through, failure described by the transcript text |
| Tools.ForceDisconnectCall | byteflowcall.py:352-359 | exactly one `POST /api/call/<id>/force-disconnect`; success passed through, failure described by the disconnect text |
| DidChain.FirstSuccess | byteflowcall.py:243-261 | trying sources in order makes between one and all of the attempts |
| DidChain.FirstSuccessWins | byteflowcall.py:243-261 | the outcome is that of the last source tried, every earlier source failed, and the chain stops early only on a success |
| DidChain.TriesOfFirstSuccess | byteflowcall.py:243-261 | the number of attempts is one past the first successful source, or all of them when only the last is left |
| DidChain.ListDidsRequests | byteflowcall.py:243-261 | the DID listing makes one to three requests, always a prefix of validate-and-fetch, my-dids, dids, and starts with validate-and-fetch |
| DidChain.ListDidsFirstSuccess | byteflowcall.py:243-258 | when source k is the first to succeed, its result is returned unchanged after exactly k+1 requests |
| DidChain.ListDidsAllFail | byteflowcall.py:259-261 | when all three fail, all three were asked and the text is built from the third failure's message |
| DidChain.SecondSourceAnswers | byteflowcall.py:247-252 | a failing primary lookup and a working second source give exactly two requests and the second source's result |
| DidChain.ListAvailableDids | byteflowcall.py:243-261 | the loop returns what the chain specifies and logs exactly the requests the chain makes |
| StartCall.Destination | byteflowcall.py:288 | the destination is the direct field when truthy, else the `to_number` alias; it is truthy iff either one is |
| StartCall.GivenDid | byteflowcall.py:289 | the DID is the direct field when truthy, else the `from_number` alias; it is truthy iff either one is |
| StartCall.AiClient | byteflowcall.py:290 | the AI client is never empty: a truthy given value is kept, a missing or empty one becomes "client1" |
| StartCall.SystemPrompt | byteflowcall.py:291 | the system prompt is never empty; a non-empty prompt is kept and an empty one becomes the fixed default prompt |
| StartCall.Greeting | byteflowcall.py:292 | the greeting is never empty; a non-empty greeting is kept and an empty one becomes the fixed default greeting |
| StartCall.DidEntries | byteflowcall.py:301-303 | only a dict response can supply DID entries, and then exactly its `"dids"` value when that is a list; a top-level list, a dict without `"dids"` or a `"dids"` that is no list supplies none |
| StartCall.DidOfEntry | byteflowcall.py:305-307 | a string entry is the DID itself; a dict entry gives its `did_number` or null; any other entry gives `str(entry)`, a truthy string |
| StartCall.StartCallFailure | byteflowcall.py:330-334 | a 400 or 422 gives a text containing the response text; any other error gives a text containing its message and the `to_number` input |
| StartCall.StartCallRequests | byteflowcall.py:294-328 | no request iff the destination is falsy; the DID lookup is made iff a destination exists and no truthy DID was given, and then first; `POST /api/call` is made iff a truthy DID exists, and then last, once, after just the lookups; with a destination but no truthy DID the requests are just the lookups; at most two requests |
| StartCall.MissingDestinationSendsNothing | byteflowcall.py:294-295 | with no truthy destination the result is the "destination/to_number is required" text and no request is made |
| StartCall.MissingDidPlacesNoCall | byteflowcall.py:297-312 | with a destination but no truthy DID after the lookup, the single DID lookup is the only request and the result is the "did_number/from_number is required" text; no other DID source is tried and no call is placed |
| StartCall.Payload | byteflowcall.py:314-326 | the payload has five fixed entries plus one entry for each extra that is not `None`, and every entry past the fixed five is `script_id` or `metadata` |
| StartCall.PayloadKeys | byteflowcall.py:314-326 | the payload keys are exactly the five fixed ones in order, then `script_id` and `metadata` each iff it is not `None` |
| StartCall.FixedEntries | byteflowcall.py:314-320 | the five fixed entries are found under their own keys, and neither extra is there |
| StartCall.PayloadValues | byteflowcall.py:314-326 | each payload key holds its resolved value; an extra that is `None` is absent, and an empty one is kept |
| StartCall.PlacedCallOutcome | byteflowcall.py:328-334 | when the call is placed, a success is returned unchanged and a failure becomes the start-call failure text |
| StartCall.AutoSelect | byteflowcall.py:297-309 | the DID is left as given unless the lookup succeeded with a dict whose `"dids"` value is a non-empty list (a failed lookup, a non-dict, a missing, non-list or empty `"dids"` all leave it); in that case it is the DID of the first entry |
| StartCall.AutoSelectedExample | byteflowcall.py:297-328 | with only `to_number`, "p" and "g" and a lookup answering `{"dids": ["+15550001111"]}`, the lookup is followed by a call whose body holds that destination and DID and `ai_client` "client1" |
| StartCall.TopLevelListIgnored | byteflowcall.py:302-312 | a lookup answering with a top-level list leaves no DID: the DID text after the one lookup |
| StartCall.EmptyStringsFallThrough | byteflowcall.py:288-292 | field by field: an empty direct field falls through to its alias, and an empty client, prompt or greeting takes its default |
| StartCall.StartNewCall | byteflowcall.py:286-334 | the method returns what the call-start function specifies and logs exactly its requests |

## Left out

- The HTTP exchange itself (byteflowcall.py:66-68) is the scripted `server` function. This covers `requests.request`, waiting for the 15-second timeout, `raise_for_status` and decoding the body. A body that is not valid JSON is not modelled, because the server hands back a decoded value.
- The `params` argument of `_make_request` is not modelled, because no tool passes query parameters.
- A connect timeout is reported as a connection error, as the library's exception hierarchy orders it. `TimedOut` stands for the other timeouts.
- The catch-all `except Exception` branches (byteflowcall.py:82-84 and the last branch of each tool) are not modelled. Once the HTTP exchange is abstracted, nothing in the modelled code raises anything but `ByteflowAPIError`. Library exception texts are opaque `detail` strings.
- Logging, `load_dotenv`, and the start-up code that fills in the credential variable (byteflowcall.py:9-29) are not modelled. The base URL and the current value of the credential variable are given to the `Client` instead.
- Pydantic input validation (byteflowcall.py:87-113) is not modelled. Inputs arrive as already-shaped records, so a missing `call_id` or `system_prompt` rejected by the framework does not occur.
- FastMCP construction, tool registration and `mcp.run` (byteflowcall.py:117, 365-370) are not modelled. That includes the `MCP_SERVER_PORT` value, which is read while the listen port stays fixed at 8002.
- PyValues.PyStr: JSON numbers are integers, so floats are not rendered, and Python's quote escaping inside the `repr` of a list or dict is not modelled; for those two kinds the contract promises only a non-empty text.
- `Tools.Relay`, `DidChain.ListDids` and `StartCall.StartCallRun` are the shared specification functions the methods are proved against. They carry no contract of their own beyond `Relay`'s.
