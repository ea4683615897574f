/**
 * `start_new_call`: resolves the legacy and current field names with
 * Python's `or`, rejects a missing destination before any request, tries one
 * best-effort DID lookup when no DID is given, rejects a still-missing DID,
 * and sends the assembled payload as the only `POST /api/call`.
 */
module StartCall {
  import opened PyValues
  import opened Gateway
  import opened Tools
  import opened DidChain

  /**
   * The tool's input after field validation: the legacy aliases `to_number`
   * and `from_number`, the current optional fields, and the two required texts.
   */
  datatype StartCallInput = StartCallInput(
    toNumber: Option<string>,
    fromNumber: Option<string>,
    destination: Option<string>,
    didNumber: Option<string>,
    aiClient: Option<string>,
    scriptId: Option<string>,
    metadata: Option<seq<(string, Json)>>,
    systemPrompt: string,
    greetingText: string)

  const DefaultAiClient := "client1"
  const DefaultSystemPrompt := "You are an AI assistant helping with a phone call."
  const DefaultGreeting := "Hello! This is an automated call."

  const MissingDestination := "Failed to start call due to invalid input: destination/to_number is required."
  const MissingDid := "Failed to start call: did_number/from_number is required (no default DID available)."

  const CallEndpoint := "/api/call"

  /** `input.destination or input.to_number`. */
  function Destination(input: StartCallInput): (d: Option<string>)
    ensures Present(d) <==> Present(input.destination) || Present(input.toNumber)
    ensures Present(input.destination) ==> d == input.destination
    ensures !Present(input.destination) ==> d == input.toNumber
  {
    Or(input.destination, input.toNumber)
  }

  /** `input.did_number or input.from_number`. */
  function GivenDid(input: StartCallInput): (d: Option<string>)
    ensures Present(d) <==> Present(input.didNumber) || Present(input.fromNumber)
    ensures Present(input.didNumber) ==> d == input.didNumber
    ensures !Present(input.didNumber) ==> d == input.fromNumber
  {
    Or(input.didNumber, input.fromNumber)
  }

  /** `input.ai_client or "client1"`: never empty; an empty string takes the default. */
  function AiClient(input: StartCallInput): (c: string)
    ensures c != ""
    ensures Present(input.aiClient) ==> c == input.aiClient.value
    ensures !Present(input.aiClient) ==> c == DefaultAiClient
  {
    OrDefault(input.aiClient, DefaultAiClient)
  }

  /** `input.system_prompt or <default>`: never empty; an empty prompt takes the default. */
  function SystemPrompt(input: StartCallInput): (p: string)
    ensures p != ""
    ensures input.systemPrompt != "" ==> p == input.systemPrompt
    ensures input.systemPrompt == "" ==> p == DefaultSystemPrompt
  {
    OrDefault(Some(input.systemPrompt), DefaultSystemPrompt)
  }

  /** `input.greeting_text or <default>`: never empty; an empty greeting takes the default. */
  function Greeting(input: StartCallInput): (g: string)
    ensures g != ""
    ensures input.greetingText != "" ==> g == input.greetingText
    ensures input.greetingText == "" ==> g == DefaultGreeting
  {
    OrDefault(Some(input.greetingText), DefaultGreeting)
  }

  /**
   * The `"dids"` list of a dict response; empty for anything else: a
   * top-level list, a dict without `"dids"`, or a `"dids"` that is no list.
   */
  function DidEntries(response: Json): (entries: seq<Json>)
    ensures !response.JObj? ==> entries == []
    ensures entries != [] ==> response.JObj? && Get(response.fields, "dids") == Some(JList(entries))
    ensures response.JObj? && Get(response.fields, "dids").Some? && Get(response.fields, "dids").value.JList? ==>
      entries == Get(response.fields, "dids").value.items
  {
    match response
    case JObj(fields) =>
      (match Get(fields, "dids")
       case Some(JList(items)) => items
       case _ => [])
    case _ => []
  }

  /** The DID taken from the first entry: a dict's `"did_number"` (null if absent), else `str(entry)`. */
  function DidOfEntry(entry: Json): (did: Json)
    ensures entry.JStr? ==> did == entry
    ensures !entry.JObj? && !entry.JStr? ==> did.JStr? && Truthy(did)
    ensures !entry.JObj? ==> did == JStr(PyStr(entry))
    ensures entry.JObj? ==> did == (match Get(entry.fields, "did_number") case Some(v) => v case None => JNull)
  {
    match entry
    case JObj(fields) =>
      (match Get(fields, "did_number")
       case Some(v) => v
       case None => JNull)
    case _ => JStr(PyStr(entry))
  }

  /**
   * The DID after the best-effort auto-selection: the first entry of the
   * lookup's `"dids"` list when there is one, otherwise the falsy value the
   * caller gave; a failed lookup is swallowed.
   */
  function AutoSelect(lookup: Outcome, given: Json): (did: Json)
    ensures !(lookup.Ok? && lookup.value.JObj? && Get(lookup.value.fields, "dids").Some?
              && Get(lookup.value.fields, "dids").value.JList?
              && Get(lookup.value.fields, "dids").value.items != []) ==>
            did == given
    ensures lookup.Ok? && lookup.value.JObj? && Get(lookup.value.fields, "dids").Some?
              && Get(lookup.value.fields, "dids").value.JList?
              && Get(lookup.value.fields, "dids").value.items != [] ==>
            did == DidOfEntry(Get(lookup.value.fields, "dids").value.items[0])
  {
    if lookup.Ok? && DidEntries(lookup.value) != [] then DidOfEntry(DidEntries(lookup.value)[0])
    else given
  }

  /** The DID the call is placed from: the given one if truthy, else the auto-selected one. */
  function ChosenDid(input: StartCallInput, answer: Answerer, n: nat): Json {
    var given := GivenDid(input);
    if Present(given) then OptionalText(given) else AutoSelect(answer(n, DidLookup), OptionalText(given))
  }

  /** The DID lookups the call start makes once a destination is known: one, or none. */
  function Lookups(input: StartCallInput): seq<Request> {
    if Present(GivenDid(input)) then [] else [DidLookup]
  }

  /** The call payload, keys in insertion order; the two extras only when they are not `None`. */
  function Payload(input: StartCallInput, destination: string, did: Json): (p: seq<(string, Json)>)
    ensures |p| == 5 + (if input.scriptId.Some? then 1 else 0) + (if input.metadata.Some? then 1 else 0)
    ensures forall i :: 5 <= i < |p| ==> p[i].0 == "script_id" || p[i].0 == "metadata"
  {
    [ ("destination", JStr(destination)),
      ("did_number", did),
      ("ai_client", JStr(AiClient(input))),
      ("system_prompt", JStr(SystemPrompt(input))),
      ("greeting_text", JStr(Greeting(input))) ]
    + (if input.scriptId.Some? then [("script_id", JStr(input.scriptId.value))] else [])
    + (if input.metadata.Some? then [("metadata", JObj(input.metadata.value))] else [])
  }

  function CallRequest(input: StartCallInput, destination: string, did: Json): Request {
    Request("POST", CallEndpoint, Some(JObj(Payload(input, destination, did))))
  }

  /**
   * The text for a failed `POST /api/call`: a 400 or 422 quotes the response
   * body, any other failure names `to_number` (not the resolved destination)
   * and quotes the helper's message.
   */
  function StartCallFailure(toNumber: Option<string>, e: ApiError): (m: string)
    ensures e.statusCode == Some(400) || e.statusCode == Some(422) ==> Contains(m, Render(e.responseText))
    ensures !(e.statusCode == Some(400) || e.statusCode == Some(422)) ==>
      Contains(m, e.message) && Contains(m, Render(toNumber))
  {
    if e.statusCode == Some(400) || e.statusCode == Some(422) then
      ContainsMiddle("Failed to start call due to invalid input: ", Render(e.responseText),
        ". Please check the provided numbers and parameters.");
      "Failed to start call due to invalid input: " + Render(e.responseText)
        + ". Please check the provided numbers and parameters."
    else
      ContainsMiddle("Failed to start call to '", Render(toNumber), "': ");
      ContainsExtend("Failed to start call to '" + Render(toNumber) + "': ", Render(toNumber), e.message);
      ContainsEnd("Failed to start call to '" + Render(toNumber) + "': ", e.message);
      "Failed to start call to '" + Render(toNumber) + "': " + e.message
  }

  /** What `start_new_call` returns and which requests it makes, in order. */
  function StartCallRun(input: StartCallInput, answer: Answerer, n: nat): Run {
    var destination := Destination(input);
    if !Present(destination) then Run(Text(MissingDestination), [])
    else
      var lookups := Lookups(input);
      var did := ChosenDid(input, answer, n);
      if !Truthy(did) then Run(Text(MissingDid), lookups)
      else
        var call := CallRequest(input, destination.value, did);
        Run(Relay(answer(n + |lookups|, call), e => StartCallFailure(input.toNumber, e)), lookups + [call])
  }

  /** Some request of the run goes to `POST /api/call`. */
  predicate PlacesCall(requests: seq<Request>) {
    exists i :: 0 <= i < |requests| && requests[i].endpoint == CallEndpoint
  }

  /**
   * The requests of a call start: none at all when the destination is
   * missing; the DID lookup only when no truthy DID was given, and then
   * first and once; `POST /api/call` only when a truthy DID exists, and then
   * last and once with the assembled payload.
   */
  lemma StartCallRequests(input: StartCallInput, answer: Answerer, n: nat)
    ensures var run := StartCallRun(input, answer, n);
      var destination := Destination(input);
      var did := ChosenDid(input, answer, n);
      && (run.requests == [] <==> !Present(destination))
      && (DidLookup in run.requests <==> Present(destination) && !Present(GivenDid(input)))
      && (DidLookup in run.requests ==> run.requests[0] == DidLookup)
      && (PlacesCall(run.requests) <==> Present(destination) && Truthy(did))
      && (PlacesCall(run.requests) ==>
            run.requests[|run.requests| - 1] == CallRequest(input, destination.value, did)
            && run.requests[..|run.requests| - 1] == Lookups(input))
      && (Present(destination) && !Truthy(did) ==> run.requests == Lookups(input))
      && |run.requests| <= 2
  {
    var run := StartCallRun(input, answer, n);
    var destination := Destination(input);
    var did := ChosenDid(input, answer, n);
    assert DidLookup.endpoint != CallEndpoint;
    if Present(destination) && Truthy(did) {
      var call := CallRequest(input, destination.value, did);
      assert run.requests == Lookups(input) + [call];
      assert run.requests[|run.requests| - 1].endpoint == CallEndpoint;
      assert DidLookup != call;
    } else if Present(destination) {
      assert run.requests == Lookups(input);
      assert !PlacesCall(run.requests);
    }
  }

  /** Without a truthy destination the result is the validation text and nothing is sent. */
  lemma MissingDestinationSendsNothing(input: StartCallInput, answer: Answerer, n: nat)
    requires !Present(input.destination) && !Present(input.toNumber)
    ensures StartCallRun(input, answer, n) == Run(Text(MissingDestination), [])
  {
  }

  /**
   * With a destination but no truthy DID after the lookup, the one lookup is
   * the only request (no other DID source is tried) and the result is the DID text.
   */
  lemma MissingDidPlacesNoCall(input: StartCallInput, answer: Answerer, n: nat)
    requires Present(Destination(input)) && !Truthy(ChosenDid(input, answer, n))
    ensures StartCallRun(input, answer, n) == Run(Text(MissingDid), [DidLookup])
  {
    StartCallRequests(input, answer, n);
  }

  /**
   * The payload holds exactly the five fixed keys in order, then `script_id`
   * and `metadata` each if and only if it was given (an empty string or
   * empty dict included).
   */
  lemma PayloadKeys(input: StartCallInput, destination: string, did: Json)
    ensures Keys(Payload(input, destination, did))
      == ["destination", "did_number", "ai_client", "system_prompt", "greeting_text"]
         + (if input.scriptId.Some? then ["script_id"] else [])
         + (if input.metadata.Some? then ["metadata"] else [])
  {
    var ks := Keys(Payload(input, destination, did));
    var expected := ["destination", "did_number", "ai_client", "system_prompt", "greeting_text"]
         + (if input.scriptId.Some? then ["script_id"] else [])
         + (if input.metadata.Some? then ["metadata"] else []);
    assert |ks| == |expected|;
    forall i | 0 <= i < |ks| ensures ks[i] == expected[i] { }
  }

  /** The five fixed entries, looked up by key. */
  lemma FixedEntries(destination: Json, did: Json, client: Json, prompt: Json, greeting: Json)
    ensures var fixed := [("destination", destination), ("did_number", did), ("ai_client", client),
                          ("system_prompt", prompt), ("greeting_text", greeting)];
      && Get(fixed, "destination") == Some(destination)
      && Get(fixed, "did_number") == Some(did)
      && Get(fixed, "ai_client") == Some(client)
      && Get(fixed, "system_prompt") == Some(prompt)
      && Get(fixed, "greeting_text") == Some(greeting)
      && Get(fixed, "script_id") == None
      && Get(fixed, "metadata") == None
  {
    var e0, e1, e2, e3, e4 := ("destination", destination), ("did_number", did), ("ai_client", client),
                              ("system_prompt", prompt), ("greeting_text", greeting);
    GetAfterAppend([], e0);
    assert [e0] == [] + [e0];
    GetAfterAppend([e0], e1);
    assert [e0, e1] == [e0] + [e1];
    GetAfterAppend([e0, e1], e2);
    assert [e0, e1, e2] == [e0, e1] + [e2];
    GetAfterAppend([e0, e1, e2], e3);
    assert [e0, e1, e2, e3] == [e0, e1, e2] + [e3];
    GetAfterAppend([e0, e1, e2, e3], e4);
    assert [e0, e1, e2, e3, e4] == [e0, e1, e2, e3] + [e4];
  }

  /** Each payload key carries its resolved value; an extra that was `None` is absent. */
  lemma PayloadValues(input: StartCallInput, destination: string, did: Json)
    ensures var p := Payload(input, destination, did);
      && Get(p, "destination") == Some(JStr(destination))
      && Get(p, "did_number") == Some(did)
      && Get(p, "ai_client") == Some(JStr(AiClient(input)))
      && Get(p, "system_prompt") == Some(JStr(SystemPrompt(input)))
      && Get(p, "greeting_text") == Some(JStr(Greeting(input)))
      && Get(p, "script_id") == (if input.scriptId.Some? then Some(JStr(input.scriptId.value)) else None)
      && Get(p, "metadata") == (if input.metadata.Some? then Some(JObj(input.metadata.value)) else None)
  {
    var fixed := [("destination", JStr(destination)), ("did_number", did), ("ai_client", JStr(AiClient(input))),
                  ("system_prompt", JStr(SystemPrompt(input))), ("greeting_text", JStr(Greeting(input)))];
    FixedEntries(JStr(destination), did, JStr(AiClient(input)), JStr(SystemPrompt(input)), JStr(Greeting(input)));
    var withScript := fixed + (if input.scriptId.Some? then [("script_id", JStr(input.scriptId.value))] else []);
    if input.scriptId.Some? {
      GetAfterAppend(fixed, ("script_id", JStr(input.scriptId.value)));
    } else {
      assert withScript == fixed;
    }
    var p := withScript + (if input.metadata.Some? then [("metadata", JObj(input.metadata.value))] else []);
    assert p == Payload(input, destination, did);
    if input.metadata.Some? {
      GetAfterAppend(withScript, ("metadata", JObj(input.metadata.value)));
    } else {
      assert p == withScript;
    }
  }

  /**
   * The outcome of the placed call: a success is returned unchanged, a
   * failure becomes the start-call failure text.
   */
  lemma PlacedCallOutcome(input: StartCallInput, answer: Answerer, n: nat)
    requires Present(Destination(input)) && Truthy(ChosenDid(input, answer, n))
    ensures var call := CallRequest(input, Destination(input).value, ChosenDid(input, answer, n));
      var o := answer(n + |Lookups(input)|, call);
      var run := StartCallRun(input, answer, n);
      && (o.Ok? ==> run.result == Data(o.value))
      && (o.Err? ==> run.result == Text(StartCallFailure(input.toNumber, o.error)))
  {
  }

  /**
   * An example: only `to_number`, prompt "p" and greeting "g"
   * are given and the lookup answers `{"dids": ["+15550001111"]}`; the call
   * is placed from that DID with the default AI client.
   */
  lemma AutoSelectedExample(answer: Answerer, n: nat)
    requires answer(n, DidLookup) == Ok(JObj([("dids", JList([JStr("+15550001111")]))]))
    ensures var input := StartCallInput(Some("08069256212"), None, None, None, None, None, None, "p", "g");
      StartCallRun(input, answer, n).requests == [
        DidLookup,
        Request("POST", "/api/call", Some(JObj([
          ("destination", JStr("08069256212")),
          ("did_number", JStr("+15550001111")),
          ("ai_client", JStr("client1")),
          ("system_prompt", JStr("p")),
          ("greeting_text", JStr("g"))])))]
  {
    var input := StartCallInput(Some("08069256212"), None, None, None, None, None, None, "p", "g");
    assert Get([("dids", JList([JStr("+15550001111")]))], "dids") == Some(JList([JStr("+15550001111")]));
    assert DidEntries(answer(n, DidLookup).value) == [JStr("+15550001111")];
    assert ChosenDid(input, answer, n) == JStr("+15550001111");
    assert Destination(input) == Some("08069256212");
    assert Lookups(input) == [DidLookup];
    assert AiClient(input) == "client1" && SystemPrompt(input) == "p" && Greeting(input) == "g";
    assert Payload(input, "08069256212", JStr("+15550001111")) == [
          ("destination", JStr("08069256212")),
          ("did_number", JStr("+15550001111")),
          ("ai_client", JStr("client1")),
          ("system_prompt", JStr("p")),
          ("greeting_text", JStr("g"))];
  }

  /** A lookup answering with a top-level list is ignored, so no call is placed. */
  lemma TopLevelListIgnored(answer: Answerer, n: nat)
    requires answer(n, DidLookup) == Ok(JList([JStr("+15550001111")]))
    ensures var input := StartCallInput(Some("08069256212"), None, None, None, None, None, None, "p", "g");
      StartCallRun(input, answer, n) == Run(Text(MissingDid), [DidLookup])
  {
  }

  /** Empty strings count as absent: an empty direct field falls through to the alias, empty texts take the defaults. */
  lemma EmptyStringsFallThrough(input: StartCallInput)
    ensures input.destination == Some("") ==> Destination(input) == input.toNumber
    ensures input.didNumber == Some("") ==> GivenDid(input) == input.fromNumber
    ensures input.aiClient == Some("") ==> AiClient(input) == DefaultAiClient
    ensures input.systemPrompt == "" ==> SystemPrompt(input) == DefaultSystemPrompt
    ensures input.greetingText == "" ==> Greeting(input) == DefaultGreeting
  {
  }

  /**
   * `start_new_call`: reassigns the DID after the lookup and extends the
   * payload in place before the single `POST /api/call`.
   */
  method StartNewCall(api: Client, input: StartCallInput) returns (r: ToolResult)
    requires api.Valid()
    modifies api`sent, api`log
    ensures api.Valid()
    ensures var run := StartCallRun(input, api.Answer(), old(api.sent));
      r == run.result && api.log == old(api.log) + run.requests
  {
    ghost var answer, n := api.Answer(), api.sent;
    var destination := Or(input.destination, input.toNumber);
    var didNumber := OptionalText(Or(input.didNumber, input.fromNumber));
    var aiClient := OrDefault(input.aiClient, DefaultAiClient);
    var systemPrompt := OrDefault(Some(input.systemPrompt), DefaultSystemPrompt);
    var greetingText := OrDefault(Some(input.greetingText), DefaultGreeting);

    if !Present(destination) {
      return Text(MissingDestination);
    }

    if !Truthy(didNumber) {
      var lookup := api.MakeRequest(DidLookup);
      if lookup.Ok? {
        var entries := DidEntries(lookup.value);
        if entries != [] {
          didNumber := DidOfEntry(entries[0]);
        }
      }
    }
    assert didNumber == ChosenDid(input, answer, n);
    assert api.log == old(api.log) + Lookups(input);

    if !Truthy(didNumber) {
      return Text(MissingDid);
    }

    var payload := [
      ("destination", JStr(destination.value)),
      ("did_number", didNumber),
      ("ai_client", JStr(aiClient)),
      ("system_prompt", JStr(systemPrompt)),
      ("greeting_text", JStr(greetingText))
    ];
    if input.scriptId.Some? {
      payload := payload + [("script_id", JStr(input.scriptId.value))];
    }
    if input.metadata.Some? {
      payload := payload + [("metadata", JObj(input.metadata.value))];
    }
    assert payload == Payload(input, destination.value, didNumber);

    var response := api.MakeRequest(Request("POST", CallEndpoint, Some(JObj(payload))));
    match response
    case Ok(value) => r := Data(value);
    case Err(e) => r := Text(StartCallFailure(input.toNumber, e));
  }
}
