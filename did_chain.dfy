/**
 * `list_available_dids`: three DID sources are tried in a fixed order; the
 * first success is returned unchanged and nothing after it is asked; when
 * all three fail, the text reports the last failure.
 */
module DidChain {
  import opened PyValues
  import opened Gateway
  import opened Tools

  /** The primary lookup, also the one the call-start auto-selection uses. */
  const DidLookup := Request("POST", "/api/validate-and-fetch-dids", None)

  /** The sources in the order they are tried. */
  const DidSources: seq<Request> := [
    DidLookup,
    Request("GET", "/api/did/my-dids", None),
    Request("GET", "/api/dids", None)
  ]

  /** A run of a tool: what it returned and the requests it made, in order. */
  datatype Run = Run(result: ToolResult, requests: seq<Request>)

  /** The outcome of trying sources in order, and how many were tried. */
  datatype Attempt = Attempt(outcome: Outcome, tries: nat)

  /**
   * Tries `sources` in order, the first at request position `n`, stopping at
   * the first success; the outcome is that success or the last failure.
   */
  function FirstSuccess(answer: Answerer, n: nat, sources: seq<Request>): (a: Attempt)
    requires sources != []
    ensures 1 <= a.tries <= |sources|
    decreases |sources|
  {
    var o := answer(n, sources[0]);
    if o.Ok? || |sources| == 1 then Attempt(o, 1)
    else
      var rest := FirstSuccess(answer, n + 1, sources[1..]);
      Attempt(rest.outcome, rest.tries + 1)
  }

  /**
   * First success wins, last failure reported: every source before the last
   * one tried failed, the outcome is the last one tried, and the chain only
   * stops early on a success.
   */
  lemma {:induction false} FirstSuccessWins(answer: Answerer, n: nat, sources: seq<Request>)
    requires sources != []
    ensures var a := FirstSuccess(answer, n, sources);
      && a.outcome == answer(n + a.tries - 1, sources[a.tries - 1])
      && (forall i :: 0 <= i < a.tries - 1 ==> answer(n + i, sources[i]).Err?)
      && (a.outcome.Ok? || a.tries == |sources|)
    decreases |sources|
  {
    var o := answer(n, sources[0]);
    if !(o.Ok? || |sources| == 1) {
      FirstSuccessWins(answer, n + 1, sources[1..]);
      var rest := FirstSuccess(answer, n + 1, sources[1..]);
      forall i | 0 <= i < rest.tries
        ensures answer(n + i, sources[i]).Err?
      {
        if i > 0 {
          assert sources[i] == sources[1..][i - 1];
        }
      }
    }
  }

  /** The tries a chain makes are fixed by the first successful source, or all of them. */
  lemma TriesOfFirstSuccess(answer: Answerer, n: nat, sources: seq<Request>, k: nat)
    requires k < |sources|
    requires forall i :: 0 <= i < k ==> answer(n + i, sources[i]).Err?
    requires answer(n + k, sources[k]).Ok? || k == |sources| - 1
    ensures FirstSuccess(answer, n, sources).tries == k + 1
  {
    FirstSuccessWins(answer, n, sources);
  }

  /** What `list_available_dids` returns and which requests it makes. */
  function ListDids(answer: Answerer, n: nat): Run {
    var a := FirstSuccess(answer, n, DidSources);
    Run(Relay(a.outcome, e => Failure(DidListAction, e)), DidSources[..a.tries])
  }

  /** At most three requests, always a prefix of the fixed order, never empty. */
  lemma ListDidsRequests(answer: Answerer, n: nat)
    ensures var run := ListDids(answer, n);
      1 <= |run.requests| <= 3 && run.requests == DidSources[..|run.requests|]
      && run.requests[0] == DidLookup
  {
  }

  /** The first source that answers decides the result, which is passed through unchanged. */
  lemma ListDidsFirstSuccess(answer: Answerer, n: nat, k: nat)
    requires k < 3
    requires forall i :: 0 <= i < k ==> answer(n + i, DidSources[i]).Err?
    requires answer(n + k, DidSources[k]).Ok?
    ensures ListDids(answer, n) == Run(Data(answer(n + k, DidSources[k]).value), DidSources[..k + 1])
  {
    TriesOfFirstSuccess(answer, n, DidSources, k);
    FirstSuccessWins(answer, n, DidSources);
  }

  /** When every source fails, all three were asked and the text carries the third failure's message. */
  lemma ListDidsAllFail(answer: Answerer, n: nat)
    requires forall i :: 0 <= i < 3 ==> answer(n + i, DidSources[i]).Err?
    ensures var e := answer(n + 2, DidSources[2]).error;
      ListDids(answer, n) == Run(Text(Failure(DidListAction, e)), DidSources)
  {
    TriesOfFirstSuccess(answer, n, DidSources, 2);
    FirstSuccessWins(answer, n, DidSources);
  }

  /** A failing primary lookup and a working second source give exactly two requests. */
  lemma SecondSourceAnswers(answer: Answerer, n: nat)
    requires answer(n, DidSources[0]).Err? && answer(n + 1, DidSources[1]).Ok?
    ensures var run := ListDids(answer, n);
      |run.requests| == 2 && run.result == Data(answer(n + 1, DidSources[1]).value)
  {
    ListDidsFirstSuccess(answer, n, 1);
  }

  /**
   * `list_available_dids`, as the loop over the sources that keeps the last
   * failure.
   */
  method ListAvailableDids(api: Client) returns (r: ToolResult)
    requires api.Valid()
    modifies api`sent, api`log
    ensures api.Valid()
    ensures var run := ListDids(api.Answer(), old(api.sent));
      r == run.result && api.log == old(api.log) + run.requests
  {
    ghost var answer, n := api.Answer(), api.sent;
    var last := ApiError("", None, None);
    var i := 0;
    while i < |DidSources|
      invariant 0 <= i <= |DidSources|
      invariant api.Valid() && api.Answer() == answer
      invariant api.sent == n + i
      invariant api.log == old(api.log) + DidSources[..i]
      invariant forall j :: 0 <= j < i ==> answer(n + j, DidSources[j]).Err?
      invariant i > 0 ==> last == answer(n + i - 1, DidSources[i - 1]).error
    {
      var response := api.MakeRequest(DidSources[i]);
      if response.Ok? {
        TriesOfFirstSuccess(answer, n, DidSources, i);
        FirstSuccessWins(answer, n, DidSources);
        return Data(response.value);
      }
      last := response.error;
      i := i + 1;
    }
    ListDidsAllFail(answer, n);
    r := Text(Failure(DidListAction, last));
  }
}
