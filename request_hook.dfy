/**
  The ad-hoc request helper (src/hooks/useHandleApiRequest.js). It talks to the
  plain HTTP client, not the configured instance of src/services/api.js, so no
  bearer header is added and no toast is shown. `RequestHook` is the hook's
  state (`response`, `error`) plus a log of what `handleApiRequest` does, in
  order; the network's answer is a parameter.
*/
module RequestHook {

  import opened Wrappers
  import opened JsValues
  import opened Loading
  import Api

  const DefaultMethod := "GET"
  const UnknownError := "Unknown error"

  /** The configuration object handed to the HTTP client. */
  datatype Config = Config(url: string, httpMethod: Value, headers: Fields, data: Option<Value>)

  /** One observable step of a call, in the order the call takes them. */
  datatype Step =
    | LoadingStarted
    | ErrorSet(error: Value)                          // setError(...)
    | ResponseSet(response: Option<Api.HttpResponse>) // setResponse(...); None is `null`
    | Sent(config: Config)
    | SuccessCallback(data: Value)                    // onSuccess(response.data)
    | ErrorCallback(message: Value)                   // onError(errorResponse)
    | LoadingStopped
    | FinallyCallback

  /** How the returned promise settles: `[data, null]`, a thrown value, or a TypeError. */
  datatype Settled = Returned(data: Value) | Rejected(reason: Value) | RejectedTypeError

  /** A default parameter applies when the argument is `undefined`. */
  function MethodOrDefault(httpMethod: Value): (m: Value)
    ensures httpMethod != Undefined ==> m == httpMethod
    ensures httpMethod == Undefined ==> m == Str(DefaultMethod)
  {
    if httpMethod == Undefined then Str(DefaultMethod) else httpMethod
  }

  predicate CarriesBody(httpMethod: Value) {
    httpMethod == Str("POST") || httpMethod == Str("PUT") || httpMethod == Str("PATCH")
  }

  /**
    The request configuration: a JSON Content-Type that the caller's headers
    may replace, and a body only when it is truthy and the method is exactly
    "POST", "PUT" or "PATCH" (upper case; "post" sends none).
  */
  function BuildConfig(url: string, httpMethod: Value, body: Value, headers: Fields): (c: Config)
    ensures c.url == url && c.httpMethod == httpMethod
    ensures c.headers.Keys == headers.Keys + {"Content-Type"}
    ensures forall k :: k in headers ==> c.headers[k] == headers[k]
    ensures "Content-Type" !in headers ==> c.headers["Content-Type"] == Str(Api.DefaultHeaders["Content-Type"].s)
    ensures c.data.Some? <==> Truthy(body) && CarriesBody(httpMethod)
    ensures c.data.Some? ==> c.data.value == body
  {
    Config(url, httpMethod, Spread(Api.DefaultHeaders, headers),
           if Truthy(body) && CarriesBody(httpMethod) then Some(body) else None)
  }

  lemma LowerCaseMethodSendsNoBody(url: string, body: Value, headers: Fields)
    ensures BuildConfig(url, Str("post"), body, headers).data.None?
    ensures BuildConfig(url, Str("patch"), body, headers).data.None?
  {
  }

  /** `error?.response?.data?.error || error?.message || "Unknown error"`: never falsy. */
  function ErrorText(response: Option<Api.HttpResponse>, message: Value): (t: Value)
    ensures Truthy(t)
    ensures response.Some? && Truthy(OptionalMember(response.value.data, "error")) ==>
              t == OptionalMember(response.value.data, "error")
    ensures (response.None? || !Truthy(OptionalMember(response.value.data, "error"))) && Truthy(message) ==>
              t == message
    ensures (response.None? || !Truthy(OptionalMember(response.value.data, "error"))) && !Truthy(message) ==>
              t == Str(UnknownError)
  {
    var fromServer := if response.Some? then OptionalMember(response.value.data, "error") else Undefined;
    if Truthy(fromServer) then fromServer
    else if Truthy(message) then message
    else Str(UnknownError)
  }

  /**
    How the call settles: the payload on success; on failure whatever
    `error.response.data.error` evaluates to, or a TypeError when there is no
    response or its data is `null`/`undefined`. A failure never returns.
  */
  function Settle(outcome: Api.HttpOutcome): (r: Settled)
    ensures outcome.Responded? <==> r.Returned?
    ensures outcome.Responded? ==> r.data == outcome.response.data
    ensures outcome.Failed? && (outcome.errorResponse.None? || Nullish(outcome.errorResponse.value.data)) ==>
              r == RejectedTypeError
    ensures outcome.Failed? && outcome.errorResponse.Some? && outcome.errorResponse.value.data.Obj? ==>
              r == Rejected(Get(outcome.errorResponse.value.data.fields, "error"))
  {
    match outcome
    case Responded(response) => Returned(response.data)
    case Failed(response, _) =>
      if response.None? then RejectedTypeError
      else
        match Member(response.value.data, "error")
        case None => RejectedTypeError
        case Some(thrown) => Rejected(thrown)
  }

  /** The `loading` parameter, whose default `true` applies when the argument is `undefined`. */
  function LoadingOrDefault(loadingArg: Value): (v: Value)
    ensures loadingArg != Undefined ==> v == loadingArg
    ensures loadingArg == Undefined ==> v == Bool(true)
  {
    if loadingArg == Undefined then Bool(true) else loadingArg
  }

  /** Whether the call counts itself in the loading indicator: `loading && startLoading`. */
  predicate Counts(hasProvider: bool, loadingArg: Value) {
    Truthy(LoadingOrDefault(loadingArg)) && hasProvider
  }

  /** A call counts itself exactly when a provider is present and `loading` is omitted or truthy. */
  lemma CountsIff(hasProvider: bool, loadingArg: Value)
    ensures Counts(hasProvider, loadingArg) <==> hasProvider && (loadingArg == Undefined || Truthy(loadingArg))
  {
  }

  /** What follows the request: the outcome's callback, if it is a function, then the state update. */
  function OutcomeSteps(onSuccess: Value, onError: Value, outcome: Api.HttpOutcome): (steps: seq<Step>)
    ensures LoadingStarted !in steps && LoadingStopped !in steps && FinallyCallback !in steps
    ensures |steps| >= 1
    ensures outcome.Responded? ==> steps[|steps| - 1] == ResponseSet(Some(outcome.response))
    ensures outcome.Failed? ==> steps[|steps| - 1] == ErrorSet(ErrorText(outcome.errorResponse, outcome.message))
  {
    match outcome
    case Responded(response) =>
      (if onSuccess.Fn? then [SuccessCallback(response.data)] else []) + [ResponseSet(Some(response))]
    case Failed(response, message) =>
      var text := ErrorText(response, message);
      (if onError.Fn? then [ErrorCallback(text)] else []) + [ErrorSet(text)]
  }

  /** The steps between the start and the stop: the reset, the request, then the outcome. */
  function CoreSteps(config: Config, onSuccess: Value, onError: Value, outcome: Api.HttpOutcome): (steps: seq<Step>)
    ensures LoadingStarted !in steps && LoadingStopped !in steps && FinallyCallback !in steps
    ensures |steps| >= 4 && steps[0] == ErrorSet(Null) && steps[1] == ResponseSet(None) && steps[2] == Sent(config)
  {
    [ErrorSet(Null), ResponseSet(None), Sent(config)] + OutcomeSteps(onSuccess, onError, outcome)
  }

  /** The steps of one call, in order. A callback runs only when it is a function. */
  function RequestSteps(hasProvider: bool, config: Config, onSuccess: Value, onError: Value, onFinally: Value,
                        loadingArg: Value, outcome: Api.HttpOutcome): seq<Step>
  {
    var counts := Counts(hasProvider, loadingArg);
    Started(counts) + CoreSteps(config, onSuccess, onError, outcome) + Stopped(counts) + Finally(onFinally)
  }

  function Started(counts: bool): seq<Step> {
    if counts then [LoadingStarted] else []
  }

  function Stopped(counts: bool): seq<Step> {
    if counts then [LoadingStopped] else []
  }

  function Finally(onFinally: Value): seq<Step> {
    if onFinally.Fn? then [FinallyCallback] else []
  }

  function Occurrences(steps: seq<Step>, s: Step): nat {
    multiset(steps)[s]
  }

  /**
    Loading is paired on both outcomes: one start and one stop when a provider
    is present and `loading` is omitted or truthy, neither otherwise.
  */
  lemma LoadingPaired(hasProvider: bool, config: Config, onSuccess: Value, onError: Value, onFinally: Value,
                      loadingArg: Value, outcome: Api.HttpOutcome)
    ensures var steps := RequestSteps(hasProvider, config, onSuccess, onError, onFinally, loadingArg, outcome);
            Occurrences(steps, LoadingStarted) == Occurrences(steps, LoadingStopped)
            == (if hasProvider && (loadingArg == Undefined || Truthy(loadingArg)) then 1 else 0)
  {
    CountsIff(hasProvider, loadingArg);
    var counts := Counts(hasProvider, loadingArg);
    CountBracketed(counts, Started(counts), CoreSteps(config, onSuccess, onError, outcome), Stopped(counts),
                   Finally(onFinally));
  }

  lemma CountBracketed(counts: bool, head: seq<Step>, core: seq<Step>, stop: seq<Step>, fin: seq<Step>)
    requires head == (if counts then [LoadingStarted] else [])
    requires stop == (if counts then [LoadingStopped] else [])
    requires LoadingStarted !in core && LoadingStopped !in core
    requires fin == [] || fin == [FinallyCallback]
    ensures Occurrences(head + core + stop + fin, LoadingStarted) == (if counts then 1 else 0)
    ensures Occurrences(head + core + stop + fin, LoadingStopped) == (if counts then 1 else 0)
  {
    assert multiset(head + core + stop + fin) == multiset(head) + multiset(core) + multiset(stop) + multiset(fin);
  }

  /**
    The start comes first, the stop after the outcome is recorded, and
    `onFinally` runs last, after the stop; with a provider present this holds
    for every call that omits `loading` or passes a truthy one.
  */
  lemma LoadingBracketsCall(hasProvider: bool, config: Config, onSuccess: Value, onError: Value, onFinally: Value,
                            loadingArg: Value, outcome: Api.HttpOutcome)
    ensures var steps := RequestSteps(hasProvider, config, onSuccess, onError, onFinally, loadingArg, outcome);
            var counts := hasProvider && (loadingArg == Undefined || Truthy(loadingArg));
            (counts ==> steps[0] == LoadingStarted)
            && (onFinally.Fn? ==> steps[|steps| - 1] == FinallyCallback)
            && (counts ==> steps[|steps| - (if onFinally.Fn? then 2 else 1)] == LoadingStopped)
            && (!counts ==> LoadingStarted !in steps && LoadingStopped !in steps)
  {
    CountsIff(hasProvider, loadingArg);
  }

  /**
    Before the request goes out the hook's `error` and `response` are reset to
    null, and the request is sent exactly once, with the built configuration.
  */
  lemma ResetBeforeSend(hasProvider: bool, config: Config, onSuccess: Value, onError: Value, onFinally: Value,
                        loadingArg: Value, outcome: Api.HttpOutcome)
    ensures var steps := RequestSteps(hasProvider, config, onSuccess, onError, onFinally, loadingArg, outcome);
            var i := if Counts(hasProvider, loadingArg) then 1 else 0;
            |steps| > i + 2 && steps[i] == ErrorSet(Null) && steps[i + 1] == ResponseSet(None)
            && steps[i + 2] == Sent(config)
  {
  }

  lemma Regroup(a: seq<Step>, b: seq<Step>, c: seq<Step>, d: seq<Step>, e: seq<Step>)
    ensures a + b + c + d + e == a + (b + c + d + e)
  {
  }

  class RequestHook {
    var response: Option<Api.HttpResponse>
    var error: Value
    var steps: seq<Step>

    constructor ()
      ensures response == None && error == Null && steps == []
    {
      response := None;
      error := Null;
      steps := [];
    }

    /**
      The awaited request with its `then`/`catch` handlers: reset the state,
      send, then record the outcome. The loading stop and `onFinally` belong
      to the caller's `finally`.
    */
    method Exchange(config: Config, onSuccess: Value, onError: Value, outcome: Api.HttpOutcome)
      returns (r: Settled)
      modifies this
      ensures r == Settle(outcome)
      ensures steps == old(steps) + CoreSteps(config, onSuccess, onError, outcome)
      ensures outcome.Responded? ==> response == Some(outcome.response) && error == Null
      ensures outcome.Failed? ==>
                response == None && error == ErrorText(outcome.errorResponse, outcome.message)
    {
      error := Null;
      response := None;
      steps := steps + [ErrorSet(Null), ResponseSet(None), Sent(config)];
      ghost var sent := steps;
      match outcome {
        case Responded(resp) =>
          if onSuccess.Fn? {
            steps := steps + [SuccessCallback(resp.data)];
          }
          response := Some(resp);
          steps := steps + [ResponseSet(Some(resp))];
          assert steps == sent + OutcomeSteps(onSuccess, onError, outcome);
          r := Returned(resp.data);
        case Failed(errResp, message) =>
          var text := ErrorText(errResp, message);
          if onError.Fn? {
            steps := steps + [ErrorCallback(text)];
          }
          error := text;
          steps := steps + [ErrorSet(text)];
          assert steps == sent + OutcomeSteps(onSuccess, onError, outcome);
          if errResp.None? || Nullish(errResp.value.data) {
            r := RejectedTypeError;
          } else {
            r := Rejected(Member(errResp.value.data, "error").value);
          }
      }
    }

    /**
      `handleApiRequest(url, method, body, headers, onSuccess, onError,
      onFinally, loading)`; `provider` is the loading provider in scope (null
      when there is none, so `startLoading` is undefined) and `outcome` is what
      the network answers.
    */
    method HandleApiRequest(provider: LoadingProvider?, url: string, httpMethod: Value, body: Value,
                            headers: Fields, onSuccess: Value, onError: Value, onFinally: Value,
                            loadingArg: Value, outcome: Api.HttpOutcome)
      returns (r: Settled)
      requires provider != null ==> provider.Valid()
      modifies this, provider
      ensures r == Settle(outcome)
      ensures steps == old(steps) + RequestSteps(provider != null,
                BuildConfig(url, MethodOrDefault(httpMethod), body, headers),
                onSuccess, onError, onFinally, loadingArg, outcome)
      ensures outcome.Responded? ==> response == Some(outcome.response) && error == Null
      ensures outcome.Failed? ==>
                response == None && error == ErrorText(outcome.errorResponse, outcome.message)
      ensures provider != null ==> provider.Valid() && provider.count == old(provider.count)
      ensures provider != null && Truthy(LoadingOrDefault(loadingArg)) ==> provider.loading == (provider.count > 0)
      ensures provider != null && !Truthy(LoadingOrDefault(loadingArg)) ==> provider.Snapshot() == old(provider.Snapshot())
    {
      var counts := Truthy(LoadingOrDefault(loadingArg)) && provider != null;
      ghost var before := steps;
      if counts {
        provider.StartLoading();
        steps := steps + [LoadingStarted];
      }
      assert steps == before + Started(counts);
      ghost var started := steps;
      var config := BuildConfig(url, MethodOrDefault(httpMethod), body, headers);
      r := Exchange(config, onSuccess, onError, outcome);
      ghost var settled := steps;
      assert settled == started + CoreSteps(config, onSuccess, onError, outcome);
      if counts {
        provider.StopLoading();
        steps := steps + [LoadingStopped];
        assert provider.count == old(provider.count);
      }
      assert steps == settled + Stopped(counts);
      assert provider != null && !counts ==> provider.Snapshot() == old(provider.Snapshot());
      ghost var stopped := steps;
      if onFinally.Fn? {
        steps := steps + [FinallyCallback];
      }
      assert steps == stopped + Finally(onFinally);
      Regroup(before, Started(counts), CoreSteps(config, onSuccess, onError, outcome), Stopped(counts),
              Finally(onFinally));
    }
  }
}
