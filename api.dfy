/**
  The transport wrapper (src/services/api.js): the configured HTTP client's
  request and response interceptors, and the `useApiQuery` / `useApiMutation`
  hooks that turn a key, a URL and caller options into the option object handed
  to the query library. The library itself (caching, polling, de-duplication)
  is not part of this model; only the option values and the call order that the
  wrapper sets up are.
*/
module Api {

  import opened Wrappers
  import opened JsValues
  import opened Closures
  import opened Browser

  const DefaultBaseUrl := "https://linked-posts.routemisr.com"
  const TimeoutMs := 10000
  const GenericErrorMessage := "An error occurred"
  const LoginPage := "/login"
  const UnauthorizedStatus := 401

  datatype HttpResponse = HttpResponse(status: int, data: Value)

  /** How a request settles: a (2xx) response, or an error with the response, if any, and the error's own message. */
  datatype HttpOutcome =
    | Responded(response: HttpResponse)
    | Failed(errorResponse: Option<HttpResponse>, message: Value)

  /** An outgoing request as the request interceptor sees it. */
  datatype Request = Request(httpMethod: string, target: Target, data: Value, headers: Fields)

  /** What the response interceptor leaves the caller with. */
  datatype Settled = Resolved(data: Value) | Rejected(reason: Value)

  // ---------------------------------------------------------------- request side

  const BearerScheme := "Bearer "

  /** The credentials of an `Authorization` header in the form of section 2.1 of RFC 6750. */
  function BearerCredentials(token: Value): string {
    BearerScheme + Render(token)
  }

  /** Reads the token back out of `Authorization` credentials, if they use the Bearer scheme. */
  function ParseBearer(credentials: string): Option<string> {
    if |BearerScheme| <= |credentials| && credentials[..|BearerScheme|] == BearerScheme
    then Some(credentials[|BearerScheme|..])
    else None
  }

  lemma BearerRoundTrip(token: Value)
    ensures ParseBearer(BearerCredentials(token)) == Some(Render(token))
  {
    var c := BearerCredentials(token);
    assert c[..|BearerScheme|] == BearerScheme;
    assert c[|BearerScheme|..] == Render(token);
  }

  /**
    The request interceptor: with a stored token (`localStorage.getItem` gives a
    non-empty string) it adds `Authorization: Bearer <token>`; otherwise the
    request goes out unchanged. Nothing but that one header is touched.
  */
  function AttachToken(req: Request, storedToken: Value): (r: Request)
    ensures r.httpMethod == req.httpMethod && r.target == req.target && r.data == req.data
    ensures forall k :: k != "Authorization" ==>
              (k in r.headers <==> k in req.headers) && (k in req.headers ==> r.headers[k] == req.headers[k])
    ensures Truthy(storedToken) ==>
              "Authorization" in r.headers && r.headers["Authorization"].Str?
              && ParseBearer(r.headers["Authorization"].s) == Some(Render(storedToken))
    ensures !Truthy(storedToken) ==> r == req
  {
    if Truthy(storedToken) then
      BearerRoundTrip(storedToken);
      req.(headers := req.headers["Authorization" := Str(BearerCredentials(storedToken))])
    else req
  }

  /** The instance's default headers. */
  const DefaultHeaders: Fields := map["Content-Type" := Str("application/json")]

  /** What a query's `queryFn` sends: a GET of the URL. */
  function QueryRequest(url: string, storedToken: Value): Request {
    AttachToken(Request("get", Path(url), Undefined, DefaultHeaders), storedToken)
  }

  /**
    What a mutation's `mutationFn` sends: the method and URL exactly as given
    (a URL function is passed on as it is, never called), the variables as body,
    and a `token` header holding the raw stored value (`null` without one).
  */
  function MutationRequest(verb: string, url: Target, data: Value, storedToken: Value): (r: Request)
    ensures r.httpMethod == verb && r.target == url && r.data == data
    ensures "token" in r.headers && r.headers["token"] == storedToken
    ensures Truthy(storedToken) <==> "Authorization" in r.headers
  {
    AttachToken(Request(verb, url, data, DefaultHeaders["token" := storedToken]), storedToken)
  }

  // ---------------------------------------------------------------- response side

  predicate IsUnauthorized(response: Option<HttpResponse>) {
    response.Some? && response.value.status == UnauthorizedStatus
  }

  /** `error.response?.data?.message || "An error occurred"`: never falsy. */
  function FailureMessage(response: Option<HttpResponse>): (m: Value)
    ensures Truthy(m)
    ensures response.Some? && Truthy(OptionalMember(response.value.data, "message")) ==>
              m == OptionalMember(response.value.data, "message")
    ensures response.None? || !Truthy(OptionalMember(response.value.data, "message")) ==>
              m == Str(GenericErrorMessage)
  {
    var fromServer := if response.Some? then OptionalMember(response.value.data, "message") else Undefined;
    if Truthy(fromServer) then fromServer else Str(GenericErrorMessage)
  }

  /**
    The promise the interceptors leave: a response is unwrapped to its payload;
    a failure is rejected with the message itself, not with an error object.
  */
  function Settle(outcome: HttpOutcome): (r: Settled)
    ensures outcome.Responded? ==> r == Resolved(outcome.response.data)
    ensures outcome.Failed? ==> r.Rejected? && r.reason == FailureMessage(outcome.errorResponse) && Truthy(r.reason)
  {
    match outcome
    case Responded(response) => Resolved(response.data)
    case Failed(response, _) => Rejected(FailureMessage(response))
  }

  /**
    The response interceptor. A 401 removes the stored token and sends the
    browser to /login without a toast; every other failure shows exactly one
    error toast carrying the message; a success touches nothing.
  */
  method InterceptResponse(w: Window, outcome: HttpOutcome) returns (r: Settled)
    modifies w
    ensures r == Settle(outcome)
    ensures outcome.Responded? ==>
              w.storage == old(w.storage) && w.location == old(w.location) && w.toasts == old(w.toasts)
    ensures outcome.Failed? && IsUnauthorized(outcome.errorResponse) ==>
              w.storage == old(w.storage) - {TokenKey} && w.location == LoginPage && w.toasts == old(w.toasts)
    ensures outcome.Failed? && !IsUnauthorized(outcome.errorResponse) ==>
              w.toasts == old(w.toasts) + [ErrorToast(r.reason)]
              && w.storage == old(w.storage) && w.location == old(w.location)
    ensures w.routes == old(w.routes)
  {
    match outcome
    case Responded(response) =>
      r := Resolved(response.data);
    case Failed(response, _) =>
      var message := FailureMessage(response);
      if IsUnauthorized(response) {
        w.RemoveItem(TokenKey);
        w.Assign(LoginPage);
      } else {
        w.Show(ErrorToast(message));
      }
      r := Rejected(message);
  }

  // ---------------------------------------------------------------- query hook

  /** `Array.isArray(key) ? key : [key]`. */
  function NormalizeKey(key: Value): (r: Value)
    ensures r.Arr?
    ensures key.Arr? ==> r == key
    ensures !key.Arr? ==> r.items == [key]
  {
    if key.Arr? then key else Arr([key])
  }

  lemma NormalizeKeyIdempotent(key: Value)
    ensures NormalizeKey(NormalizeKey(key)) == NormalizeKey(key)
  {
  }

  /**
    The object `useApiQuery` hands to `useQuery`: the normalised key and a GET
    of the URL, followed by the caller's options, which win on every property
    they set, `queryKey` and `queryFn` included.
  */
  function QueryOptions(key: Value, url: string, options: Options): (r: Options)
    ensures r.Keys == options.Keys + {QueryKey, QueryFn}
    ensures forall k :: k in options ==> r[k] == options[k]
    ensures QueryKey !in options ==> r[QueryKey] == NormalizeKey(key)
    ensures QueryFn !in options ==> r[QueryFn] == Fn(QueryFetch(url))
  {
    Spread(map[QueryKey := NormalizeKey(key), QueryFn := Fn(QueryFetch(url))], options)
  }

  // ---------------------------------------------------------------- mutation hook

  /** The wrapper `onSuccess` of useApiMutation, closing over the caller's options. */
  function SuccessWrapper(options: Options): Closure {
    MutationOnSuccess(Get(options, InvalidateQueries), Get(options, OnSuccess), Get(options, SuccessMessage))
  }

  /**
    The object `useApiMutation` hands to `useMutation`: `mutationFn`, the wrapper
    `onSuccess` and `onError`, and then `...options`, so that every property the
    caller sets, `onSuccess` and `onError` included, replaces the wrapper's.
  */
  function MutationOptions(verb: string, url: Target, options: Options): (r: Options)
    ensures r.Keys == options.Keys + {MutationFn, OnSuccess, OnError}
    ensures forall k :: k in options ==> r[k] == options[k]
    ensures OnSuccess !in options ==> r[OnSuccess] == Fn(SuccessWrapper(options))
    ensures OnError !in options ==> r[OnError] == Fn(MutationOnError(Get(options, OnError)))
    ensures MutationFn !in options ==> r[MutationFn] == Fn(MutationFetch(verb, url))
  {
    Spread(
      map[
        MutationFn := Fn(MutationFetch(verb, url)),
        OnSuccess := Fn(SuccessWrapper(options)),
        OnError := Fn(MutationOnError(Get(options, OnError)))
      ],
      options)
  }

  /** What happens when the query library reports a settled mutation as a success. */
  function SuccessEffects(config: Options, data: Value): seq<Effect> {
    CallOptional(Get(config, OnSuccess), data)
  }

  /** What happens when the query library reports a mutation failure. */
  function ErrorEffects(config: Options, error: Value): seq<Effect> {
    CallOptional(Get(config, OnError), error)
  }

  /** The wrapper's success order: invalidate, then the caller's `onSuccess`, then the success toast. */
  lemma WrapperOrder(invalidate: Value, name: string, message: Value, data: Value)
    requires Truthy(invalidate) && Truthy(message)
    ensures Run(MutationOnSuccess(invalidate, Fn(Callback(name)), message), data)
            == [Invalidated(invalidate), Called(name, data), ToastedSuccess(message)]
  {
    var forwarded := Run(Callback(name), data);
    assert !Threw(forwarded);
  }

  /**
    Without a caller `onSuccess` the wrapper is in effect: it invalidates the
    configured keys if any, then shows the success message if any, and calls no
    component callback (its forwarding step finds nothing to call).
  */
  lemma WrapperInEffect(verb: string, url: Target, options: Options, data: Value)
    requires OnSuccess !in options
    ensures SuccessEffects(MutationOptions(verb, url, options), data)
            == (if Truthy(Get(options, InvalidateQueries)) then [Invalidated(Get(options, InvalidateQueries))] else [])
               + (if Truthy(Get(options, SuccessMessage)) then [ToastedSuccess(Get(options, SuccessMessage))] else [])
  {
    var forwarded := NonCallable(Undefined);
    assert forwarded == [] && !Threw(forwarded);
  }

  /**
    A caller `onSuccess` replaces the wrapper, because `...options` is spread
    last: the caller runs alone, with no invalidation and no success toast,
    whatever `invalidateQueries` and `successMessage` say.
  */
  lemma CallerOnSuccessReplacesWrapper(verb: string, url: Target, options: Options, name: string, data: Value)
    requires OnSuccess in options && options[OnSuccess] == Fn(Callback(name))
    ensures SuccessEffects(MutationOptions(verb, url, options), data) == [Called(name, data)]
  {
  }

  /**
    `skipLoading` is never read: removing it from the caller's options changes
    no property of the mutation other than `skipLoading` itself.
  */
  lemma SkipLoadingIgnored(verb: string, url: Target, options: Options)
    ensures var with := MutationOptions(verb, url, options);
            var without := MutationOptions(verb, url, options - {SkipLoading});
            with.Keys - {SkipLoading} == without.Keys
            && forall k :: k in without ==> with[k] == without[k]
  {
    var without := options - {SkipLoading};
    assert Get(options, InvalidateQueries) == Get(without, InvalidateQueries);
    assert Get(options, OnSuccess) == Get(without, OnSuccess);
    assert Get(options, SuccessMessage) == Get(without, SuccessMessage);
    assert Get(options, OnError) == Get(without, OnError);
  }

  /** The wrapper `onError` only forwards: nothing without a caller handler, the caller's handler otherwise. */
  lemma ErrorForwarding(verb: string, url: Target, options: Options, error: Value)
    ensures OnError !in options ==> ErrorEffects(MutationOptions(verb, url, options), error) == []
    ensures forall name :: OnError in options && options[OnError] == Fn(Callback(name)) ==>
              ErrorEffects(MutationOptions(verb, url, options), error) == [Called(name, error)]
  {
  }
}
