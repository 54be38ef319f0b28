/**
  The two shapes every service hook takes (src/services/postService.js,
  src/services/profileService.js): a query whose option table the caller
  overrides except for a forwarding `onSuccess`, and a mutation whose option
  table is followed by `...options` and handed to useApiMutation.
*/
module ServiceHooks {

  import opened Wrappers
  import opened JsValues
  import opened Closures
  import Api

  /**
    A service query: the key, the URL and the literal `{...table, ...options,
    onSuccess}` handed to useApiQuery. The caller overrides every entry of the
    table, but not `onSuccess`, which always forwards to the caller's.
  */
  function ServiceQuery(key: Value, url: string, table: Options, options: Options): (r: Options)
    ensures QueryKey in r && QueryFn in r && OnSuccess in r
    ensures forall k :: k in r ==> k in table || k in options || k == QueryKey || k == QueryFn || k == OnSuccess
    ensures QueryKey !in table && QueryKey !in options ==> r[QueryKey] == Api.NormalizeKey(key)
    ensures QueryFn !in table && QueryFn !in options ==> r[QueryFn] == Fn(QueryFetch(url))
    ensures forall k :: k in table && k !in options && k != OnSuccess ==> k in r && r[k] == table[k]
    ensures forall k :: k in options && k != OnSuccess ==> k in r && r[k] == options[k]
    ensures r[OnSuccess] == Fn(ForwardOnSuccess(Get(options, OnSuccess)))
  {
    Api.QueryOptions(key, url,
      Spread(Spread(table, options), map[OnSuccess := Fn(ForwardOnSuccess(Get(options, OnSuccess)))]))
  }

  /** A service query's `onSuccess` runs the caller's handler and nothing else, or nothing without one. */
  lemma QueryOnSuccessForwards(key: Value, url: string, table: Options, options: Options, data: Value)
    ensures Api.SuccessEffects(ServiceQuery(key, url, table, options), data) == CallOptional(Get(options, OnSuccess), data)
  {
    ServiceQueryOnSuccess(key, url, table, options);
    ForwardRuns(Get(options, OnSuccess), data);
  }

  lemma ServiceQueryOnSuccess(key: Value, url: string, table: Options, options: Options)
    ensures Get(ServiceQuery(key, url, table, options), OnSuccess) == Fn(ForwardOnSuccess(Get(options, OnSuccess)))
  {
  }

  lemma ForwardRuns(forward: Value, data: Value)
    ensures CallOptional(Fn(ForwardOnSuccess(forward)), data) == CallOptional(forward, data)
  {
  }

  /** A mutation hook as the service files write it: the method, the URL (or URL function) and its option table. */
  datatype MutationHook = MutationHook(verb: string, url: Target, table: Options)

  /** A table leaves the handlers and the request function to useApiMutation. */
  predicate LeavesHandlers(table: Options) {
    OnSuccess !in table && OnError !in table && MutationFn !in table
  }

  /**
    A mutation hook called with the caller's `options`: its table, then
    `...options`, handed to useApiMutation. The caller wins on every entry;
    without a caller `onSuccess`, the wrapper's runs with the merged
    invalidation list and message.
  */
  function Configure(h: MutationHook, options: Options): (r: Options)
    requires LeavesHandlers(h.table)
    ensures r.Keys == h.table.Keys + options.Keys + {MutationFn, OnSuccess, OnError}
    ensures forall k :: k in options ==> r[k] == options[k]
    ensures forall k :: k in h.table && k !in options ==> r[k] == h.table[k]
    ensures MutationFn !in options ==> r[MutationFn] == Fn(MutationFetch(h.verb, h.url))
    ensures OnSuccess !in options ==>
              r[OnSuccess] == Fn(MutationOnSuccess(Get(Spread(h.table, options), InvalidateQueries), Undefined,
                                                   Get(Spread(h.table, options), SuccessMessage)))
  {
    Api.MutationOptions(h.verb, h.url, Spread(h.table, options))
  }

  /** The caller left the success behaviour to the table. */
  predicate NoSuccessOverride(options: Options) {
    OnSuccess !in options && InvalidateQueries !in options && SuccessMessage !in options
  }

  function InvalidationOf(filter: Value): seq<Effect> {
    if Truthy(filter) then [Invalidated(filter)] else []
  }

  function ToastOf(message: Value): seq<Effect> {
    if Truthy(message) then [ToastedSuccess(message)] else []
  }

  /** Without caller overrides, a mutation invalidates what its table lists, then shows the table's message. */
  lemma TableSuccessEffects(h: MutationHook, options: Options, data: Value)
    requires LeavesHandlers(h.table) && NoSuccessOverride(options)
    ensures Api.SuccessEffects(Configure(h, options), data)
            == InvalidationOf(Get(h.table, InvalidateQueries)) + ToastOf(Get(h.table, SuccessMessage))
  {
    var merged := Spread(h.table, options);
    Api.WrapperInEffect(h.verb, h.url, merged, data);
    assert Get(merged, InvalidateQueries) == Get(h.table, InvalidateQueries);
    assert Get(merged, SuccessMessage) == Get(h.table, SuccessMessage);
  }

  /**
    A caller `onSuccess` silences the table: the mutation runs, but no cache
    is invalidated and no success message is shown.
  */
  lemma CallerOnSuccessSilencesTable(h: MutationHook, options: Options, name: string, data: Value)
    requires LeavesHandlers(h.table)
    requires OnSuccess in options && options[OnSuccess] == Fn(Callback(name))
    ensures Api.SuccessEffects(Configure(h, options), data) == [Called(name, data)]
  {
    Api.CallerOnSuccessReplacesWrapper(h.verb, h.url, Spread(h.table, options), name, data);
  }

  /**
    The request a mutation sends: its method and its URL as written, a URL
    function included, which is passed to the client unchanged and never called.
  */
  lemma MutationRequest(h: MutationHook, options: Options, data: Value)
    requires LeavesHandlers(h.table) && MutationFn !in options
    ensures Run(Configure(h, options)[MutationFn].closure, data) == [Requested(h.verb, h.url, data)]
  {
  }

}
