/**
  What calling one of the client's function values does. A call is described by
  the log of externally visible effects it produces, in order; the effects are
  those of src/services/api.js, postService.js, profileService.js and
  authService.js (cache invalidation, success toasts, token persistence,
  HTTP requests) plus the calls into component callbacks.
*/
module Closures {

  import opened Wrappers
  import opened JsValues
  import Endpoints

  datatype Effect =
    | Called(name: string, arg: Value)                     // a component callback ran
    | Invalidated(filter: Value)                           // queryClient.invalidateQueries(filter)
    | ToastedSuccess(message: Value)                       // toast.success(message)
    | TokenStored(token: Value)                            // localStorage.setItem("access_token", token)
    | Requested(httpMethod: string, target: Target, data: Value)
    | NotAFunction(callee: Value)                          // `f?.(...)` on a non-function throws

  /** The call threw a TypeError somewhere. */
  predicate Threw(es: seq<Effect>) {
    exists i :: 0 <= i < |es| && es[i].NotAFunction?
  }

  /** `f?.(...)` when `f` is not a function: nothing for `null`/`undefined`, a TypeError otherwise. */
  function NonCallable(f: Value): (es: seq<Effect>)
    ensures Nullish(f) <==> es == []
    ensures Threw(es) <==> !Nullish(f)
  {
    if Nullish(f) then []
    else
      var es := [NotAFunction(f)];
      assert es[0].NotAFunction?;
      es
  }

  lemma ThrewConcat(a: seq<Effect>, b: seq<Effect>)
    ensures Threw(a + b) <==> Threw(a) || Threw(b)
  {
    if Threw(a) {
      var i :| 0 <= i < |a| && a[i].NotAFunction?;
      assert (a + b)[i] == a[i];
    }
    if Threw(b) {
      var i :| 0 <= i < |b| && b[i].NotAFunction?;
      assert (a + b)[|a| + i] == b[i];
    }
    if Threw(a + b) {
      var i :| 0 <= i < |a + b| && (a + b)[i].NotAFunction?;
      if i < |a| { assert a[i] == (a + b)[i]; } else { assert b[i - |a|] == (a + b)[i]; }
    }
  }

  /**
    The effects of calling closure `c` with first argument `arg` (the data, or the
    error for `onError`).
  */
  function Run(c: Closure, arg: Value): seq<Effect> {
    match c
    case Callback(name) => [Called(name, arg)]
    case QueryFetch(path) => [Requested("get", Path(path), Undefined)]
    case MutationFetch(verb, target) => [Requested(verb, target, arg)]
    case MutationOnSuccess(invalidate, forward, message) =>
      var forwarded := if forward.Fn? then Run(forward.closure, arg) else NonCallable(forward);
      var before: seq<Effect> := if Truthy(invalidate) then [Invalidated(invalidate)] else [];
      var after: seq<Effect> := if Truthy(message) && !Threw(forwarded) then [ToastedSuccess(message)] else [];
      before + forwarded + after
    case MutationOnError(forward) =>
      if forward.Fn? then Run(forward.closure, arg) else NonCallable(forward)
    case ForwardOnSuccess(forward) =>
      if forward.Fn? then Run(forward.closure, arg) else NonCallable(forward)
    case PersistToken(forward) =>
      var token := OptionalMember(arg, "token");
      var stored: seq<Effect> := if Truthy(token) then [TokenStored(token)] else [];
      stored + if forward.Fn? then Run(forward.closure, arg) else NonCallable(forward)
  }

  /** The effects of a forwarding call never throw before it: a thrown TypeError is the last effect. */
  predicate EndsAtThrow(es: seq<Effect>) {
    Threw(es) ==> es[|es| - 1].NotAFunction?
  }

  /** Once a call throws, nothing further happens: a thrown TypeError is always the last effect. */
  lemma {:induction false} ThrowEndsRun(c: Closure, arg: Value)
    ensures EndsAtThrow(Run(c, arg))
  {
    match c
    case Callback(_) =>
    case QueryFetch(_) =>
    case MutationFetch(_, _) =>
    case MutationOnSuccess(invalidate, forward, message) =>
      if forward.Fn? { ThrowEndsRun(forward.closure, arg); }
      OnSuccessEndsAtThrow(invalidate, forward, message, arg);
    case MutationOnError(forward) =>
      if forward.Fn? { ThrowEndsRun(forward.closure, arg); }
      NonCallableEndsAtThrow(forward);
    case ForwardOnSuccess(forward) =>
      if forward.Fn? { ThrowEndsRun(forward.closure, arg); }
      NonCallableEndsAtThrow(forward);
    case PersistToken(forward) =>
      if forward.Fn? { ThrowEndsRun(forward.closure, arg); }
      PersistEndsAtThrow(forward, arg);
  }

  lemma NonCallableEndsAtThrow(f: Value)
    ensures EndsAtThrow(NonCallable(f))
  {
  }

  lemma OnSuccessEndsAtThrow(invalidate: Value, forward: Value, message: Value, arg: Value)
    requires forward.Fn? ==> EndsAtThrow(Run(forward.closure, arg))
    ensures EndsAtThrow(Run(MutationOnSuccess(invalidate, forward, message), arg))
  {
    var forwarded := if forward.Fn? then Run(forward.closure, arg) else NonCallable(forward);
    NonCallableEndsAtThrow(forward);
    var before: seq<Effect> := if Truthy(invalidate) then [Invalidated(invalidate)] else [];
    var after: seq<Effect> := if Truthy(message) && !Threw(forwarded) then [ToastedSuccess(message)] else [];
    ThrewAround(before, forwarded, after);
  }

  lemma PersistEndsAtThrow(forward: Value, arg: Value)
    requires forward.Fn? ==> EndsAtThrow(Run(forward.closure, arg))
    ensures EndsAtThrow(Run(PersistToken(forward), arg))
  {
    var forwarded := if forward.Fn? then Run(forward.closure, arg) else NonCallable(forward);
    NonCallableEndsAtThrow(forward);
    var token := OptionalMember(arg, "token");
    var stored: seq<Effect> := if Truthy(token) then [TokenStored(token)] else [];
    ThrewAround(stored, forwarded, []);
    assert stored + forwarded + [] == stored + forwarded;
  }

  /** Effects of the handler's own around a forwarded call that ends at its throw, with none after a throw. */
  lemma ThrewAround(before: seq<Effect>, forwarded: seq<Effect>, after: seq<Effect>)
    requires EndsAtThrow(forwarded) && (Threw(forwarded) ==> after == [])
    requires |before| <= 1 && |after| <= 1
    requires forall i | 0 <= i < |before| :: !before[i].NotAFunction?
    requires forall i | 0 <= i < |after| :: !after[i].NotAFunction?
    ensures EndsAtThrow(before + forwarded + after)
  {
    ThrewConcat(before, forwarded);
    ThrewConcat(before + forwarded, after);
  }

  /** Calling an optional function value, as `options.onSuccess?.(data)` does. */
  function CallOptional(f: Value, arg: Value): (es: seq<Effect>)
    ensures Nullish(f) ==> es == []
    ensures f.Fn? ==> es == Run(f.closure, arg)
  {
    if f.Fn? then Run(f.closure, arg) else NonCallable(f)
  }

  /**
    The path a postService URL function returns for the mutation's data, or
    `None` when reading `data.id` throws because the data is `null` or `undefined`.
  */
  function BuildUrl(b: UrlBuilder, data: Value): (r: Option<string>)
    ensures r.None? <==> Nullish(data)
  {
    match b
    case PostUrlFromIdOrForm =>
      if data.Form? then Some("/" + Endpoints.PostById(FormGet(data.entries, "id")))
      else if Nullish(data) then None
      else Some("/" + Endpoints.PostById(Member(data, "id").value))
    case PostUrlFromId =>
      if Nullish(data) then None else Some("/" + Endpoints.PostById(Member(data, "id").value))
    case CommentUrlFromId =>
      if Nullish(data) then None else Some("/" + Endpoints.CommentById(Member(data, "id").value))
  }

  /**
    UpdatePost's URL function reads the id from a FormData's first "id" entry and
    from the `id` property of any other object; the FormData's own `id`
    property, if it had one, is not consulted.
  */
  lemma UpdatePostUrlSource(entries: seq<(string, Value)>, fields: map<string, Value>, id: string)
    ensures |entries| > 0 && entries[0] == ("id", Str(id)) ==>
              BuildUrl(PostUrlFromIdOrForm, Form(entries)) == Some("/posts/" + id)
    ensures "id" in fields && fields["id"] == Str(id) ==>
              BuildUrl(PostUrlFromIdOrForm, Obj(fields)) == Some("/posts/" + id)
    ensures (forall i :: 0 <= i < |entries| ==> entries[i].0 != "id") ==>
              BuildUrl(PostUrlFromIdOrForm, Form(entries)) == Some("/posts/null")
    ensures "id" !in fields ==>
              BuildUrl(PostUrlFromId, Obj(fields)) == Some("/posts/undefined")
  {
    assert "/" + Endpoints.PostById(Str(id)) == "/posts/" + id;
    assert "/" + Endpoints.PostById(Null) == "/posts/null";
    assert "/" + Endpoints.PostById(Undefined) == "/posts/undefined";
  }
}
