/**
  The authentication hooks (src/services/authService.js). Unlike the other
  services, both place their `onSuccess` AFTER `...options`, so the caller's
  `onSuccess` is wrapped rather than replacing the service's.
*/
module AuthService {

  import opened JsValues
  import opened Closures
  import opened Browser
  import Endpoints
  import Api

  /** `useLogin(options)`: POST /users/signin, with a success handler that persists the token first. */
  function Login(options: Options): (r: Options)
    ensures r.Keys == options.Keys + {MutationFn, OnSuccess, OnError}
    ensures r[OnSuccess] == Fn(PersistToken(Get(options, OnSuccess)))
    ensures forall k :: k in options && k != OnSuccess ==> r[k] == options[k]
    ensures MutationFn !in options ==> r[MutationFn] == Fn(MutationFetch("post", Path("/" + Endpoints.Login)))
  {
    Api.MutationOptions("post", Path("/" + Endpoints.Login),
      Spread(options, map[OnSuccess := Fn(PersistToken(Get(options, OnSuccess)))]))
  }

  /** `useSignup(options)`: POST /users/signup, with a success handler that only forwards. */
  function Signup(options: Options): (r: Options)
    ensures r.Keys == options.Keys + {MutationFn, OnSuccess, OnError}
    ensures r[OnSuccess] == Fn(ForwardOnSuccess(Get(options, OnSuccess)))
    ensures forall k :: k in options && k != OnSuccess ==> r[k] == options[k]
    ensures MutationFn !in options ==> r[MutationFn] == Fn(MutationFetch("post", Path("/" + Endpoints.Signup)))
  {
    Api.MutationOptions("post", Path("/" + Endpoints.Signup),
      Spread(options, map[OnSuccess := Fn(ForwardOnSuccess(Get(options, OnSuccess)))]))
  }

  /** The effect of persisting `data?.token`, when it is truthy. */
  function TokenEffects(data: Value): seq<Effect> {
    var token := OptionalMember(data, "token");
    if Truthy(token) then [TokenStored(token)] else []
  }

  /**
    A successful login stores `data.token` exactly when it is truthy and then
    calls the caller's `onSuccess`, whether or not a token was stored. The
    caller cannot bypass the storage step: its own `onSuccess` is what is
    forwarded to.
  */
  lemma LoginSuccessEffects(options: Options, data: Value)
    ensures Api.SuccessEffects(Login(options), data) == TokenEffects(data) + CallOptional(Get(options, OnSuccess), data)
  {
    ThrewConcat(TokenEffects(data), CallOptional(Get(options, OnSuccess), data));
  }

  /** A handler a component passes: none, or one of its own callbacks. */
  predicate ComponentHandler(f: Value) {
    Nullish(f) || (f.Fn? && f.closure.Callback?)
  }

  /**
    Login never invalidates a cache or shows a success toast, whatever the
    caller's `invalidateQueries` and `successMessage` say, because the
    wrapper of useApiMutation is always replaced.
  */
  lemma LoginNeverInvalidatesOrToasts(options: Options, data: Value)
    requires ComponentHandler(Get(options, OnSuccess))
    ensures forall e :: e in Api.SuccessEffects(Login(options), data) ==> !e.Invalidated? && !e.ToastedSuccess?
  {
    LoginSuccessEffects(options, data);
  }

  /** Signup's success handler calls the caller's `onSuccess` and does nothing else. */
  lemma SignupForwardsOnly(options: Options, data: Value)
    ensures Api.SuccessEffects(Signup(options), data) == CallOptional(Get(options, OnSuccess), data)
  {
  }

  /** Both hooks send a POST of the fixed path with the variables as body. */
  lemma AuthRequests(data: Value)
    ensures Run(Login(map[])[MutationFn].closure, data) == [Requested("post", Path("/users/signin"), data)]
    ensures Run(Signup(map[])[MutationFn].closure, data) == [Requested("post", Path("/users/signup"), data)]
  {
    assert "/" + Endpoints.Login == "/users/signin";
    assert "/" + Endpoints.Signup == "/users/signup";
  }

  /**
    The storage step of the login `onSuccess`, performed on the browser: a
    truthy `data.token` is written under "access_token", and nothing else
    changes.
  */
  method PersistLoginToken(w: Window, data: Value)
    modifies w
    ensures var token := OptionalMember(data, "token");
            w.storage == if Truthy(token) then old(w.storage)[TokenKey := Render(token)] else old(w.storage)
    ensures w.location == old(w.location) && w.toasts == old(w.toasts) && w.routes == old(w.routes)
  {
    var token := OptionalMember(data, "token");
    if Truthy(token) {
      w.SetItem(TokenKey, token);
    }
  }
}
