/**
  The session state (src/contexts/AuthContext.jsx): the token the provider
  holds, the user data the profile query delivered, and an error message,
  updated in place by `login`, `logout`, `checkToken` and the profile effect.
*/
module AuthContext {

  import opened Wrappers
  import opened JsValues
  import opened Browser
  import ProfileService

  const ProfileStaleTimeMs := 5 * 60 * 1000

  /** The options the provider passes to the profile query, given the stored token at mount. */
  function ProfileQueryOptions(storedItem: Value): Options {
    map[Enabled := Bool(Truthy(storedItem)), Retry := Bool(false), StaleTime := Num(ProfileStaleTimeMs)]
  }

  /**
    The provider's profile query: enabled exactly when a token is stored, never
    retried, stale after five minutes (its own value replaces the service's 0),
    still polling every 3000 ms.
  */
  function ProfileQuery(storedItem: Value): (r: Options)
    ensures Enabled in r && r[Enabled] == Bool(Truthy(storedItem))
    ensures Retry in r && r[Retry] == Bool(false)
    ensures StaleTime in r && r[StaleTime] == Num(300000)
    ensures RefetchInterval in r && r[RefetchInterval] == Num(3000)
  {
    var options := ProfileQueryOptions(storedItem);
    assert options[StaleTime] == Num(300000);
    assert Enabled in options && Retry in options && StaleTime in options && RefetchInterval !in options;
    ProfileService.GetProfile(options)
  }

  /** `!!(storedToken && (userData || profileLoading))`. */
  predicate Authenticated(storedToken: Value, userData: Value, profileLoading: bool) {
    Truthy(storedToken) && (Truthy(userData) || profileLoading)
  }

  const TokenCheckFailed := "Token check failed"
  const LogoutFailed := "Logout failed"

  /** `err.message || fallback`, the error a `catch` records. */
  function CaughtError(message: Value, fallback: string): (e: Value)
    requires fallback != ""
    ensures Truthy(e)
    ensures Truthy(message) ==> e == message
    ensures !Truthy(message) ==> e == Str(fallback)
  {
    if Truthy(message) then message else Str(fallback)
  }

  class AuthProvider {
    var storedToken: Value
    var userData: Value
    var error: Value

    /** Mounting: the token is read from storage; no user data and no error yet. */
    constructor (w: Window)
      ensures storedToken == w.GetItem(TokenKey) && userData == Null && error == Null
    {
      storedToken := w.GetItem(TokenKey);
      userData := Null;
      error := Null;
    }

    /** The derived `isAuthenticated`, given whether the profile query is loading. */
    predicate IsAuthenticated(profileLoading: bool)
      reads this
    {
      Authenticated(storedToken, userData, profileLoading)
    }

    /**
      The profile effect: a successful load with data sets `userData` to it;
      otherwise an error clears it; otherwise nothing changes.
    */
    method ApplyProfile(isSuccess: bool, isError: bool, data: Value)
      modifies this
      ensures isSuccess && Truthy(data) ==> userData == data
      ensures !(isSuccess && Truthy(data)) && isError ==> userData == Null
      ensures !(isSuccess && Truthy(data)) && !isError ==> userData == old(userData)
      ensures storedToken == old(storedToken) && error == old(error)
    {
      if isSuccess && Truthy(data) {
        userData := data;
      } else if isError {
        userData := Null;
      }
    }

    /**
      `checkToken()`: with a token in storage the provider takes it and clears
      the error, answering true; without one it answers false and changes
      nothing. `fault` is `Some(message)` when reading storage throws an error
      with that `message`: the answer is false and the error is recorded.
    */
    method CheckToken(w: Window, fault: Option<Value>) returns (ok: bool)
      modifies this
      ensures fault.Some? ==> !ok && storedToken == old(storedToken)
                              && error == CaughtError(fault.value, TokenCheckFailed)
      ensures fault.None? ==> (ok <==> TokenKey in w.storage && w.storage[TokenKey] != "")
      ensures fault.None? && ok ==> storedToken == Str(w.storage[TokenKey]) && error == Null
      ensures fault.None? && !ok ==> storedToken == old(storedToken) && error == old(error)
      ensures userData == old(userData)
    {
      if fault.Some? {
        error := CaughtError(fault.value, TokenCheckFailed);
        return false;
      }
      var token := w.GetItem(TokenKey);
      if Truthy(token) {
        storedToken := token;
        error := Null;
        return true;
      }
      return false;
    }

    /**
      `login(token)`: a truthy token is persisted and held, and the answer is
      true; a falsy one is refused with false, and nothing changes. Once a
      token is held, the session is authenticated exactly when user data is
      present or the profile is loading.
    */
    method Login(w: Window, token: Value) returns (ok: bool)
      modifies this, w
      ensures ok == Truthy(token)
      ensures ok ==> storedToken == token && w.storage == old(w.storage)[TokenKey := Render(token)]
      ensures !ok ==> storedToken == old(storedToken) && w.storage == old(w.storage)
      ensures ok ==> forall loading :: IsAuthenticated(loading) <==> Truthy(userData) || loading
      ensures userData == old(userData) && error == old(error)
      ensures w.location == old(w.location) && w.toasts == old(w.toasts) && w.routes == old(w.routes)
    {
      if Truthy(token) {
        w.SetItem(TokenKey, token);
        storedToken := token;
        return true;
      }
      return false;
    }

    /**
      `logout()`: the persisted token is removed and token, user data and error
      are all cleared, so the session is no longer authenticated, whether or
      not the profile is loading. When removing the token throws (`fault` is
      `Some(message)`), nothing is cleared and the error is recorded.
    */
    method Logout(w: Window, fault: Option<Value>)
      modifies this, w
      ensures fault.None? ==> w.storage == old(w.storage) - {TokenKey}
      ensures fault.None? ==> storedToken == Null && userData == Null && error == Null
      ensures fault.None? ==> forall loading :: !IsAuthenticated(loading)
      ensures fault.Some? ==> w.storage == old(w.storage) && storedToken == old(storedToken)
                              && userData == old(userData) && error == CaughtError(fault.value, LogoutFailed)
      ensures w.location == old(w.location) && w.toasts == old(w.toasts) && w.routes == old(w.routes)
    {
      if fault.Some? {
        error := CaughtError(fault.value, LogoutFailed);
        return;
      }
      w.RemoveItem(TokenKey);
      storedToken := Null;
      userData := Null;
      error := Null;
    }
  }
}
