/**
  The route guard (src/components/Protect/Protect.Route.jsx). Its effect
  reads the stored token and the session's `isAuthenticated` and `userData`,
  and decides whether to send the browser to /login and whether to keep
  showing the "Verifying authentication..." view.
*/
module ProtectRoute {

  import opened JsValues
  import opened Browser
  import AuthContext

  const LoginRoute := "/login"

  datatype Decision = Decision(navigateToLogin: bool, checking: bool)

  /** What the guard renders: the verifying view while checking, the protected page otherwise. */
  datatype View = Verifying | Children

  /**
    The guard's decision table. It redirects exactly when no token is stored,
    or when the session is not authenticated although user data is not `null`;
    it keeps checking exactly when a token is stored, the session is not
    authenticated and the user data is still `null`. It never does both.
  */
  function Decide(token: Value, isAuthenticated: bool, userData: Value): (d: Decision)
    ensures d.navigateToLogin <==> !Truthy(token) || (!isAuthenticated && userData != Null)
    ensures d.checking <==> Truthy(token) && !isAuthenticated && userData == Null
    ensures !(d.navigateToLogin && d.checking)
  {
    if !Truthy(token) then Decision(true, false)
    else if !isAuthenticated && userData == Null then Decision(false, true)
    else if !isAuthenticated then Decision(true, false)
    else Decision(false, false)
  }

  class Guard {
    var isChecking: bool

    /** The guard starts out checking. */
    constructor ()
      ensures isChecking && Render() == Verifying
    {
      isChecking := true;
    }

    function Render(): View
      reads this
    {
      if isChecking then Verifying else Children
    }

    /** The guard's effect: navigate if the table says so, and set `isChecking` to its verdict. */
    method Effect(w: Window, isAuthenticated: bool, userData: Value)
      modifies this, w
      ensures var d := Decide(old(w.GetItem(TokenKey)), isAuthenticated, userData);
              isChecking == d.checking
              && w.routes == old(w.routes) + (if d.navigateToLogin then [LoginRoute] else [])
      ensures w.storage == old(w.storage) && w.location == old(w.location) && w.toasts == old(w.toasts)
    {
      var token := w.GetItem(TokenKey);
      if !Truthy(token) {
        w.Navigate(LoginRoute);
        isChecking := false;
        return;
      }
      if !isAuthenticated && userData == Null {
        isChecking := true;
      } else if !isAuthenticated {
        w.Navigate(LoginRoute);
        isChecking := false;
      } else {
        isChecking := false;
      }
    }
  }

  /**
    With the provider's state: while the profile loads, a session holding a
    token passes the guard; once the profile has failed (user data `null`,
    no longer loading) the guard neither redirects nor lets the page through,
    and keeps showing the verifying view.
  */
  lemma GuardOverProviderState(token: Value, userData: Value)
    requires Truthy(token)
    ensures Decide(token, AuthContext.Authenticated(token, userData, true), userData) == Decision(false, false)
    ensures Decide(token, AuthContext.Authenticated(token, Null, false), Null) == Decision(false, true)
    ensures Truthy(userData) ==> Decide(token, AuthContext.Authenticated(token, userData, false), userData) == Decision(false, false)
  {
  }
}
