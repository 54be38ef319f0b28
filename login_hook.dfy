/**
  The login hook (src/hooks/useLogin.js): its `Login(email, password)`
  callback validates the arguments, calls the login mutation, hands the token
  to the session and maps every failure to an `{ error }` result, keeping the
  last error message and the last successful result as state.
*/
module LoginHook {

  import opened JsValues
  import opened Browser
  import Api
  import AuthService
  import AuthContext

  const RequiredMessage := "Email and password are required"
  const FailedMessage := "Login failed. Please try again."

  /** The `{ error: message }` object the callback answers with on failure. */
  function ErrorResult(message: Value): Value {
    Obj(map["error" := message])
  }

  /** The first argument is treated as a form event when it has a truthy `preventDefault`. */
  predicate IsFormEvent(email: Value) {
    Truthy(OptionalMember(email, "preventDefault"))
  }

  /**
    The argument dispatch: for a form event the e-mail is taken from the
    second argument and the password is `null`; otherwise both are taken as given.
  */
  function Arguments(email: Value, password: Value): (r: (Value, Value))
    ensures IsFormEvent(email) ==> r == (password, Null)
    ensures !IsFormEvent(email) ==> r == (email, password)
  {
    if IsFormEvent(email) then (password, Null) else (email, password)
  }

  /** Both the e-mail and the password are present (truthy). */
  predicate Complete(email: Value, password: Value) {
    var (emailValue, passwordValue) := Arguments(email, password);
    Truthy(emailValue) && Truthy(passwordValue)
  }

  /** A form event never passes validation: its password is always `null`. */
  lemma FormEventIncomplete(email: Value, password: Value)
    requires IsFormEvent(email)
    ensures !Complete(email, password)
  {
  }

  /** The message of a caught error: its `error` property if truthy, else the fallback. */
  function CaughtMessage(errorField: Value): (m: Value)
    ensures Truthy(m)
    ensures Truthy(errorField) ==> m == errorField
    ensures !Truthy(errorField) ==> m == Str(FailedMessage)
  {
    if Truthy(errorField) then errorField else Str(FailedMessage)
  }

  /**
    The transport rejects with the message itself, a string whenever the
    server sent no message object; a string has no `error` property, so the
    hook then always reports the fallback message, never the server's text.
  */
  lemma StringRejectionFallsBack(outcome: Api.HttpOutcome)
    requires outcome.Failed?
    ensures outcome.errorResponse.None? ==> Api.Settle(outcome).reason == Str(Api.GenericErrorMessage)
    ensures Api.Settle(outcome).reason.Str? ==>
              CaughtMessage(OptionalMember(Api.Settle(outcome).reason, "error")) == Str(FailedMessage)
  {
  }

  class LoginHook {
    var loginData: Value
    var error: Value

    constructor ()
      ensures loginData == Null && error == Null
    {
      loginData := Null;
      error := Null;
    }

    /**
      `Login(email, password)` against the session `auth`, with the HTTP
      outcome of the login request. Incomplete arguments are refused without
      a request. A response with a truthy token is stored, handed to the
      session and returned; one without is refused with the fallback message.
      A failed request is reported with the caught message.
    */
    method Login(auth: AuthContext.AuthProvider, w: Window, email: Value, password: Value, outcome: Api.HttpOutcome)
      returns (r: Value)
      modifies this, auth, w
      ensures !Complete(email, password) ==>
                r == ErrorResult(Str(RequiredMessage)) && error == Str(RequiredMessage)
                && loginData == old(loginData) && auth.storedToken == old(auth.storedToken)
                && w.storage == old(w.storage) && w.toasts == old(w.toasts) && w.location == old(w.location)
      ensures Complete(email, password) && outcome.Failed? ==>
                var m := CaughtMessage(OptionalMember(Api.Settle(outcome).reason, "error"));
                r == ErrorResult(m) && error == m
                && loginData == old(loginData) && auth.storedToken == old(auth.storedToken)
      ensures Complete(email, password) && outcome.Responded? ==>
                var data := outcome.response.data;
                var token := OptionalMember(data, "token");
                (Truthy(token) ==>
                   r == data && loginData == data && error == Null && auth.storedToken == token
                   && TokenKey in w.storage && w.storage[TokenKey] == Render(token))
                && (!Truthy(token) ==>
                   r == ErrorResult(Str(FailedMessage)) && error == Str(FailedMessage)
                   && loginData == old(loginData) && auth.storedToken == old(auth.storedToken))
      ensures auth.userData == old(auth.userData) && auth.error == old(auth.error)
      ensures w.routes == old(w.routes)
    {
      var (emailValue, passwordValue) := Arguments(email, password);
      if !Truthy(emailValue) || !Truthy(passwordValue) {
        error := Str(RequiredMessage);
        return ErrorResult(Str(RequiredMessage));
      }
      error := Null;
      var settled := Api.InterceptResponse(w, outcome);
      match settled {
        case Resolved(result) =>
          // the service's onSuccess runs before the mutation's promise resolves
          AuthService.PersistLoginToken(w, result);
          var token := Member(result, "token");
          if token.None? {
            // reading `result.token` threw; the TypeError has no `error` property
            error := Str(FailedMessage);
            return ErrorResult(Str(FailedMessage));
          }
          var ok := auth.Login(w, token.value);
          if ok {
            loginData := result;
            return result;
          }
          error := Str(FailedMessage);
          return ErrorResult(Str(FailedMessage));
        case Rejected(reason) =>
          var m := CaughtMessage(OptionalMember(reason, "error"));
          error := m;
          return ErrorResult(m);
      }
    }
  }
}
