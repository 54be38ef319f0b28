/**
  The browser state the client touches: `localStorage`, `window.location`,
  the toast notifications it shows and the router navigations it asks for.
  Toasts and navigations are kept as logs, oldest first.
*/
module Browser {

  import opened JsValues

  /** The storage key under which the session token is persisted. */
  const TokenKey := "access_token"

  datatype Toast = SuccessToast(message: Value) | ErrorToast(message: Value)

  class Window {
    var storage: map<string, string>
    var location: string
    var toasts: seq<Toast>
    var routes: seq<string>

    constructor (storage: map<string, string>, location: string)
      ensures this.storage == storage && this.location == location
      ensures toasts == [] && routes == []
    {
      this.storage := storage;
      this.location := location;
      toasts := [];
      routes := [];
    }

    /** `localStorage.getItem(key)`: the stored string, or `null`. */
    function GetItem(key: string): (v: Value)
      reads this
      ensures v == Null <==> key !in storage
      ensures key in storage ==> v == Str(storage[key])
    {
      if key in storage then Str(storage[key]) else Null
    }

    /** `localStorage.setItem(key, value)` stores `String(value)`. */
    method SetItem(key: string, value: Value)
      modifies this
      ensures storage == old(storage)[key := Render(value)]
      ensures location == old(location) && toasts == old(toasts) && routes == old(routes)
    {
      storage := storage[key := Render(value)];
    }

    /** `localStorage.removeItem(key)`. */
    method RemoveItem(key: string)
      modifies this
      ensures storage == old(storage) - {key}
      ensures location == old(location) && toasts == old(toasts) && routes == old(routes)
    {
      storage := storage - {key};
    }

    method Show(t: Toast)
      modifies this
      ensures toasts == old(toasts) + [t]
      ensures storage == old(storage) && location == old(location) && routes == old(routes)
    {
      toasts := toasts + [t];
    }

    /** react-router's `navigate(path)`. */
    method Navigate(path: string)
      modifies this
      ensures routes == old(routes) + [path]
      ensures storage == old(storage) && location == old(location) && toasts == old(toasts)
    {
      routes := routes + [path];
    }

    /** `window.location.href = href`. */
    method Assign(href: string)
      modifies this
      ensures location == href
      ensures storage == old(storage) && toasts == old(toasts) && routes == old(routes)
    {
      location := href;
    }
  }
}
