/**
  The JavaScript values the client passes around: option objects, response
  payloads, ids, and function values. Option objects are maps from property
  names to values; object spread is map union in which the later object wins.
  Function values are symbolic closures: a callback written by a component is
  known only by its name, and each closure the client itself builds records the
  values it captured, so that calling it can be given a meaning in `Closures`.
*/
module JsValues {

  import opened Wrappers

  datatype Value =
    | Undefined
    | Null
    | Bool(b: bool)
    | Num(n: int)
    | Str(s: string)
    | Arr(items: seq<Value>)
    | Obj(fields: Fields)
    | Form(entries: seq<(string, Value)>)   // a FormData, in insertion order
    | Fn(closure: Closure)

  /** What a URL argument of `useApiMutation` is: a path, or a function of the mutation's data. */
  datatype Target = Path(path: string) | Builder(builder: UrlBuilder)

  /** The URL functions that postService.js hands to `useApiMutation`. */
  datatype UrlBuilder =
    | PostUrlFromIdOrForm   // UpdatePost: id from FormData.get('id') or data.id
    | PostUrlFromId         // DeletePost, LikePost: data.id
    | CommentUrlFromId      // DeleteComment: data.id

  /** The function values that occur in the client's option objects. */
  datatype Closure =
    | Callback(name: string)                              // written by a calling component
    | QueryFetch(path: string)                            // useApiQuery's queryFn
    | MutationFetch(httpMethod: string, target: Target)       // useApiMutation's mutationFn
    | MutationOnSuccess(invalidate: Value, forward: Value, successMessage: Value)
    | MutationOnError(forward: Value)
    | ForwardOnSuccess(forward: Value)                    // the service hooks' trailing onSuccess
    | PersistToken(forward: Value)                        // the login service's onSuccess

  /** The properties of a plain object, such as a response payload or a header set. */
  type Fields = map<string, Value>

  /**
    The properties of the option objects the client builds and passes to the
    query library. Every property the client itself names has a constructor;
    a caller may add any other property, `Other(name)`, which nothing here reads.
  */
  datatype Prop =
    | QueryKey | QueryFn | MutationFn | OnSuccess | OnError
    | Enabled | Retry | RefetchOnWindowFocus | RefetchOnMount | RefetchInterval
    | StaleTime | GcTime | StructuralSharing
    | InvalidateQueries | SkipLoading | SuccessMessage
    | Other(name: string)

  /** An option object. */
  type Options = map<Prop, Value>

  /** JavaScript truthiness (numbers are integers here, so NaN does not arise). */
  predicate Truthy(v: Value) {
    match v
    case Undefined => false
    case Null => false
    case Bool(b) => b
    case Num(n) => n != 0
    case Str(s) => s != ""
    case _ => true
  }

  predicate Nullish(v: Value) {
    v == Undefined || v == Null
  }

  /** `o.k`: a missing property reads as `undefined`. */
  function Get<K>(o: map<K, Value>, k: K): (v: Value)
    ensures k !in o ==> v == Undefined
    ensures k in o ==> v == o[k]
  {
    if k in o then o[k] else Undefined
  }

  /** `{...base, ...over}`: every property of `over` replaces the one of `base`. */
  function Spread<K>(base: map<K, Value>, over: map<K, Value>): (r: map<K, Value>)
    ensures r.Keys == base.Keys + over.Keys
    ensures forall k :: k in over ==> r[k] == over[k]
    ensures forall k :: k in base && k !in over ==> r[k] == base[k]
  {
    base + over
  }

  /** `v.k`: `None` when reading a property of `null` or `undefined` throws a TypeError. */
  function Member(v: Value, k: string): (r: Option<Value>)
    ensures r.None? <==> Nullish(v)
    ensures v.Obj? ==> r == Some(Get(v.fields, k))
  {
    match v
    case Undefined => None
    case Null => None
    case Obj(fields) => Some(Get(fields, k))
    case _ => Some(Undefined)
  }

  /** `v?.k`: `undefined` on a nullish value, the property otherwise. */
  function OptionalMember(v: Value, k: string): (r: Value)
    ensures Nullish(v) ==> r == Undefined
    ensures !Nullish(v) ==> Member(v, k) == Some(r)
  {
    if Nullish(v) then Undefined else Member(v, k).value
  }

  /** `FormData.prototype.get`: the first value stored under `name`, else `null`. */
  function FormGet(entries: seq<(string, Value)>, name: string): (r: Value)
    ensures (forall i :: 0 <= i < |entries| ==> entries[i].0 != name) ==> r == Null
    ensures forall i :: 0 <= i < |entries| && entries[i].0 == name && (forall j :: 0 <= j < i ==> entries[j].0 != name) ==>
              r == entries[i].1
  {
    if entries == [] then Null
    else if entries[0].0 == name then entries[0].1
    else FormGet(entries[1..], name)
  }

  /** The string a template literal `${v}` produces. */
  function Render(v: Value): string {
    match v
    case Undefined => "undefined"
    case Null => "null"
    case Bool(b) => if b then "true" else "false"
    case Num(n) => if n < 0 then "-" + NatToString(-n) else NatToString(n)
    case Str(s) => s
    case Arr(items) =>
      // Array.prototype.join renders `null` and `undefined` elements as the empty string
      JoinWithCommas(seq(|items|, i requires 0 <= i < |items| => if Nullish(items[i]) then "" else Render(items[i])))
    case Obj(_) => "[object Object]"
    case Form(_) => "[object FormData]"
    case Fn(_) => "function"   // the source text of the function; not modelled
  }

  function JoinWithCommas(parts: seq<string>): string {
    if parts == [] then ""
    else if |parts| == 1 then parts[0]
    else parts[0] + "," + JoinWithCommas(parts[1..])
  }

  function NatToString(n: nat): string {
    if n < 10 then [DigitChar(n)] else NatToString(n / 10) + [DigitChar(n % 10)]
  }

  function DigitChar(d: nat): char
    requires d < 10
  {
    ['0', '1', '2', '3', '4', '5', '6', '7', '8', '9'][d]
  }

  /** The white space and line terminators String.prototype.trim removes (ECMAScript's WhiteSpace and LineTerminator). */
  predicate IsTrimmable(c: char) {
    || c == ' ' || c == '\t' || c == '\n' || c == '\r' || c == '\U{000B}' || c == '\U{000C}'
    || c == '\U{00A0}' || c == '\U{FEFF}' || c == '\U{1680}' || ('\U{2000}' <= c <= '\U{200A}')
    || c == '\U{2028}' || c == '\U{2029}' || c == '\U{202F}' || c == '\U{205F}' || c == '\U{3000}'
  }

  function TrimStart(s: string): (r: string)
    ensures |r| <= |s| && r == s[|s| - |r|..]
    ensures r == [] || !IsTrimmable(r[0])
  {
    if s != [] && IsTrimmable(s[0]) then TrimStart(s[1..]) else s
  }

  function TrimEnd(s: string): (r: string)
    ensures |r| <= |s| && r == s[..|r|]
    ensures r == [] || !IsTrimmable(r[|r| - 1])
  {
    if s != [] && IsTrimmable(s[|s| - 1]) then TrimEnd(s[..|s| - 1]) else s
  }

  /** String.prototype.trim. */
  function Trim(s: string): string {
    TrimEnd(TrimStart(s))
  }

  predicate AllTrimmable(s: string) {
    forall i :: 0 <= i < |s| ==> IsTrimmable(s[i])
  }

  lemma {:induction false} TrimStartEmptyIff(s: string)
    ensures TrimStart(s) == [] <==> AllTrimmable(s)
  {
    if s == [] {
    } else if IsTrimmable(s[0]) {
      var tail := s[1..];
      TrimStartEmptyIff(tail);
      assert TrimStart(s) == TrimStart(tail);
      if AllTrimmable(tail) {
        forall i | 0 <= i < |s| ensures IsTrimmable(s[i]) {
          if i > 0 { assert s[i] == tail[i - 1]; }
        }
      }
    } else {
      assert TrimStart(s) == s;
    }
  }

  lemma {:induction false} TrimEndEmptyIff(s: string)
    ensures TrimEnd(s) == [] <==> AllTrimmable(s)
  {
    if s != [] && IsTrimmable(s[|s| - 1]) {
      var init := s[..|s| - 1];
      TrimEndEmptyIff(init);
      assert AllTrimmable(init) <==> AllTrimmable(s) by {
        if AllTrimmable(init) {
          forall i | 0 <= i < |s| ensures IsTrimmable(s[i]) {
            if i < |s| - 1 { assert s[i] == init[i]; }
          }
        }
      }
    }
  }

  /** `s.trim()` is empty exactly when every character of `s` is white space or a line terminator. */
  lemma TrimEmptyIff(s: string)
    ensures Trim(s) == "" <==> AllTrimmable(s)
  {
    var t := TrimStart(s);
    TrimStartEmptyIff(s);
    TrimEndEmptyIff(t);
  }
}
