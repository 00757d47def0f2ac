/** The JavaScript values the core builds, inspects and sends: JSON-like values,
    truthiness, `String(v)`, property lookup, and the (status, body) pair that
    Hono's `c.json(body, status)` produces. */
module Js {
  import Text

  datatype Option<+T> = None | Some(value: T) {
    function GetOr(default: T): T
    {
      match this
      case Some(v) => v
      case None => default
    }
  }

  /** A JavaScript value that can travel through JSON. Numbers are modelled by
      their integral values only (every number the core produces is an
      integer: status codes and elapsed milliseconds). Object properties keep
      their insertion order, which is also the order `JSON.stringify` prints. */
  datatype JsValue =
    | Undefined
    | Null
    | Bool(b: bool)
    | Num(n: int)
    | Str(s: string)
    | Arr(items: seq<JsValue>)
    | Obj(props: seq<(string, JsValue)>)

  /** Truthiness as `if (v)` and `a || b` test it. */
  predicate Truthy(v: JsValue)
  {
    match v
    case Undefined => false
    case Null => false
    case Bool(b) => b
    case Num(n) => n != 0
    case Str(s) => s != ""
    case Arr(_) => true
    case Obj(_) => true
  }

  /** An optional string argument, as `if (message)` tests it: absent or empty is falsy. */
  predicate PresentText(s: Option<string>)
  {
    s.Some? && s.value != ""
  }

  /** `String(v)`. Array elements that are null or undefined print as the empty string. */
  function ToJsString(v: JsValue): (r: string)
    ensures r == "" ==> v.Str? || v.Arr?
    decreases v
  {
    match v
    case Undefined => "undefined"
    case Null => "null"
    case Bool(b) => if b then "true" else "false"
    case Num(n) => Text.IntToDecimal(n)
    case Str(s) => s
    case Arr(items) =>
      Text.Join(seq(|items|, i requires 0 <= i < |items| =>
                      if items[i].Undefined? || items[i].Null? then "" else ToJsString(items[i])), ',')
    case Obj(_) => "[object Object]"
  }

  /** The value of the first property named `key` in a property list. */
  function Find(props: seq<(string, JsValue)>, key: string): Option<JsValue>
  {
    if props == [] then None
    else if props[0].0 == key then Some(props[0].1)
    else Find(props[1..], key)
  }

  /** Lookup in a property list written out pair by pair. */
  lemma FindPairs(props: seq<(string, JsValue)>, key: string)
    requires |props| <= 4
    ensures Find(props, key) ==
      if |props| >= 1 && props[0].0 == key then Some(props[0].1)
      else if |props| >= 2 && props[1].0 == key then Some(props[1].1)
      else if |props| >= 3 && props[2].0 == key then Some(props[2].1)
      else if |props| >= 4 && props[3].0 == key then Some(props[3].1)
      else None
  {
    if props != [] {
      assert |props[1..]| <= 3;
      if |props| >= 2 {
        assert props[1..][1..] == props[2..];
        if |props| >= 3 {
          assert props[2..][1..] == props[3..];
          if |props| >= 4 {
            assert props[3..][1..] == [];
          }
        }
      }
    }
  }

  /** `v[key]` on an object, `None` when the object has no such property. */
  function Lookup(v: JsValue, key: string): Option<JsValue>
  {
    if v.Obj? then Find(v.props, key) else None
  }

  /** The property names of an object, in order. */
  function Keys(v: JsValue): seq<string>
  {
    if v.Obj? then seq(|v.props|, i requires 0 <= i < |v.props| => v.props[i].0) else []
  }

  /** What `c.json(body, status)` hands back to Hono: an HTTP status and a JSON body. */
  datatype Reply = Reply(status: int, body: JsValue)
}
