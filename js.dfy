/**
 * JSON values as `JSON.parse` produces them, property access on them, and
 * JavaScript's conversion of a value to text when it is concatenated to a
 * string (`'x' + v`). Numbers are integers here.
 */
module Js {
  import opened Wrappers

  datatype Json =
    | JNull
    | JBool(b: bool)
    | JNumber(n: int)
    | JString(s: string)
    | JArray(items: seq<Json>)
    | JObject(fields: map<string, Json>)

  /** Reading `v.key`: `None` is `undefined`; reading a property of `null` is a TypeError. */
  datatype Access = Value(v: Option<Json>) | TypeError

  /** The property names the service reads; no prototype of a JSON value defines them. */
  predicate OwnOnlyKey(key: string) {
    key == "message" || key == "path"
  }

  /** `v.key` for a key found only as an own property. */
  function Member(v: Json, key: string): (a: Access)
    requires OwnOnlyKey(key)
    ensures a.TypeError? <==> v.JNull?
    ensures a.Value? && a.v.Some? ==> v.JObject? && key in v.fields && a.v.value == v.fields[key]
    ensures v.JObject? && key in v.fields ==> a == Value(Some(v.fields[key]))
  {
    match v
    case JNull => TypeError
    case JObject(m) => if key in m then Value(Some(m[key])) else Value(None)
    case _ => Value(None)
  }

  function DigitChar(d: nat): char
    requires d < 10
  {
    "0123456789"[d]
  }

  /** Decimal text of a natural number, most significant digit first. */
  function NatText(n: nat): string {
    if n < 10 then [DigitChar(n)] else NatText(n / 10) + [DigitChar(n % 10)]
  }

  function IntText(n: int): string {
    if n < 0 then "-" + NatText(-n) else NatText(n)
  }

  /**
   * The value holds an object with an own `toString` property where the text
   * conversion looks for one: itself, or an element of an array, at any depth.
   * Such a `toString` is never callable (JSON holds no functions), so the
   * conversion finds no method that yields a primitive and throws a TypeError.
   */
  predicate HasOwnToString(j: Json)
    decreases j
  {
    match j
    case JObject(m) => "toString" in m
    case JArray(items) => exists i :: 0 <= i < |items| && HasOwnToString(items[i])
    case _ => false
  }

  /** `'' + v` for a property value (`None` is `undefined`); `None` when the conversion throws. */
  function AsText(v: Option<Json>): (t: Option<string>)
    ensures v.None? ==> t == Some("undefined")
    ensures t.None? <==> v.Some? && HasOwnToString(v.value)
    ensures v.Some? && v.value.JString? ==> t == Some(v.value.s)
  {
    match v
    case None => Some("undefined")
    case Some(j) => JsonText(j)
  }

  /** The text of a JSON value, or `None` when the conversion throws. */
  function JsonText(j: Json): (t: Option<string>)
    ensures t.None? <==> HasOwnToString(j)
    ensures j.JString? ==> t == Some(j.s)
    ensures j.JObject? && !HasOwnToString(j) ==> t == Some("[object Object]")
    decreases j, 1
  {
    match j
    case JNull => Some("null")
    case JBool(b) => Some(if b then "true" else "false")
    case JNumber(n) => Some(IntText(n))
    case JString(s) => Some(s)
    case JArray(items) => JoinItems(j, items)
    case JObject(m) => if "toString" in m then None else Some("[object Object]")
  }

  /** `Array.prototype.join(',')`: `null` elements become the empty string; it throws when an element's text does. */
  function JoinItems(ghost parent: Json, items: seq<Json>): (t: Option<string>)
    requires forall i :: 0 <= i < |items| ==> items[i] < parent
    ensures t.None? <==> exists i :: 0 <= i < |items| && HasOwnToString(items[i])
    decreases parent, 0, |items|
  {
    if items == [] then Some("")
    else
      var head := if items[0].JNull? then Some("") else JsonText(items[0]);
      if head.None? then None
      else if |items| == 1 then head
      else
        var rest := JoinItems(parent, items[1..]);
        assert forall i :: 1 <= i < |items| ==> items[i] == items[1..][i - 1];
        if rest.None? then None else Some(head.value + "," + rest.value)
  }
}
