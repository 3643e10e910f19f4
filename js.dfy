/** The few pieces of JavaScript semantics the front end relies on:
    truthiness, property reads, `typeof`, template-literal interpolation and
    `String.prototype.toUpperCase`. */
module Js {
  import opened Json

  /** `Boolean(v)`: undefined, null, false, 0 and "" are falsy. */
  predicate Truthy(v: Json) {
    match v
    case JUndefined => false
    case JNull => false
    case JBool(b) => b
    case JNum(n) => n != 0
    case JStr(s) => s != ""
    case JArr(_) => true
    case JObj(_) => true
  }

  predicate Nullish(v: Json) {
    v.JUndefined? || v.JNull?
  }

  /** The `typeof` operator. */
  function TypeOf(v: Json): (r: string)
    ensures r == "string" <==> v.JStr?
    ensures r == "object" <==> (v.JNull? || v.JArr? || v.JObj?)
  {
    match v
    case JUndefined => "undefined"
    case JNull => "object"
    case JBool(_) => "boolean"
    case JNum(_) => "number"
    case JStr(_) => "string"
    case JArr(_) => "object"
    case JObj(_) => "object"
  }

  /** `v.key` on a value that is not null or undefined: an own key of an
      object, otherwise `undefined` (no key the core reads is a built-in
      property of strings, numbers or arrays). */
  function Get(v: Json, key: string): (r: Json)
    ensures r != JUndefined ==> v.JObj? && key in v.fields
  {
    if v.JObj? && key in v.fields then v.fields[key] else JUndefined
  }

  /** `v?.key`: undefined when `v` is null or undefined. */
  function GetOpt(v: Json, key: string): (r: Json)
    ensures Nullish(v) ==> r == JUndefined
  {
    if Nullish(v) then JUndefined else Get(v, key)
  }

  /** The message of the TypeError thrown by `v.key` when `v` is null or
      undefined, in the wording of the V8 engine. */
  function ReadError(v: Json, key: string): string
    requires Nullish(v)
  {
    "Cannot read properties of " + (if v.JNull? then "null" else "undefined") + " (reading '" + key + "')"
  }

  /** `${v}` inside a template literal (`String(v)`): arrays join their elements
      with commas, rendering null and undefined elements as empty, and plain
      objects render as "[object Object]". */
  function Text(v: Json): string
    decreases v
  {
    match v
    case JUndefined => "undefined"
    case JNull => "null"
    case JBool(b) => if b then "true" else "false"
    case JNum(n) => IntText(n)
    case JStr(s) => s
    case JArr(items) => JoinItems(items)
    case JObj(_) => "[object Object]"
  }

  function JoinItems(items: seq<Json>): string
    decreases items
  {
    if items == [] then ""
    else
      var first := if Nullish(items[0]) then "" else Text(items[0]);
      if |items| == 1 then first else first + "," + JoinItems(items[1..])
  }

  function UpperChar(c: char): (u: char)
    ensures !('a' <= u <= 'z')
  {
    if 'a' <= c <= 'z' then (c as int - 32) as char else c
  }

  /** `s.toUpperCase()` restricted to ASCII letters (see README, Left out). */
  function Upper(s: string): (r: string)
    ensures |r| == |s|
    ensures forall i :: 0 <= i < |s| ==> r[i] == UpperChar(s[i])
  {
    seq(|s|, i requires 0 <= i < |s| => UpperChar(s[i]))
  }

  /** Upper-casing is idempotent: comparing after `toUpperCase` identifies
      every spelling that differs only in letter case. */
  lemma UpperIdempotent(s: string)
    ensures Upper(Upper(s)) == Upper(s)
  {
  }
}
