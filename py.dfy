/** The pieces of Python semantics the back end relies on: truthiness,
    subscription (`v[k]`), `dict.get`, iteration, `in`, `str`/`repr`,
    `str.strip`, `str.split` and the exceptions they raise. */
module Py {
  import opened Json

  /** A raised exception: its class name (`type(e).__name__`), `str(e)`, and
      the text of the HTTP response an exception of the requests library
      carries (`e.response`), when it carries one. */
  datatype Exc = Exc(name: string, message: string, response: Option<string>)

  /** The outcome of a Python computation: a value, or an exception raised. */
  datatype Result<+T> = Ok(value: T) | Raised(exc: Exc)

  function Error(name: string, message: string): Exc {
    Exc(name, message, None)
  }

  /** `type(v).__name__` of a value decoded from JSON or YAML. */
  function TypeName(v: Json): string {
    match v
    case JUndefined => "NoneType"
    case JNull => "NoneType"
    case JBool(_) => "bool"
    case JNum(_) => "int"
    case JStr(_) => "str"
    case JArr(_) => "list"
    case JObj(_) => "dict"
  }

  /** `bool(v)`: None, False, 0 and empty strings, lists and dicts are falsy. */
  predicate Truthy(v: Json) {
    match v
    case JUndefined => false
    case JNull => false
    case JBool(b) => b
    case JNum(n) => n != 0
    case JStr(s) => s != ""
    case JArr(items) => items != []
    case JObj(m) => m != map[]
  }

  predicate Hashable(v: Json) {
    !v.JArr? && !v.JObj?
  }

  /** `repr(v)` of a hashable (scalar) value; quoting of special characters
      inside strings is not modelled. */
  function ScalarRepr(v: Json): string
    requires Hashable(v)
  {
    match v
    case JStr(s) => "'" + s + "'"
    case JNum(n) => IntText(n)
    case JBool(b) => if b then "True" else "False"
    case _ => "None"
  }

  /** `repr(v)`. Lists are rendered here; a dict's rendering depends on its
      insertion order, which the model does not keep, so it is a parameter. */
  function Repr(v: Json, dictRepr: map<string, Json> -> string): string
    decreases v, 1
  {
    match v
    case JArr(items) => "[" + ReprItems(items, dictRepr) + "]"
    case JObj(m) => dictRepr(m)
    case _ => ScalarRepr(v)
  }

  function ReprItems(items: seq<Json>, dictRepr: map<string, Json> -> string): string
    decreases items, 0
  {
    if items == [] then ""
    else if |items| == 1 then Repr(items[0], dictRepr)
    else Repr(items[0], dictRepr) + ", " + ReprItems(items[1..], dictRepr)
  }

  /** `str(v)`: a string is itself, anything else its `repr`. */
  function Str(v: Json, dictRepr: map<string, Json> -> string): (r: string)
    ensures v.JStr? ==> r == v.s
  {
    if v.JStr? then v.s else Repr(v, dictRepr)
  }

  /** The integer a value denotes as a list index (`bool` is a subclass of
      `int` in Python). */
  function AsIndex(k: Json): Option<int> {
    match k
    case JNum(n) => Some(n)
    case JBool(b) => Some(if b then 1 else 0)
    case _ => None
  }

  function KeyError(k: Json): Exc
    requires Hashable(k)
  {
    Error("KeyError", ScalarRepr(k))
  }

  /** `v[k]`: a dict looks the key up (KeyError when absent); a list or a
      string takes an integer index, negative ones counting from the end
      (IndexError when out of range); anything else raises TypeError. */
  function Sub(v: Json, k: Json): (r: Result<Json>)
    ensures r.Ok? && v.JObj? ==> k.JStr? && k.s in v.fields && r.value == v.fields[k.s]
    ensures r.Ok? ==> v.JObj? || v.JArr? || v.JStr?
  {
    match v
    case JObj(m) =>
      if !Hashable(k) then Raised(Error("TypeError", "unhashable type: '" + TypeName(k) + "'"))
      else if k.JStr? && k.s in m then Ok(m[k.s])
      else Raised(KeyError(k))
    case JArr(items) =>
      (match AsIndex(k)
       case None => Raised(Error("TypeError", "list indices must be integers or slices, not " + TypeName(k)))
       case Some(i) =>
         if -|items| <= i < |items| then Ok(items[if i < 0 then i + |items| else i])
         else Raised(Error("IndexError", "list index out of range")))
    case JStr(s) =>
      (match AsIndex(k)
       case None => Raised(Error("TypeError", "string indices must be integers, not '" + TypeName(k) + "'"))
       case Some(i) =>
         if -|s| <= i < |s| then Ok(JStr([s[if i < 0 then i + |s| else i]]))
         else Raised(Error("IndexError", "string index out of range")))
    case _ => Raised(Error("TypeError", "'" + TypeName(v) + "' object is not subscriptable"))
  }

  /** `v[key]` with a string literal key. */
  function Key(v: Json, key: string): Result<Json> {
    Sub(v, JStr(key))
  }

  /** `v[0]`. */
  function First(v: Json): Result<Json> {
    Sub(v, JNum(0))
  }

  /** `v.get(key, default)`: only a dict has `get`; anything else raises
      AttributeError. */
  function Get(v: Json, key: string, default: Json): (r: Result<Json>)
    ensures r.Ok? <==> v.JObj?
    ensures v.JObj? ==> r.value == if key in v.fields then v.fields[key] else default
  {
    if v.JObj? then Ok(if key in v.fields then v.fields[key] else default)
    else Raised(Error("AttributeError", "'" + TypeName(v) + "' object has no attribute 'get'"))
  }

  /** `for x in v`: a list yields its items, a string its characters, a dict
      its keys; anything else raises TypeError. A dict's keys come in
      insertion order, which the model does not keep: they are given here as
      empty-string placeholders, one per key. Every loop of the core that
      iterates a dict fails on the first key with a message that does not
      depend on the key. */
  function Iterate(v: Json): (r: Result<seq<Json>>)
    ensures v.JArr? ==> r == Ok(v.items)
    ensures r.Ok? <==> v.JArr? || v.JStr? || v.JObj?
    ensures r.Ok? && !v.JArr? ==> forall i :: 0 <= i < |r.value| ==> r.value[i].JStr?
  {
    match v
    case JArr(items) => Ok(items)
    case JStr(s) => Ok(seq(|s|, i requires 0 <= i < |s| => JStr([s[i]])))
    case JObj(m) => Ok(seq(|m|, _ => JStr("")))
    case _ => Raised(Error("TypeError", "'" + TypeName(v) + "' object is not iterable"))
  }

  /** `needle in v`: a dict tests its keys, a list its items, a string its
      substrings; anything else raises TypeError. */
  function In(needle: string, v: Json): Result<bool> {
    match v
    case JObj(m) => Ok(needle in m)
    case JArr(items) => Ok(JStr(needle) in items)
    case JStr(s) => Ok(Contains(s, needle))
    case _ => Raised(Error("TypeError", "argument of type '" + TypeName(v) + "' is not iterable"))
  }

  /** `needle` occurs in `s` as a contiguous substring. */
  predicate Contains(s: string, needle: string)
    decreases |s|
  {
    |needle| <= |s| && (s[..|needle|] == needle || Contains(s[1..], needle))
  }

  /** `c.isspace()`: the characters Python treats as whitespace. */
  predicate IsSpace(c: char) {
    c == ' ' || ('\t' <= c <= '\r') || ('\U{1C}' <= c <= '\U{1F}') || c == '\U{85}' || c == '\U{A0}'
    || c == '\U{1680}' || ('\U{2000}' <= c <= '\U{200A}') || c == '\U{2028}' || c == '\U{2029}'
    || c == '\U{202F}' || c == '\U{205F}' || c == '\U{3000}'
  }

  function StripStart(s: string): (r: string)
    ensures r == [] || !IsSpace(r[0])
    ensures |r| <= |s| && r == s[|s| - |r|..]
  {
    if s != [] && IsSpace(s[0]) then StripStart(s[1..]) else s
  }

  function StripEnd(s: string): (r: string)
    ensures r == [] || !IsSpace(r[|r| - 1])
    ensures |r| <= |s| && r == s[..|r|]
  {
    if s != [] && IsSpace(s[|s| - 1]) then StripEnd(s[..|s| - 1]) else s
  }

  /** `s.strip()`. */
  function Strip(s: string): string {
    StripEnd(StripStart(s))
  }

  predicate AllSpace(s: string) {
    forall i :: 0 <= i < |s| ==> IsSpace(s[i])
  }

  lemma {:induction false} StripStartAllSpace(s: string)
    ensures StripStart(s) == [] <==> AllSpace(s)
    decreases |s|
  {
    if s != [] && IsSpace(s[0]) {
      StripStartAllSpace(s[1..]);
      assert AllSpace(s) <==> AllSpace(s[1..]) by {
        if AllSpace(s[1..]) {
          forall i | 0 <= i < |s| ensures IsSpace(s[i]) {
            if i > 0 { assert s[i] == s[1..][i - 1]; }
          }
        }
      }
    }
  }

  /** Stripping leaves a string that neither starts nor ends with
      whitespace, and it is empty exactly when the input is all whitespace. */
  lemma StripProperties(s: string)
    ensures Strip(s) == [] <==> AllSpace(s)
    ensures Strip(s) != [] ==> !IsSpace(Strip(s)[0]) && !IsSpace(Strip(s)[|Strip(s)| - 1])
  {
    StripStartAllSpace(s);
    var t := StripStart(s);
    if t != [] {
      assert StripEnd(t) != [] by {
        assert !IsSpace(t[0]);
        StripEndKeepsHead(t);
      }
      assert Strip(s)[0] == t[0];
    }
  }

  lemma {:induction false} StripEndKeepsHead(t: string)
    requires t != [] && !IsSpace(t[0])
    ensures StripEnd(t) != [] && StripEnd(t)[0] == t[0]
    decreases |t|
  {
    if IsSpace(t[|t| - 1]) {
      StripEndKeepsHead(t[..|t| - 1]);
    }
  }

  /** `s.split(sep)` with an explicit one-character separator: consecutive
      separators yield empty pieces, and there is always at least one piece. */
  function Split(s: string, sep: char): (r: seq<string>)
    ensures |r| >= 1
  {
    if s == [] then [""]
    else if s[0] == sep then [""] + Split(s[1..], sep)
    else
      var rest := Split(s[1..], sep);
      [[s[0]] + rest[0]] + rest[1..]
  }

  /** A piece without the separator, then the separator: the piece comes
      first and the rest is split on its own. */
  lemma {:induction false} SplitAfter(piece: string, sep: char, rest: string)
    requires sep !in piece
    ensures Split(piece + [sep] + rest, sep) == [piece] + Split(rest, sep)
    decreases |piece|
  {
    if piece == [] {
      assert piece + [sep] + rest == [sep] + rest;
      assert ([sep] + rest)[1..] == rest;
    } else {
      var s := piece + [sep] + rest;
      assert s[0] == piece[0] && s[1..] == piece[1..] + [sep] + rest;
      SplitAfter(piece[1..], sep, rest);
      assert [piece[0]] + piece[1..] == piece;
    }
  }

  /** A string without the separator is one piece. */
  lemma {:induction false} SplitWhole(s: string, sep: char)
    requires sep !in s
    ensures Split(s, sep) == [s]
    decreases |s|
  {
    if s != [] {
      SplitWhole(s[1..], sep);
      assert [s[0]] + s[1..] == s;
    }
  }

  /** `s.startswith(prefix)`. */
  predicate StartsWith(s: string, prefix: string) {
    |prefix| <= |s| && s[..|prefix|] == prefix
  }
}
