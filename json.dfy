/** JSON-like values shared by the React front end and the Django back end,
    and the small Option wrapper used throughout. */
module Json {

  datatype Option<+T> = None | Some(value: T)

  /** A JSON value as both runtimes see it after parsing. `JUndefined` is the
      JavaScript `undefined` that a property read on a missing key produces; it
      never comes off the wire. Numbers are integers (see README, Left out). */
  datatype Json =
    | JUndefined
    | JNull
    | JBool(b: bool)
    | JNum(n: int)
    | JStr(s: string)
    | JArr(items: seq<Json>)
    | JObj(fields: map<string, Json>)

  /** A one-key object, the usual shape of an error body. */
  function Obj1(key: string, value: Json): (r: Json)
    ensures r.JObj? && r.fields.Keys == {key} && r.fields[key] == value
  {
    JObj(map[key := value])
  }

  function DigitChar(d: nat): (c: char)
    requires d < 10
    ensures '0' <= c <= '9'
  {
    ('0' as int + d) as char
  }

  /** Decimal rendering of a natural number, most significant digit first. */
  function NatText(n: nat): (r: string)
    ensures |r| >= 1
    ensures forall i :: 0 <= i < |r| ==> '0' <= r[i] <= '9'
    ensures n > 0 ==> r[0] != '0'
  {
    if n < 10 then [DigitChar(n)] else NatText(n / 10) + [DigitChar(n % 10)]
  }

  /** Decimal rendering of an integer, as both `String(n)` in JavaScript and
      `str(n)` in Python produce it for integral values. */
  function IntText(i: int): (r: string)
    ensures |r| >= 1
    ensures (r[0] == '-') <==> i < 0
  {
    if i < 0 then "-" + NatText(-i) else NatText(i)
  }

  /** Reading the digits back gives the number: the rendering loses nothing. */
  function DigitsValue(s: string): nat
    requires forall i :: 0 <= i < |s| ==> '0' <= s[i] <= '9'
  {
    if s == [] then 0 else DigitsValue(s[..|s| - 1]) * 10 + (s[|s| - 1] - '0') as nat
  }

  lemma {:induction false} NatTextRoundTrip(n: nat)
    ensures DigitsValue(NatText(n)) == n
  {
    if n >= 10 {
      NatTextRoundTrip(n / 10);
      var r := NatText(n);
      assert r[..|r| - 1] == NatText(n / 10);
      assert (r[|r| - 1] - '0') as nat == n % 10;
    }
  }
}
