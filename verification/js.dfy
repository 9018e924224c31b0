/** The fragment of JavaScript value semantics that the bridge and the logger
    depend on: truthiness, property reads, `String(v)`, decimal rendering of
    integers and ASCII case mapping. */
module Js {

  datatype Option<+T> = None | Some(value: T) {
    function GetOr(default: T): T {
      match this
      case Some(v) => v
      case None => default
    }
  }

  /** A JavaScript value as far as these programs inspect it. Numbers are
      integers; `ErrorValue` is an `Error` instance; `Obj` is a plain object
      with its own enumerable properties. */
  datatype JsValue =
    | Undefined
    | Null
    | Bool(b: bool)
    | Num(n: int)
    | Str(s: string)
    | ErrorValue(name: string, message: string)
    | Obj(fields: map<string, JsValue>)

  /** `!!v` */
  predicate Truthy(v: JsValue) {
    match v
    case Undefined => false
    case Null => false
    case Bool(b) => b
    case Num(n) => n != 0
    case Str(s) => s != ""
    case _ => true
  }

  /** `a || b` */
  function Or(a: JsValue, b: JsValue): (r: JsValue)
    ensures Truthy(a) ==> r == a
    ensures !Truthy(a) ==> r == b
  {
    if Truthy(a) then a else b
  }

  /** `v[key]` for a non-nullish `v`, and `v?.[key]` for any `v`: primitives
      have none of the properties read here. */
  function Get(v: JsValue, key: string): JsValue {
    match v
    case Obj(fields) => if key in fields then fields[key] else Undefined
    case ErrorValue(name, message) =>
      if key == "name" then Str(name) else if key == "message" then Str(message) else Undefined
    case _ => Undefined
  }

  function DigitChar(d: nat): char
    requires d < 10
  {
    "0123456789"[d]
  }

  /** Decimal rendering of a natural number, as `String(n)` gives it. */
  function NatToString(n: nat): string
    decreases n
  {
    if n < 10 then [DigitChar(n)] else NatToString(n / 10) + [DigitChar(n % 10)]
  }

  function IntToString(n: int): string {
    if n < 0 then "-" + NatToString(-n) else NatToString(n)
  }

  lemma {:induction false} NatToStringShape(n: nat)
    ensures |NatToString(n)| >= 1
    ensures n >= 10 <==> |NatToString(n)| >= 2
    ensures NatToString(n)[|NatToString(n)| - 1] == DigitChar(n % 10)
    ensures forall i :: 0 <= i < |NatToString(n)| ==> '0' <= NatToString(n)[i] <= '9'
    decreases n
  {
    if n >= 10 {
      NatToStringShape(n / 10);
    }
  }

  /** Different numbers have different decimal renderings. */
  lemma {:induction false} NatToStringInjective(a: nat, b: nat)
    requires NatToString(a) == NatToString(b)
    ensures a == b
    decreases a
  {
    NatToStringShape(a);
    NatToStringShape(b);
    if a >= 10 && b >= 10 {
      var sa, sb := NatToString(a), NatToString(b);
      assert sa[..|sa| - 1] == NatToString(a / 10);
      assert sb[..|sb| - 1] == NatToString(b / 10);
      NatToStringInjective(a / 10, b / 10);
      assert DigitChar(a % 10) == DigitChar(b % 10);
    }
  }

  /** `String(v)` (also what a template literal does with `${v}`). */
  function JsToString(v: JsValue): string {
    match v
    case Undefined => "undefined"
    case Null => "null"
    case Bool(b) => if b then "true" else "false"
    case Num(n) => IntToString(n)
    case Str(s) => s
    case ErrorValue(name, message) =>
      // Error.prototype.toString
      if name == "" then message else if message == "" then name else name + ": " + message
    case Obj(_) => "[object Object]"
  }

  function LowerChar(c: char): char {
    if 'A' <= c <= 'Z' then (c as int + 32) as char else c
  }

  function UpperChar(c: char): char {
    if 'a' <= c <= 'z' then (c as int - 32) as char else c
  }

  /** `s.toLowerCase()` on ASCII letters. */
  function Lower(s: string): (r: string)
    ensures |r| == |s|
    ensures forall i :: 0 <= i < |s| ==> r[i] == LowerChar(s[i])
  {
    seq(|s|, i requires 0 <= i < |s| => LowerChar(s[i]))
  }

  /** `s.toUpperCase()` on ASCII letters. */
  function Upper(s: string): (r: string)
    ensures |r| == |s|
    ensures forall i :: 0 <= i < |s| ==> r[i] == UpperChar(s[i])
  {
    seq(|s|, i requires 0 <= i < |s| => UpperChar(s[i]))
  }

  /** `s.slice(0, k)` */
  function Prefix(s: string, k: nat): (r: string)
    ensures r <= s
    ensures |r| == if |s| <= k then |s| else k
  {
    if |s| <= k then s else s[..k]
  }

  /** Index of the first `c` in `s`. */
  function IndexOf(s: string, c: char): (i: nat)
    requires c in s
    ensures i < |s| && s[i] == c && c !in s[..i]
  {
    if s[0] == c then 0 else 1 + IndexOf(s[1..], c)
  }

  lemma IndexOfAfterPrefix(p: string, c: char, rest: string)
    requires c !in p
    ensures c in p + [c] + rest && IndexOf(p + [c] + rest, c) == |p|
  {
    var s := p + [c] + rest;
    assert s[|p|] == c;
    assert s[..|p|] == p;
  }
}
