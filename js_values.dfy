/**
 * JavaScript values as the form and the submission route see them, and the
 * handful of JavaScript conversions the core relies on: truthiness, `toString`,
 * `Array.prototype.join` and property access.
 *
 * Numbers are integers only: floating point and NaN are not modelled.
 */
module JsValues {

  datatype Option<+T> = None | Some(value: T)

  /** A value after JSON parsing (or a value held by a message event). */
  datatype JsValue =
    | Undefined
    | Null
    | Bool(b: bool)
    | Num(n: int)
    | Str(s: string)
    | Arr(items: seq<JsValue>)
    | Obj(props: map<string, JsValue>)

  predicate Nullish(v: JsValue) {
    v.Undefined? || v.Null?
  }

  /** JavaScript truthiness: `undefined`, `null`, `false`, `0` and `''` are falsy. */
  function Truthy(v: JsValue): (b: bool)
    ensures Nullish(v) ==> !b
    ensures v.Arr? || v.Obj? ==> b
    ensures v.Str? ==> (b <==> |v.s| > 0)
  {
    match v
    case Undefined => false
    case Null => false
    case Bool(b) => b
    case Num(n) => n != 0
    case Str(s) => s != ""
    case Arr(_) => true
    case Obj(_) => true
  }

  /**
   * Property access `v.key` on a value that is not `null` or `undefined`.
   * Only objects carry properties here; any other value yields `undefined`.
   */
  function Lookup(v: JsValue, key: string): (r: JsValue)
    requires !Nullish(v)
    ensures v.Obj? && key in v.props ==> r == v.props[key]
    ensures !(v.Obj? && key in v.props) ==> r == Undefined
  {
    if v.Obj? && key in v.props then v.props[key] else Undefined
  }

  predicate IsDigit(c: char) {
    '0' <= c <= '9'
  }

  predicate AllDigits(s: string) {
    forall i :: 0 <= i < |s| ==> IsDigit(s[i])
  }

  function DigitChar(d: nat): (c: char)
    requires d < 10
    ensures IsDigit(c) && c as int - '0' as int == d
  {
    ('0' as int + d) as char
  }

  /** Decimal digits of a natural number, most significant first, no leading zero. */
  function NatToDecimal(n: nat): (s: string)
    ensures |s| >= 1 && AllDigits(s)
    ensures |s| > 1 ==> s[0] != '0'
    decreases n
  {
    if n < 10 then [DigitChar(n)] else NatToDecimal(n / 10) + [DigitChar(n % 10)]
  }

  /** The value of a string of decimal digits. */
  function DecimalToNat(s: string): (n: nat)
    requires AllDigits(s)
    decreases |s|
  {
    if s == [] then 0 else DecimalToNat(s[..|s| - 1]) * 10 + (s[|s| - 1] as int - '0' as int)
  }

  lemma {:induction false} NatDecimalRoundTrip(n: nat)
    ensures DecimalToNat(NatToDecimal(n)) == n
  {
    if n >= 10 {
      var s := NatToDecimal(n);
      assert s[..|s| - 1] == NatToDecimal(n / 10);
      NatDecimalRoundTrip(n / 10);
    }
  }

  /**
   * `Number.prototype.toString()` on an integer: a leading minus sign for
   * negatives. (JavaScript switches to exponent form from 1e21 on; that is not
   * modelled.)
   */
  function IntToDecimal(n: int): (s: string)
    ensures |s| >= 1
    ensures n >= 0 ==> AllDigits(s)
    ensures n < 0 ==> s[0] == '-' && AllDigits(s[1..])
    ensures n >= 0 && |s| > 1 ==> s[0] != '0'
    ensures n < 0 ==> |s| >= 2 && s[1] != '0'
  {
    if n < 0 then "-" + NatToDecimal(-n) else NatToDecimal(n)
  }

  /** Reads back what IntToDecimal writes. */
  function DecimalToInt(s: string): (n: int)
    requires |s| >= 1
    requires s[0] == '-' ==> AllDigits(s[1..])
    requires s[0] != '-' ==> AllDigits(s)
  {
    var magnitude: int := if s[0] == '-' then DecimalToNat(s[1..]) else DecimalToNat(s);
    if s[0] == '-' then -magnitude else magnitude
  }

  lemma IntDecimalRoundTrip(n: int)
    ensures DecimalToInt(IntToDecimal(n)) == n
  {
    if n < 0 {
      assert IntToDecimal(n)[1..] == NatToDecimal(-n);
      NatDecimalRoundTrip(-n);
    } else {
      NatDecimalRoundTrip(n);
    }
  }

  function TotalLength(parts: seq<string>): (n: nat) {
    if parts == [] then 0 else |parts[0]| + TotalLength(parts[1..])
  }

  /** `parts.join(sep)`. */
  function Join(parts: seq<string>, sep: string): (r: string)
    ensures parts == [] ==> r == ""
    ensures parts != [] ==> |r| == TotalLength(parts) + (|parts| - 1) * |sep|
    ensures parts != [] ==> r[..|parts[0]|] == parts[0]
  {
    if |parts| == 0 then ""
    else if |parts| == 1 then parts[0]
    else parts[0] + sep + Join(parts[1..], sep)
  }

  /** Joining one more part appends the separator and that part. */
  lemma {:induction false} JoinAppend(parts: seq<string>, p: string, sep: string)
    requires parts != []
    ensures Join(parts + [p], sep) == Join(parts, sep) + sep + p
    decreases |parts|
  {
    if |parts| == 1 {
      assert (parts + [p])[1..] == [p];
    } else {
      assert (parts + [p])[1..] == parts[1..] + [p];
      JoinAppend(parts[1..], p, sep);
    }
  }

  /**
   * Whether `String(v)` succeeds. An object parsed from JSON that carries its
   * own `toString` property has no callable `toString` and no primitive
   * `valueOf`, so converting it throws a TypeError; an array converts through
   * its elements.
   */
  function Printable(v: JsValue): (ok: bool)
    ensures !v.Obj? && !v.Arr? ==> ok
    ensures v.Obj? ==> (ok <==> "toString" !in v.props)
    ensures v.Arr? ==> (ok <==> forall i :: 0 <= i < |v.items| ==> Printable(v.items[i]))
    decreases v
  {
    match v
    case Obj(props) => "toString" !in props
    case Arr(items) => forall i :: 0 <= i < |items| ==> Printable(items[i])
    case _ => true
  }

  /** `String(v)`; inside an array `null` and `undefined` print as nothing. */
  function ToJsString(v: JsValue): (r: string)
    requires Printable(v)
    ensures v.Str? ==> r == v.s
    ensures v.Num? ==> r == IntToDecimal(v.n)
    ensures v.Arr? && v.items == [] ==> r == ""
    decreases v
  {
    match v
    case Undefined => "undefined"
    case Null => "null"
    case Bool(b) => if b then "true" else "false"
    case Num(n) => IntToDecimal(n)
    case Str(s) => s
    case Arr(items) => Join(ElementStrings(items), ",")
    case Obj(_) => "[object Object]"
  }

  /** The strings `Array.prototype.join` prints for the elements of an array. */
  function ElementStrings(items: seq<JsValue>): (r: seq<string>)
    requires forall i :: 0 <= i < |items| ==> Printable(items[i])
    ensures |r| == |items|
    ensures forall i :: 0 <= i < |items| && items[i].Str? ==> r[i] == items[i].s
    ensures forall i :: 0 <= i < |items| && Nullish(items[i]) ==> r[i] == ""
    decreases items
  {
    seq(|items|, i requires 0 <= i < |items| =>
      if Nullish(items[i]) then "" else ToJsString(items[i]))
  }
}
