/** The JavaScript values that reach the modelled code, their truthiness and
    string conversion, and the host services the model takes as parameters. */
module Js {

  datatype Option<T> = None | Some(value: T)

  /** A JavaScript value as it can occur in an ad record, a form record or a
      request body: `undefined`, `null`, a boolean, a finite number (a real),
      `NaN`, or a string. Objects and arrays are not modelled. */
  datatype Value = Undefined | Null | Bool(b: bool) | Num(n: real) | NaN | Str(s: string)

  /** JavaScript truthiness: `undefined`, `null`, `false`, `0`, `NaN` and `""`
      are falsy, everything else is truthy. */
  predicate Truthy(v: Value)
  {
    match v
    case Undefined => false
    case Null => false
    case Bool(b) => b
    case Num(n) => n != 0.0
    case NaN => false
    case Str(s) => s != ""
  }

  /** The host services the code relies on and the model does not define:
      `new RegExp(pattern).test(text)` (an unanchored search), `parseFloat(text)`
      of a string (None when the result is NaN) and `String(x)` for a finite
      number that is not an integer printed in plain digits. */
  datatype Runtime = Runtime(
    matches: (string, string) -> bool,
    parseFloat: string -> Option<real>,
    numberText: real -> string)

  /** An integer below 10^21 in magnitude, which `String` prints as its
      plain decimal digits. */
  predicate PlainInteger(x: real)
  {
    x.Floor as real == x && -1000000000000000000000.0 < x < 1000000000000000000000.0
  }

  /** `String(v)` */
  function ToText(rt: Runtime, v: Value): string
  {
    match v
    case Undefined => "undefined"
    case Null => "null"
    case Bool(b) => if b then "true" else "false"
    case Num(n) => if PlainInteger(n) then IntText(n.Floor) else rt.numberText(n)
    case NaN => "NaN"
    case Str(s) => s
  }

  /** `parseFloat(v)`, which parses `String(v)`: always a number. A finite
      number reads back as itself, since `String` prints it so that it parses
      back exactly; a string is parsed by the host; `undefined`, `null`, a
      boolean and NaN print as words without a numeric prefix and give NaN. */
  function ParseFloat(rt: Runtime, v: Value): Value
  {
    if v.Num? then v
    else if v.Str? && rt.parseFloat(v.s).Some? then Num(rt.parseFloat(v.s).value)
    else NaN
  }

  /** `s.length`: the number of UTF-16 code units, two for a character beyond
      U+FFFF and one for any other. */
  function JsLength(s: string): (n: nat)
    ensures |s| <= n <= 2 * |s|
    ensures n == |s| <==> forall i :: 0 <= i < |s| ==> (s[i] as int) < 0x1_0000
    ensures n == 2 * |s| <==> forall i :: 0 <= i < |s| ==> (s[i] as int) >= 0x1_0000
  {
    if s == [] then 0
    else
      var n := (if (s[0] as int) >= 0x1_0000 then 2 else 1) + JsLength(s[1..]);
      assert forall i :: 1 <= i < |s| ==> s[i] == s[1..][i - 1];
      n
  }

  function DigitChar(d: nat): (c: char)
    requires d < 10
    ensures '0' <= c <= '9'
  {
    (48 + d) as char
  }

  /** The decimal digits of a natural number, most significant first. */
  function Digits(n: nat): (s: string)
    ensures |s| >= 1
    ensures forall i :: 0 <= i < |s| ==> '0' <= s[i] <= '9'
    ensures n < 10 <==> |s| == 1
  {
    if n < 10 then [DigitChar(n)] else Digits(n / 10) + [DigitChar(n % 10)]
  }

  /** `String(n)` for an integer `n`, as it appears in template literals. */
  function IntText(n: int): string
  {
    if n < 0 then "-" + Digits(-n) else Digits(n)
  }

  /** The value of a string of decimal digits: the inverse of Digits. */
  function DigitsValue(s: string): (n: nat)
    requires forall i :: 0 <= i < |s| ==> '0' <= s[i] <= '9'
  {
    if s == [] then 0 else DigitsValue(s[..|s| - 1]) * 10 + ((s[|s| - 1] as int) - ('0' as int))
  }

  /** Reading back the digits of a number gives the number. */
  lemma {:induction false} DigitsRoundTrip(n: nat)
    ensures DigitsValue(Digits(n)) == n
  {
    var s := Digits(n);
    if n < 10 {
      assert s == [DigitChar(n)];
      assert s[..|s| - 1] == [];
    } else {
      DigitsRoundTrip(n / 10);
      assert s[..|s| - 1] == Digits(n / 10);
      assert s[|s| - 1] == DigitChar(n % 10);
    }
  }

  /** `String(n)` of an integer reads back as `n`: its digits give `n` when it
      is not negative, and a minus sign followed by the digits of `-n` when it is. */
  lemma IntTextRoundTrip(n: int)
    ensures n >= 0 ==> DigitsValue(IntText(n)) == n
    ensures n < 0 ==> |IntText(n)| >= 2 && IntText(n)[0] == '-' && DigitsValue(IntText(n)[1..]) == -n
  {
    if n >= 0 {
      DigitsRoundTrip(n);
    } else {
      DigitsRoundTrip(-n);
      assert IntText(n)[1..] == Digits(-n);
    }
  }

  /** `String(x)` of a plain non-negative integer is a string of decimal
      digits whose value is `x`. */
  lemma NumberTextRoundTrip(rt: Runtime, x: real)
    requires PlainInteger(x) && x >= 0.0
    ensures forall i :: 0 <= i < |ToText(rt, Num(x))| ==> '0' <= ToText(rt, Num(x))[i] <= '9'
    ensures DigitsValue(ToText(rt, Num(x))) as real == x
  {
    DigitsRoundTrip(x.Floor);
  }

  /** `parseFloat` always gives a number (NaN included), and applying it to
      its own result changes nothing. */
  lemma ParseFloatIdempotent(rt: Runtime, v: Value)
    ensures ParseFloat(rt, v).Num? || ParseFloat(rt, v).NaN?
    ensures ParseFloat(rt, ParseFloat(rt, v)) == ParseFloat(rt, v)
  {
  }
}
