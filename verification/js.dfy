/**
  JavaScript data values as the gateway client sees them: parsed JSON frames,
  caller-supplied configuration objects and the payloads it emits. Numbers are
  integers here; object identity is not modelled (objects compare by contents).
 */
module Js {

  datatype Value =
    | Undefined
    | Null
    | Bool(b: bool)
    | Num(n: int)
    | Str(s: string)
    | Arr(elems: seq<Value>)
    | Obj(fields: map<string, Value>)

  /** `null` or `undefined`: reading a property of either with `.` throws a TypeError. */
  predicate Nullish(v: Value)
  {
    v.Undefined? || v.Null?
  }

  /** `v?.key`: the property of an object, `undefined` for anything else. */
  function Get(v: Value, key: string): Value
  {
    if v.Obj? && key in v.fields then v.fields[key] else Undefined
  }

  /** `(v !== undefined) ? v : otherwise`, the source's defaulting idiom. */
  function IfDefined(v: Value, otherwise: Value): Value
  {
    if v != Undefined then v else otherwise
  }

  /** `String(v)`, the conversion `+` applies when one operand is a string. */
  function ToString(v: Value): (r: string)
    ensures v.Str? ==> r == v.s
    ensures v.Num? ==> CanonicalInt(r) && ParseDecimal(r) == v.n
  {
    match v
    case Undefined => "undefined"
    case Null => "null"
    case Bool(b) => if b then "true" else "false"
    case Num(n) => DecimalRoundTrip(n); DecimalCanonical(n); DecimalString(n)
    case Str(s) => s
    case Arr(elems) =>
      // Array.prototype.join(","): null and undefined elements become ""
      Join(seq(|elems|, i requires 0 <= i < |elems| =>
        if Nullish(elems[i]) then "" else ToString(elems[i])))
    case Obj(_) => "[object Object]"
  }

  /** The parts separated by commas. */
  function Join(parts: seq<string>): string
  {
    if |parts| == 0 then ""
    else if |parts| == 1 then parts[0]
    else Join(parts[..|parts| - 1]) + "," + parts[|parts| - 1]
  }

  function Digit(d: nat): char
    requires d < 10
  {
    ('0' as int + d) as char
  }

  predicate IsDigit(c: char)
  {
    '0' <= c <= '9'
  }

  /** A non-empty run of decimal digits without a leading zero. */
  predicate CanonicalNat(s: string)
  {
    && |s| > 0
    && (forall i :: 0 <= i < |s| ==> IsDigit(s[i]))
    && (s[0] == '0' ==> |s| == 1)
  }

  /** A canonical natural, or a minus sign before a canonical natural other than `0`. */
  predicate CanonicalInt(s: string)
  {
    || CanonicalNat(s)
    || (|s| > 1 && s[0] == '-' && CanonicalNat(s[1..]) && s[1] != '0')
  }

  function DigitValue(c: char): nat
  {
    if '0' <= c <= '9' then (c as int - '0' as int) as nat else 0
  }

  /** Decimal digits of a natural number, most significant first. */
  function NatDigits(n: nat): (r: string)
    ensures CanonicalNat(r)
    ensures r[0] == '0' <==> n == 0
  {
    if n < 10 then [Digit(n)] else NatDigits(n / 10) + [Digit(n % 10)]
  }

  /** How a JavaScript number with an integer value prints. */
  function DecimalString(n: int): string
  {
    if n < 0 then "-" + NatDigits(-n) else NatDigits(n)
  }

  function ParseNat(s: string): nat
  {
    if s == [] then 0 else ParseNat(s[..|s| - 1]) * 10 + DigitValue(s[|s| - 1])
  }

  /** Reads back what DecimalString prints. */
  function ParseDecimal(s: string): int
  {
    if |s| > 0 && s[0] == '-' then 0 - ParseNat(s[1..]) as int else ParseNat(s)
  }

  lemma {:induction false} NatDigitsRoundTrip(n: nat)
    ensures ParseNat(NatDigits(n)) == n
  {
    if n >= 10 {
      var r := NatDigits(n);
      assert r[..|r| - 1] == NatDigits(n / 10);
      NatDigitsRoundTrip(n / 10);
    }
  }

  lemma DecimalCanonical(n: int)
    ensures CanonicalInt(DecimalString(n))
  {
    if n < 0 {
      assert ("-" + NatDigits(-n))[1..] == NatDigits(-n);
    }
  }

  /** A canonical string of digits with a non-zero first digit reads as a positive number. */
  lemma {:induction false} LeadingDigitPositive(s: string)
    requires CanonicalNat(s) && s[0] != '0'
    ensures ParseNat(s) > 0
  {
    if |s| > 1 {
      var front := s[..|s| - 1];
      assert front[0] == s[0];
      LeadingDigitPositive(front);
    }
  }

  /** The only canonical string of digits that reads as `n` is the one `NatDigits` prints. */
  lemma {:induction false} CanonicalNatUnique(s: string, n: nat)
    requires CanonicalNat(s) && ParseNat(s) == n
    ensures s == NatDigits(n)
  {
    var front := s[..|s| - 1];
    var last := s[|s| - 1];
    if |s| == 1 {
      assert front == [];
      assert Digit(DigitValue(last)) == last;
    } else {
      assert front[0] == s[0];
      LeadingDigitPositive(front);
      CanonicalNatUnique(front, ParseNat(front));
      assert n / 10 == ParseNat(front) && n % 10 == DigitValue(last);
      assert Digit(DigitValue(last)) == last;
      assert s == front + [last];
    }
  }

  /**
    `DecimalString` is the unique canonical form: any canonical string that
    reads back as `n` is `DecimalString(n)`.
   */
  lemma DecimalUnique(r: string, n: int)
    requires CanonicalInt(r) && ParseDecimal(r) == n
    ensures r == DecimalString(n)
  {
    if r[0] == '-' {
      var digits := r[1..];
      LeadingDigitPositive(digits);
      CanonicalNatUnique(digits, ParseNat(digits));
      assert r == "-" + digits;
    } else {
      CanonicalNatUnique(r, n);
    }
  }

  lemma DecimalRoundTrip(n: int)
    ensures ParseDecimal(DecimalString(n)) == n
  {
    if n < 0 {
      var digits := NatDigits(-n);
      NatDigitsRoundTrip(-n);
      assert ("-" + digits)[0] == '-';
      assert ("-" + digits)[1..] == digits;
      assert ParseDecimal("-" + digits) == 0 - ParseNat(digits) as int;
    } else {
      var digits := NatDigits(n);
      NatDigitsRoundTrip(n);
      assert ParseDecimal(digits) == ParseNat(digits);
    }
  }
}
