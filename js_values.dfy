/**
 * The JavaScript values the login code handles: the fields of a request
 * payload and of an account record, JavaScript truthiness, and the
 * conversion `String(v)` that the code uses both as the property key of a
 * user-table lookup and to derive a session id from an account id.
 */
module JsValues {

  datatype Option<T> = None | Some(value: T)

  /** A JSON primitive. Numbers are integer-valued (see README, "Left out"). */
  datatype Value = Str(s: string) | Num(n: int) | Bool(b: bool) | Null

  /** JavaScript truthiness of a primitive. */
  predicate Truthy(v: Value)
  {
    match v
    case Str(s) => s != ""
    case Num(n) => n != 0
    case Bool(b) => b
    case Null => false
  }

  /** Truthiness of a property read: a missing property reads as `undefined`, which is falsy. */
  predicate IsTruthy(v: Option<Value>)
  {
    v.Some? && Truthy(v.value)
  }

  predicate IsDigit(c: char)
  {
    '0' <= c <= '9'
  }

  predicate AllDigits(s: string)
  {
    forall i :: 0 <= i < |s| ==> IsDigit(s[i])
  }

  function DigitChar(d: nat): char
    requires d < 10
  {
    ('0' as int + d) as char
  }

  /** Decimal notation of a natural number, as `String(n)` prints it. */
  function NatToDecimal(n: nat): (s: string)
    ensures 1 <= |s|
    ensures AllDigits(s)
    ensures |s| > 1 ==> s[0] != '0'
    decreases n
  {
    if n < 10 then [DigitChar(n)]
    else NatToDecimal(n / 10) + [DigitChar(n % 10)]
  }

  /** The number a string of decimal digits denotes; the reference definition for NatToDecimal. */
  function DecimalValue(s: string): nat
    requires AllDigits(s)
  {
    if s == [] then 0
    else 10 * DecimalValue(s[..|s| - 1]) + (s[|s| - 1] as int - '0' as int)
  }

  /** Reading back the decimal notation of `n` gives `n`. */
  lemma {:induction false} DecimalRoundTrip(n: nat)
    ensures DecimalValue(NatToDecimal(n)) == n
  {
    if n >= 10 {
      var s := NatToDecimal(n);
      assert s[..|s| - 1] == NatToDecimal(n / 10);
      DecimalRoundTrip(n / 10);
    }
  }

  /** Distinct natural numbers have distinct decimal notations. */
  lemma NatToDecimalInjective(m: nat, n: nat)
    requires m != n
    ensures NatToDecimal(m) != NatToDecimal(n)
  {
    DecimalRoundTrip(m);
    DecimalRoundTrip(n);
  }

  /** `String(n)` for an integer-valued Number. */
  function NumberToString(n: int): string
  {
    if n < 0 then "-" + NatToDecimal(-n) else NatToDecimal(n)
  }

  /** Distinct integers print differently, so numeric ids give distinct session ids. */
  lemma NumberToStringInjective(m: int, n: int)
    requires m != n
    ensures NumberToString(m) != NumberToString(n)
  {
    if m < 0 && n < 0 {
      NatToDecimalInjective(-m, -n);
      assert NumberToString(m)[1..] == NatToDecimal(-m);
      assert NumberToString(n)[1..] == NatToDecimal(-n);
    } else if m < 0 {
      assert NumberToString(m)[0] == '-';
      assert IsDigit(NumberToString(n)[0]);
    } else if n < 0 {
      assert NumberToString(n)[0] == '-';
      assert IsDigit(NumberToString(m)[0]);
    } else {
      NatToDecimalInjective(m, n);
    }
  }

  /** `String(v)`, which is also the property key used by `obj[v]`. */
  function ToJsString(v: Value): string
  {
    match v
    case Str(s) => s
    case Num(n) => NumberToString(n)
    case Bool(b) => if b then "true" else "false"
    case Null => "null"
  }

  /** `String(undefined)`. */
  const UndefinedString: string := "undefined"
}
