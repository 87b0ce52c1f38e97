/** Values shared by the whole model: optional values, the outcome of a call
    that may raise, Python exceptions and the attribute values a span carries. */
module Values {

  datatype Option<+T> = None | Some(value: T)

  /** What a Python call does: return a value or raise an exception. */
  datatype Outcome<+T> = Returned(value: T) | Raised(error: Exception)

  /** A raised exception: its class name (`exception.__class__.__name__`),
      its `str()`, its traceback, already formatted and joined with newlines
      (the formatting itself is not modelled), and whether its class derives
      from `Exception` and not only from `BaseException` (`KeyboardInterrupt`,
      `SystemExit` and `GeneratorExit` do not), which decides whether an
      `except Exception:` clause catches it. */
  datatype Exception = Exception(name: string, message: string, traceback: string, isException: bool)

  /** An attribute value: the middleware stores strings and, for the status
      code, an integer. */
  datatype Value = StrVal(s: string) | IntVal(i: int)

  function DigitChar(d: nat): (c: char)
    requires d < 10
    ensures '0' <= c <= '9'
  {
    ('0' as int + d) as char
  }

  predicate AllDigits(s: string)
  {
    forall i :: 0 <= i < |s| ==> '0' <= s[i] <= '9'
  }

  /** Python's `str()` of a non-negative integer: its decimal digits. */
  function NatToDecimal(n: nat): (r: string)
    decreases n
    ensures |r| >= 1
    ensures AllDigits(r)
  {
    if n < 10 then [DigitChar(n)] else NatToDecimal(n / 10) + [DigitChar(n % 10)]
  }

  /** Python's `str()` of an attribute value. */
  function ToStr(v: Value): string
  {
    match v
    case StrVal(s) => s
    case IntVal(i) => if i < 0 then "-" + NatToDecimal(-i) else NatToDecimal(i)
  }

  /** `str()` writes no leading zero: only zero itself starts with `0`. */
  lemma {:induction false} NoLeadingZero(n: nat)
    ensures NatToDecimal(n)[0] == '0' <==> n == 0
    decreases n
  {
    if n >= 10 {
      NoLeadingZero(n / 10);
    }
  }

  /** The number a string of decimal digits denotes. */
  function DecimalValue(s: string): nat
    requires AllDigits(s)
  {
    if s == [] then 0
    else DecimalValue(s[..|s| - 1]) * 10 + (s[|s| - 1] as int - '0' as int)
  }

  /** Reading back the digits `str()` writes gives the number again. */
  lemma {:induction false} DecimalRoundTrip(n: nat)
    ensures DecimalValue(NatToDecimal(n)) == n
    decreases n
  {
    var r := NatToDecimal(n);
    if n >= 10 {
      DecimalRoundTrip(n / 10);
      assert r[..|r| - 1] == NatToDecimal(n / 10);
    }
  }

  lemma DecimalInjective(a: nat, b: nat)
    requires NatToDecimal(a) == NatToDecimal(b)
    ensures a == b
  {
    DecimalRoundTrip(a);
    DecimalRoundTrip(b);
  }

  /** The printed form of an integer starts with `-` exactly when it is
      negative, and the digits follow. */
  lemma IntToStrShape(i: int)
    ensures |ToStr(IntVal(i))| >= 1
    ensures ToStr(IntVal(i))[0] == '-' <==> i < 0
    ensures i < 0 ==> ToStr(IntVal(i))[1..] == NatToDecimal(-i)
    ensures i >= 0 ==> ToStr(IntVal(i)) == NatToDecimal(i)
  {
    if i >= 0 {
      assert '0' <= NatToDecimal(i)[0] <= '9';
    } else {
      assert ("-" + NatToDecimal(-i))[1..] == NatToDecimal(-i);
    }
  }

  /** So two different integers never print the same: distinct primary keys
      give distinct `django.user.id` attributes. */
  lemma IntToStrInjective(a: int, b: int)
    requires ToStr(IntVal(a)) == ToStr(IntVal(b))
    ensures a == b
  {
    IntToStrShape(a);
    IntToStrShape(b);
    if a < 0 {
      var na, nb: nat := -a, -b;
      assert NatToDecimal(na) == NatToDecimal(nb);
      DecimalInjective(na, nb);
    } else {
      DecimalInjective(a, b);
    }
  }
}
