/** The handful of Python runtime notions the modelled code relies on:
    dynamically typed values, the exceptions it raises, and `str()` of a value. */
module Python {

  /** A Python value as far as the modelled code looks at it. A float is carried
      opaquely by its literal text: nothing in the model computes with it. */
  datatype Value =
    | NoneValue
    | Bool(b: bool)
    | Int(i: int)
    | Float(literal: string)
    | Str(s: string)

  /** The exceptions the modelled code can raise. */
  datatype PyError =
    | KeyError(key: string)
    | IndexError
    | ValueError(message: string)

  function DigitChar(d: nat): char
    requires d < 10
  {
    (48 + d) as char
  }

  function DigitValue(c: char): int
  {
    c as int - 48
  }

  /** Decimal text of a natural number, as `str(n)` writes it. */
  function NatToString(n: nat): (s: string)
    ensures |s| > 0
    ensures forall k :: 0 <= k < |s| ==> '0' <= s[k] <= '9'
    decreases n
  {
    if n < 10 then [DigitChar(n)] else NatToString(n / 10) + [DigitChar(n % 10)]
  }

  /** Reads a string of decimal digits back as a number. */
  function ParseNat(s: string): int
  {
    if s == [] then 0 else ParseNat(s[..|s| - 1]) * 10 + DigitValue(s[|s| - 1])
  }

  /** `str(n)` can be read back: the decimal text determines the number. */
  lemma {:induction false} ParseNatToString(n: nat)
    ensures ParseNat(NatToString(n)) == n
    decreases n
  {
    if n >= 10 {
      var s := NatToString(n);
      assert s[..|s| - 1] == NatToString(n / 10);
      ParseNatToString(n / 10);
    }
  }

  /** Distinct numbers have distinct decimal texts. */
  lemma NatToStringInjective(m: nat, n: nat)
    ensures NatToString(m) == NatToString(n) <==> m == n
  {
    ParseNatToString(m);
    ParseNatToString(n);
  }

  /** `str(i)` for a Python int: a minus sign exactly for a negative number,
      then the decimal digits of its magnitude, which read back to it. */
  function IntToString(i: int): (s: string)
    ensures |s| > 0 && (s[0] == '-' <==> i < 0)
    ensures i >= 0 ==> ParseNat(s) == i
    ensures i < 0 ==> ParseNat(s[1..]) == -i
    ensures forall k :: (if i < 0 then 1 else 0) <= k < |s| ==> '0' <= s[k] <= '9'
  {
    if i < 0 then
      var digits := NatToString(-i);
      ParseNatToString(-i);
      assert ("-" + digits)[1..] == digits;
      "-" + digits
    else
      ParseNatToString(i);
      NatToString(i)
  }

  /** `str(v)`: a string is itself, an int its decimal text. */
  function ToStr(v: Value): (s: string)
    ensures v.Str? ==> s == v.s
    ensures v.Int? ==> |s| > 0 && (s[0] == '-' <==> v.i < 0)
    ensures v.Int? && v.i >= 0 ==> ParseNat(s) == v.i
    ensures v.Int? && v.i < 0 ==> ParseNat(s[1..]) == -v.i
    ensures v.Int? ==> forall k :: (if v.i < 0 then 1 else 0) <= k < |s| ==> '0' <= s[k] <= '9'
  {
    match v
    case NoneValue => "None"
    case Bool(b) => if b then "True" else "False"
    case Int(i) => IntToString(i)
    case Float(literal) => literal
    case Str(s) => s
  }
}
