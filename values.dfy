/** Setting values and their string forms.

    A setting holds whatever Ruby object was passed as a default or to
    `Settings.set`; values read from the environment are always strings.
    `Settings.is?` compares two values by their `to_s`, so the string form
    of every variant is fixed here once.
 */
module Values {

  /** The Ruby objects a setting can hold. `Other` stands for any object
      whose `to_s` the model does not compute (a `Time`, a domain object):
      it carries its class name and the text its `to_s` returns. */
  datatype Value =
    | Nil
    | Bool(b: bool)
    | Int(i: int)
    | Str(s: string)
    | Other(kind: string, text: string)

  /** The character for a decimal digit. */
  function DigitChar(d: nat): (c: char)
    requires d < 10
    ensures '0' <= c <= '9'
  {
    (48 + d) as char
  }

  /** The digit a character stands for; 0 for a non-digit. */
  function DigitValue(c: char): nat
  {
    if '0' <= c <= '9' then c as int - 48 else 0
  }

  /** Decimal digits of a natural number, most significant first, no
      leading zeros (`Integer#to_s` for n >= 0). */
  function NatToStr(n: nat): string
    decreases n
  {
    if n < 10 then [DigitChar(n)] else NatToStr(n / 10) + [DigitChar(n % 10)]
  }

  /** `Integer#to_s`: an optional minus sign followed by decimal digits.
      Ruby integers are unbounded, as `int` is. */
  function IntToStr(n: int): string
  {
    if n < 0 then "-" + NatToStr(-n) else NatToStr(n)
  }

  /** The value of a string of decimal digits: the inverse of NatToStr. */
  function ParseNat(s: string): nat
    decreases |s|
  {
    if s == [] then 0 else ParseNat(s[..|s| - 1]) * 10 + DigitValue(s[|s| - 1])
  }

  /** The value of an optionally signed decimal string: the inverse of IntToStr. */
  function ParseInt(s: string): int
  {
    if |s| > 0 && s[0] == '-' then -(ParseNat(s[1..]) as int) else ParseNat(s)
  }

  /** `to_s` of every variant: `""` for nil, `"true"`/`"false"` for booleans,
      decimal digits for integers, the string itself for strings. */
  function ToStr(v: Value): string
  {
    match v
    case Nil => ""
    case Bool(b) => if b then "true" else "false"
    case Int(i) => IntToStr(i)
    case Str(s) => s
    case Other(_, text) => text
  }

  /** The type-agnostic comparison `Settings.is?` performs: equal string forms. */
  predicate LooselyEqual(a: Value, b: Value)
  {
    ToStr(a) == ToStr(b)
  }

  /** NatToStr yields a non-empty string of decimal digits. */
  lemma {:induction false} NatToStrDigits(n: nat)
    ensures |NatToStr(n)| > 0
    ensures forall k :: 0 <= k < |NatToStr(n)| ==> '0' <= NatToStr(n)[k] <= '9'
    decreases n
  {
    if n >= 10 {
      NatToStrDigits(n / 10);
    }
  }

  /** Reading back the digits NatToStr writes gives the number. */
  lemma {:induction false} ParseNatToStr(n: nat)
    ensures ParseNat(NatToStr(n)) == n
    decreases n
  {
    var s := NatToStr(n);
    if n < 10 {
      assert s[..|s| - 1] == [];
    } else {
      assert s[..|s| - 1] == NatToStr(n / 10);
      ParseNatToStr(n / 10);
    }
  }

  /** Reading back `Integer#to_s` gives the integer. */
  lemma ParseIntToStr(n: int)
    ensures ParseInt(IntToStr(n)) == n
  {
    if n < 0 {
      assert IntToStr(n)[1..] == NatToStr(-n);
      ParseNatToStr(-n);
    } else {
      NatToStrDigits(n);
      ParseNatToStr(n);
    }
  }

  /** Distinct integers have distinct string forms. */
  lemma IntToStrInjective(n: int, m: int)
    ensures IntToStr(n) == IntToStr(m) <==> n == m
  {
    ParseIntToStr(n);
    ParseIntToStr(m);
  }

  /** The string form of an integer is non-empty and begins with a minus
      sign or a digit. */
  lemma IntToStrShape(n: int)
    ensures |IntToStr(n)| > 0
    ensures IntToStr(n)[0] == '-' || '0' <= IntToStr(n)[0] <= '9'
  {
    NatToStrDigits(if n < 0 then -n else n);
  }

  /** Loose equality is an equivalence relation. */
  lemma LooselyEqualIsEquivalence(a: Value, b: Value, c: Value)
    ensures LooselyEqual(a, a)
    ensures LooselyEqual(a, b) ==> LooselyEqual(b, a)
    ensures LooselyEqual(a, b) && LooselyEqual(b, c) ==> LooselyEqual(a, c)
  {
  }

  /** Against a string, loose equality asks exactly whether the string is
      the other value's `to_s`. */
  lemma LooselyEqualString(v: Value, s: string)
    ensures LooselyEqual(v, Str(s)) <==> s == ToStr(v)
  {
  }

  /** Two integers are loosely equal only when they are equal. */
  lemma LooselyEqualIntegers(n: int, m: int)
    ensures LooselyEqual(Int(n), Int(m)) <==> n == m
  {
    IntToStrInjective(n, m);
  }

  /** Two booleans are loosely equal only when they are equal. */
  lemma LooselyEqualBooleans(a: bool, b: bool)
    ensures LooselyEqual(Bool(a), Bool(b)) <==> a == b
  {
    if a != b {
      assert ToStr(Bool(a))[0] != ToStr(Bool(b))[0];
    }
  }

  /** An integer is never loosely equal to a boolean or to nil. */
  lemma IntegerNeverBooleanOrNil(n: int, b: bool)
    ensures !LooselyEqual(Int(n), Bool(b))
    ensures !LooselyEqual(Int(n), Nil)
  {
    IntToStrShape(n);
    assert ToStr(Bool(b))[0] == (if b then 't' else 'f');
  }

  /** The comparisons the registry's own examples pin down: `false`, `true`
      and `5` each equal themselves and their string forms; a leading zero
      or different case makes a string differ. */
  lemma LooseEqualityExamples()
    ensures LooselyEqual(Bool(false), Bool(false)) && LooselyEqual(Bool(false), Str("false"))
    ensures LooselyEqual(Bool(true), Bool(true)) && LooselyEqual(Bool(true), Str("true"))
    ensures LooselyEqual(Int(5), Int(5)) && LooselyEqual(Int(5), Str("5"))
    ensures !LooselyEqual(Int(5), Str("05")) && !LooselyEqual(Bool(true), Str("True"))
    ensures LooselyEqual(Nil, Str(""))
    ensures LooselyEqual(Int(-12), Str("-12"))
  {
    assert IntToStr(5) == "5";
    assert IntToStr(-12) == "-12" by {
      assert NatToStr(12) == NatToStr(1) + [DigitChar(2)];
    }
  }
}
