/** The part of Go's strconv that worker identities travel through:
    decimal printing, and integer parsing in base 10 and in base 0
    (where a leading 0 means octal and a leading 0x means hexadecimal). */
module Strconv {
  import opened Wrappers

  function Digit(d: nat): char
    requires d < 10
  {
    "0123456789"[d]
  }

  /** Decimal printing of a non-negative integer. */
  function Itoa(n: nat): string {
    if n < 10 then [Digit(n)] else Itoa(n / 10) + [Digit(n % 10)]
  }

  function CharValue(c: char): Option<nat> {
    if '0' <= c <= '9' then Some((c as int) - ('0' as int))
    else if 'a' <= c <= 'z' then Some((c as int) - ('a' as int) + 10)
    else if 'A' <= c <= 'Z' then Some((c as int) - ('A' as int) + 10)
    else None
  }

  /** The value of a digit string in a base; None if a character is not a digit of the base. */
  function DigitsValue(s: string, base: nat): Option<nat> {
    if |s| == 0 then Some(0)
    else
      var d := CharValue(s[|s| - 1]);
      match DigitsValue(s[..|s| - 1], base)
      case None => None
      case Some(v) => if d.Some? && d.value < base then Some(v * base + d.value) else None
  }

  /** An unsigned literal; base 0 picks the base from the prefix. */
  function ParseMagnitude(s: string, base: nat): Option<nat> {
    if |s| == 0 then None
    else if base != 0 then DigitsValue(s, base)
    else if |s| > 1 && s[0] == '0' && (s[1] == 'x' || s[1] == 'X') then
      if |s| < 3 then None else DigitsValue(s[2..], 16)
    else if s[0] == '0' then DigitsValue(s[1..], 8)
    else DigitsValue(s, 10)
  }

  const TWO_31: int := 0x8000_0000
  const TWO_63: int := 0x8000_0000_0000_0000

  /** A signed literal whose value v must satisfy -limit <= v < limit. */
  function ParseInt(s: string, base: nat, limit: int): Option<int> {
    if |s| == 0 then None
    else
      var signed := s[0] == '+' || s[0] == '-';
      match ParseMagnitude(if signed then s[1..] else s, base)
      case None => None
      case Some(m) =>
        var v: int := if s[0] == '-' then -(m as int) else m;
        if -limit <= v < limit then Some(v) else None
  }

  /** Base 10, 64 bits. */
  function Atoi(s: string): Option<int> {
    ParseInt(s, 10, TWO_63)
  }

  /** Base 0, 32 bits. */
  function ParseInt32(s: string): Option<int> {
    ParseInt(s, 0, TWO_31)
  }

  /** A printed number is all decimal digits, has no leading zero unless it is "0",
      and reads back as itself. */
  lemma {:induction false} ItoaReadsBack(n: nat)
    ensures |Itoa(n)| > 0
    ensures DigitsValue(Itoa(n), 10) == Some(n)
    ensures '0' <= Itoa(n)[0] <= '9'
    ensures Itoa(n)[0] == '0' <==> n == 0
    ensures n == 0 ==> Itoa(n) == "0"
  {
    if n < 10 {
      assert Itoa(n)[..0] == "";
      assert DigitsValue(Itoa(n)[..0], 10) == Some(0);
    } else {
      ItoaReadsBack(n / 10);
      var s := Itoa(n);
      assert s[..|s| - 1] == Itoa(n / 10);
    }
  }

  /** Decimal printing is undone by the label parser and by the config parser. */
  lemma PrintParse(n: nat)
    ensures n < TWO_63 ==> Atoi(Itoa(n)) == Some(n)
    ensures n < TWO_31 ==> ParseInt32(Itoa(n)) == Some(n)
  {
    ItoaReadsBack(n);
    if n == 0 {
      assert "0"[1..] == "";
    }
  }

  lemma ItoaInjective(m: nat, n: nat)
    requires Itoa(m) == Itoa(n)
    ensures m == n
  {
    ItoaReadsBack(m);
    ItoaReadsBack(n);
  }

  predicate AllDigits(s: string) {
    forall i :: 0 <= i < |s| ==> '0' <= s[i] <= '9'
  }

  lemma {:induction false} DecimalIsValue(s: string)
    requires AllDigits(s)
    ensures DigitsValue(s, 10).Some?
  {
    if |s| > 0 {
      DecimalIsValue(s[..|s| - 1]);
    }
  }

  // ----- what the label parser reads -----

  /** The value of decimal digits; 0 for other characters' sake. */
  function DecimalValue(s: string): nat {
    if |s| == 0 then 0
    else 10 * DecimalValue(s[..|s| - 1]) + (if '0' <= s[|s| - 1] <= '9' then s[|s| - 1] as int - '0' as int else 0)
  }

  lemma {:induction false} DecimalIff(s: string)
    ensures DigitsValue(s, 10) == if AllDigits(s) then Some(DecimalValue(s)) else None
  {
    if |s| > 0 {
      DecimalIff(s[..|s| - 1]);
    }
  }

  /** A text without its sign. */
  function Unsigned(s: string): string {
    if |s| > 0 && (s[0] == '+' || s[0] == '-') then s[1..] else s
  }

  function SignedValue(s: string): int {
    var v: int := DecimalValue(Unsigned(s));
    if |s| > 0 && s[0] == '-' then -v else v
  }

  /** A text reads as a number exactly if it is at least one decimal digit behind at most one sign, and its
      value fits 64 bits; the number is that value. */
  lemma AtoiIff(s: string, v: int)
    ensures Atoi(s) == Some(v) <==>
      && Unsigned(s) != "" && AllDigits(Unsigned(s))
      && v == SignedValue(s) && -0x8000_0000_0000_0000 <= v < 0x8000_0000_0000_0000
  {
    DecimalIff(Unsigned(s));
  }

  /** Read in base 8 the same digits are worth less, unless they are worth less than 8. */
  lemma {:induction false} OctalReading(s: string)
    requires AllDigits(s) && DigitsValue(s, 10).Some?
    ensures
      var v := DigitsValue(s, 10).value;
      && (v < 8 ==> DigitsValue(s, 8) == Some(v))
      && (v >= 8 && DigitsValue(s, 8).Some? ==> DigitsValue(s, 8).value < v)
  {
    if |s| > 0 {
      OctalReading(s[..|s| - 1]);
    }
  }

  lemma {:induction false} LeadingZero(s: string, base: nat)
    requires |s| > 0 && s[0] == '0' && base > 0
    ensures DigitsValue(s, base) == DigitsValue(s[1..], base)
  {
    var k := |s| - 1;
    if k == 0 {
      assert DigitsValue(s[..0], base) == Some(0);
    } else {
      LeadingZero(s[..k], base);
      assert s[..k][1..] == s[1..][..k - 1];
    }
  }

  /** Of the digit strings that the label parser reads, the config parser reads the same number exactly
      in those that fit 32 bits and, with a leading zero, are worth less than 8. */
  lemma ParsersAgreeIff(s: string)
    requires |s| > 0 && AllDigits(s) && Atoi(s).Some?
    ensures Atoi(s) == ParseInt32(s) <==> Atoi(s).value < TWO_31 && (s[0] != '0' || Atoi(s).value < 8)
  {
    DecimalIsValue(s);
    if s[0] == '0' {
      LeadingZero(s, 10);
      DecimalIsValue(s[1..]);
      OctalReading(s[1..]);
    }
  }

  /** Such a label is read as two different numbers. */
  lemma ParsersDisagreeOnLeadingZero()
    ensures Atoi("010") == Some(10) && ParseInt32("010") == Some(8)
  {
    assert "010"[..2] == "01" && "01"[..1] == "0" && "0"[..0] == "";
    assert "010"[1..] == "10" && "10"[..1] == "1" && "1"[..0] == "";
    assert DigitsValue("", 10) == Some(0) && DigitsValue("0", 10) == Some(0) && DigitsValue("01", 10) == Some(1);
    assert DigitsValue("010", 10) == Some(10);
    assert DigitsValue("", 8) == Some(0) && DigitsValue("1", 8) == Some(1) && DigitsValue("10", 8) == Some(8);
  }
}
