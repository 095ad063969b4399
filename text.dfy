/**
 * The few java.lang.String and java.lang.Long operations the payment core relies on:
 * String.toUpperCase, String.isBlank, Long.parseLong, and (as the inverse used in
 * proofs) Long.toString.
 */
module Text {
  import opened Wrappers

  const LONG_MIN: int := -0x8000_0000_0000_0000
  const LONG_MAX: int := 0x7FFF_FFFF_FFFF_FFFF

  /** Upper-casing of one character; only the ASCII letters a-z are mapped. */
  function UpperChar(c: char): char
  {
    if 'a' <= c <= 'z' then (c as int - 32) as char else c
  }

  /** String.toUpperCase, character by character. */
  function ToUpper(s: string): (r: string)
    ensures |r| == |s|
    ensures forall i :: 0 <= i < |s| ==> r[i] == UpperChar(s[i])
  {
    if s == [] then [] else [UpperChar(s[0])] + ToUpper(s[1..])
  }

  /** Upper-casing twice is upper-casing once. */
  lemma ToUpperIdempotent(s: string)
    ensures ToUpper(ToUpper(s)) == ToUpper(s)
  {
    var u := ToUpper(s);
    assert forall i :: 0 <= i < |s| ==> ToUpper(u)[i] == u[i];
  }

  /** Character.isWhitespace, restricted to the ASCII whitespace characters. */
  predicate IsWhitespace(c: char)
  {
    c == ' ' || c == '\t' || c == '\n' || c == '\r' || c == '\U{B}' || c == '\U{C}'
    || ('\U{1C}' <= c <= '\U{1F}')
  }

  /** String.isBlank: empty or whitespace only. */
  predicate IsBlank(s: string)
  {
    forall i :: 0 <= i < |s| ==> IsWhitespace(s[i])
  }

  predicate IsDigit(c: char)
  {
    '0' <= c <= '9'
  }

  predicate AllDigits(s: string)
  {
    forall i :: 0 <= i < |s| ==> IsDigit(s[i])
  }

  /** The number a string of decimal digits denotes, most significant digit first. */
  function DigitsValue(s: string): nat
    requires AllDigits(s)
  {
    if s == [] then 0
    else DigitsValue(s[..|s| - 1]) * 10 + (s[|s| - 1] as int - '0' as int)
  }

  /**
   * Long.parseLong: an optional sign followed by at least one decimal digit, whose value
   * lies in the range of a 64-bit signed integer; anything else is a NumberFormatException
   * (None here). Only ASCII digits are accepted.
   */
  function ParseLong(s: string): (r: Option<int>)
    ensures r.Some? ==> LONG_MIN <= r.value <= LONG_MAX
    ensures r.Some? ==> |s| > 0
  {
    if |s| == 0 then None
    else
      var digits := if s[0] == '-' || s[0] == '+' then s[1..] else s;
      if |digits| == 0 || !AllDigits(digits) then None
      else
        var magnitude: int := DigitsValue(digits);
        var v := if s[0] == '-' then -magnitude else magnitude;
        if LONG_MIN <= v <= LONG_MAX then Some(v) else None
  }

  /** The text after one optional leading sign. */
  function Unsigned(s: string): string
    requires |s| > 0
  {
    if s[0] == '-' || s[0] == '+' then s[1..] else s
  }

  /** The number a signed digit string denotes: its digits' value, negated after a '-'. */
  function SignedValue(s: string): int
    requires |s| > 0 && AllDigits(Unsigned(s))
  {
    var magnitude: int := DigitsValue(Unsigned(s));
    if s[0] == '-' then -magnitude else magnitude
  }

  /** The texts Long.parseLong accepts: a sign at most, then at least one digit, in range. */
  predicate IsLongText(s: string)
  {
    |s| > 0 && |Unsigned(s)| > 0 && AllDigits(Unsigned(s)) && LONG_MIN <= SignedValue(s) <= LONG_MAX
  }

  /**
   * Long.parseLong accepts exactly the long texts, and yields their signed value;
   * leading zeros and a '+' are allowed, and "-0" is 0.
   */
  lemma ParseLongAccepts(s: string)
    ensures ParseLong(s).Some? <==> IsLongText(s)
    ensures ParseLong(s).Some? ==> ParseLong(s).value == SignedValue(s)
  {
  }

  /** Texts that are not canonical Long.toString output but parse, and texts that do not. */
  lemma ParseLongExamples()
    ensures ParseLong("+5") == Some(5)
    ensures ParseLong("007") == Some(7)
    ensures ParseLong("-0") == Some(0)
    ensures ParseLong("-") == None && ParseLong("+-1") == None && ParseLong("1a") == None
  {
    assert Unsigned("+5") == "5" && "5"[..0] == [];
    assert "007"[..2] == "00" && "00"[..1] == "0";
    assert Unsigned("-0") == "0" && "0"[..0] == [];
    assert !AllDigits(Unsigned("+-1")) by { assert Unsigned("+-1")[0] == '-'; }
    assert !AllDigits("1a") by { assert "1a"[1] == 'a'; }
  }

  function DigitChar(d: nat): char
    requires d < 10
  {
    ('0' as int + d) as char
  }

  /** The decimal digits of a natural number, without leading zeros. */
  function NatToString(n: nat): (s: string)
    ensures |s| > 0 && AllDigits(s) && s[0] != '-' && s[0] != '+'
  {
    if n < 10 then [DigitChar(n)] else NatToString(n / 10) + [DigitChar(n % 10)]
  }

  /** Long.toString: a minus sign for negative numbers, then the digits. */
  function LongToString(n: int): string
  {
    if n < 0 then "-" + NatToString(-n) else NatToString(n)
  }

  lemma {:induction false} DigitsOfNat(n: nat)
    ensures DigitsValue(NatToString(n)) == n
  {
    if n >= 10 {
      DigitsOfNat(n / 10);
      var s := NatToString(n);
      assert s[..|s| - 1] == NatToString(n / 10);
    }
  }

  /** Long.parseLong inverts Long.toString on the whole range of long. */
  lemma ParseLongToString(n: int)
    requires LONG_MIN <= n <= LONG_MAX
    ensures ParseLong(LongToString(n)) == Some(n)
  {
    var s := LongToString(n);
    if n < 0 {
      assert s[1..] == NatToString(-n);
      DigitsOfNat(-n);
    } else {
      DigitsOfNat(n);
    }
  }
}
