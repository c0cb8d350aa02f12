/**
 * Base-10 formatting of integers, as the generation stamps use it.
 * The reconcilers compare stamps as strings, so the protocol needs formatting to be injective.
 */
module Decimal {
  function DigitChar(d: nat): (c: char)
    requires d < 10
    ensures c != '-'
  {
    ('0' as int + d) as char
  }

  function FormatNat(n: nat): (s: string)
    ensures s != "" && s[0] != '-'
  {
    if n < 10 then [DigitChar(n)] else FormatNat(n / 10) + [DigitChar(n % 10)]
  }

  function FormatInt(n: int): string {
    if n < 0 then "-" + FormatNat(-n) else FormatNat(n)
  }

  function ParseNat(s: string): int {
    if s == "" then 0 else 10 * ParseNat(s[..|s| - 1]) + (s[|s| - 1] as int - '0' as int)
  }

  function ParseInt(s: string): int {
    if s != "" && s[0] == '-' then -ParseNat(s[1..]) else ParseNat(s)
  }

  lemma {:induction false} ParseNatFormatNat(n: nat)
    ensures ParseNat(FormatNat(n)) == n
  {
    var s := FormatNat(n);
    if n < 10 {
      assert s[..|s| - 1] == "";
    } else {
      assert s[..|s| - 1] == FormatNat(n / 10);
      ParseNatFormatNat(n / 10);
    }
  }

  /** In base 10: a digit is its character, a further digit is appended, and a sign goes in front. */
  lemma DigitByDigit(n: int, d: nat)
    requires n > 0 && d < 10
    ensures FormatInt(d) == ["0123456789"[d]]
    ensures FormatInt(10 * n + d) == FormatInt(n) + ["0123456789"[d]]
    ensures FormatInt(-n) == "-" + FormatInt(n)
  {
    assert "0123456789"[d] == DigitChar(d);
    assert (10 * n + d) / 10 == n && (10 * n + d) % 10 == d;
  }

  /** Formatting loses nothing: parsing gives the number back. */
  lemma ParseFormat(n: int)
    ensures ParseInt(FormatInt(n)) == n
    ensures FormatInt(n) != ""
  {
    if n < 0 {
      assert FormatInt(n)[1..] == FormatNat(-n);
      ParseNatFormatNat(-n);
    } else {
      ParseNatFormatNat(n);
    }
  }

  /** Two generations have the same text exactly when they are the same generation. */
  lemma FormatInjective(m: int, n: int)
    ensures FormatInt(m) == FormatInt(n) <==> m == n
  {
    ParseFormat(m);
    ParseFormat(n);
  }
}
