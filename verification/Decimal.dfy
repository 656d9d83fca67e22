/** Decimal numbers as text. */
module Decimal {

  predicate IsDigit(c: char) {
    '0' <= c <= '9'
  }

  predicate AllDigits(s: string) {
    s != "" && forall i :: 0 <= i < |s| ==> IsDigit(s[i])
  }

  function DigitChar(d: nat): (c: char)
    requires d < 10
    ensures IsDigit(c) && DigitValue(c) == d
  {
    ('0' as int + d) as char
  }

  function DigitValue(c: char): nat
    requires IsDigit(c)
  {
    c as int - '0' as int
  }

  /** The shortest decimal text of a number. */
  function Print(n: nat): string {
    if n < 10 then [DigitChar(n)] else Print(n / 10) + [DigitChar(n % 10)]
  }

  /** The number a digit string stands for; leading zeros do not matter. */
  function Parse(s: string): nat
    requires AllDigits(s)
  {
    var n := |s| - 1;
    (if n == 0 then 0 else 10 * Parse(s[..n])) + DigitValue(s[n])
  }

  lemma {:induction false} ParsePrint(n: nat)
    ensures AllDigits(Print(n)) && Parse(Print(n)) == n
  {
    if n >= 10 {
      ParsePrint(n / 10);
      var s := Print(n);
      assert s[..|s|-1] == Print(n / 10) && s[|s|-1] == DigitChar(n % 10);
    }
  }

  /** No leading zeros are printed. */
  lemma {:induction false} PrintLeads(n: nat)
    requires n > 0
    ensures Print(n)[0] != '0'
  {
    if n >= 10 {
      PrintLeads(n / 10);
    } else {
      assert DigitValue(DigitChar(n)) == n;
    }
  }

  /** Signed numbers, as printed by an integer interpolation. */
  function PrintInt(n: int): string {
    if n < 0 then "-" + Print(-n) else Print(n)
  }

  predicate IsInt(s: string) {
    AllDigits(s) || (|s| > 1 && s[0] == '-' && AllDigits(s[1..]))
  }

  function ParseInt(s: string): int
    requires IsInt(s)
  {
    if s[0] == '-' then 0 - Parse(s[1..]) else Parse(s)
  }

  lemma ParsePrintInt(n: int)
    ensures IsInt(PrintInt(n)) && ParseInt(PrintInt(n)) == n
  {
    ParsePrint(if n < 0 then -n else n);
  }

  /** Leading zeros do not change a number. */
  lemma {:induction false} ParseLeadingZero(s: string)
    requires AllDigits(s)
    ensures AllDigits("0" + s) && Parse("0" + s) == Parse(s)
  {
    var t := "0" + s;
    var n := |s| - 1;
    assert t[..|s|] == "0" + s[..n];
    if n == 0 {
      assert t[..1] == "0";
      assert Parse("0") == 0;
    } else {
      ParseLeadingZero(s[..n]);
    }
  }
}
