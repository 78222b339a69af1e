/** Go's `%d` verb: printing any int, and reading back an unsigned 32-bit one. */
module Decimal {
  import opened Prelude

  predicate IsDigit(c: char) { '0' <= c <= '9' }

  predicate AllDigits(s: string) { forall i :: 0 <= i < |s| ==> IsDigit(s[i]) }

  function DigitChar(d: nat): (c: char)
    requires d < 10
    ensures IsDigit(c) && DigitValue(c) == d
  {
    '0' + d as char
  }

  function DigitValue(c: char): (d: nat)
    requires IsDigit(c)
    ensures d < 10
  {
    (c - '0') as nat
  }

  /** The decimal digits of n, most significant first, no leading zero. */
  function PrintNat(n: nat): (s: string)
    ensures |s| > 0 && AllDigits(s)
  {
    if n < 10 then [DigitChar(n)] else PrintNat(n / 10) + [DigitChar(n % 10)]
  }

  /** `fmt.Sprintf("%d", n)`. */
  function PrintInt(n: int): string {
    if n < 0 then "-" + PrintNat(-n) else PrintNat(n)
  }

  /** The number a run of digits stands for. */
  function ReadNat(s: string): nat
    requires AllDigits(s)
  {
    if |s| == 0 then 0 else ReadNat(s[..|s| - 1]) * 10 + DigitValue(s[|s| - 1])
  }

  lemma {:induction false} ReadPrintNat(n: nat)
    ensures ReadNat(PrintNat(n)) == n
  {
    var s := PrintNat(n);
    if n < 10 {
      assert s[..|s| - 1] == [];
    } else {
      assert s[..|s| - 1] == PrintNat(n / 10);
      ReadPrintNat(n / 10);
    }
  }

  lemma PrintIntInjective(a: int, b: int)
    requires PrintInt(a) == PrintInt(b)
    ensures a == b
  {
    var n, m := if a < 0 then -a else a, if b < 0 then -b else b;
    ReadPrintNat(n);
    ReadPrintNat(m);
    assert IsDigit(PrintNat(n)[0]) && IsDigit(PrintNat(m)[0]);
    assert PrintInt(a)[0] == '-' <==> a < 0;
    assert PrintInt(b)[0] == '-' <==> b < 0;
    if a < 0 && b < 0 {
      assert PrintInt(a)[1..] == PrintNat(n) && PrintInt(b)[1..] == PrintNat(m);
    }
  }

  /** No printed number contains a colon, so the last colon of "txid:vout" is the separator. */
  lemma NoColon(n: int)
    ensures ':' !in PrintInt(n)
  {
    if n < 0 {
      assert AllDigits(PrintNat(-n));
      forall i | 0 <= i < |PrintInt(n)| ensures PrintInt(n)[i] != ':' {
        if i > 0 { assert PrintInt(n)[i] == PrintNat(-n)[i - 1]; }
      }
    }
  }

  /** White space as package fmt's scanner sees it, newline apart. */
  predicate IsBlank(c: char) {
    || c == '\t' || '\U{000B}' <= c <= '\r' || c == ' ' || c == '\U{0085}' || c == '\U{00A0}'
    || c == '\U{1680}' || '\U{2000}' <= c <= '\U{200A}' || '\U{2028}' <= c <= '\U{2029}'
    || c == '\U{202F}' || c == '\U{205F}' || c == '\U{3000}'
  }

  function SkipBlanks(s: string): (r: string)
    ensures |r| <= |s|
  {
    if |s| > 0 && IsBlank(s[0]) then SkipBlanks(s[1..]) else s
  }

  /** The longest prefix of s made of digits. */
  function LeadingDigits(s: string): (r: string)
    ensures AllDigits(r) && r <= s
  {
    if |s| > 0 && IsDigit(s[0]) then [s[0]] + LeadingDigits(s[1..]) else []
  }

  /** `fmt.Sscanf(s, "%d", &index)` for a uint32: blanks are skipped, at least one digit is
      required, no sign is accepted, what follows the digits is ignored, and a value that does
      not fit 32 bits is an error. */
  function ScanUint32(s: string): (r: Option<nat>)
    ensures r.Some? ==> r.value < 0x1_0000_0000
  {
    var digits := LeadingDigits(SkipBlanks(s));
    if |digits| == 0 || ReadNat(digits) >= 0x1_0000_0000 then None else Some(ReadNat(digits))
  }

  lemma {:induction false} LeadingDigitsOfDigits(s: string, rest: string)
    requires AllDigits(s)
    requires |rest| == 0 || !IsDigit(rest[0])
    ensures LeadingDigits(s + rest) == s
  {
    if |s| == 0 {
      assert s + rest == rest;
    } else {
      assert (s + rest)[1..] == s[1..] + rest;
      LeadingDigitsOfDigits(s[1..], rest);
    }
  }

  lemma ScanPrinted(n: nat)
    ensures ScanUint32(PrintNat(n)) == if n < 0x1_0000_0000 then Some(n) else None
  {
    var s := PrintNat(n);
    assert IsDigit(s[0]);
    assert SkipBlanks(s) == s;
    assert s + [] == s;
    LeadingDigitsOfDigits(s, []);
    ReadPrintNat(n);
  }

  /** A sign is never accepted by the unsigned scanner. */
  lemma ScanNegative(n: int)
    requires n < 0
    ensures ScanUint32(PrintInt(n)) == None
  {
    var s := PrintInt(n);
    assert s[0] == '-';
    assert SkipBlanks(s) == s;
    assert LeadingDigits(s) == [];
  }

  lemma {:induction false} SkipBlanksIs(blanks: string, rest: string)
    requires forall i :: 0 <= i < |blanks| ==> IsBlank(blanks[i])
    requires |rest| == 0 || !IsBlank(rest[0])
    ensures SkipBlanks(blanks + rest) == rest
  {
    if |blanks| == 0 {
      assert blanks + rest == rest;
    } else {
      assert (blanks + rest)[1..] == blanks[1..] + rest;
      SkipBlanksIs(blanks[1..], rest);
    }
  }

  /** What the scanner makes of any text, cut into blanks, digits and the rest: the number the
      digits stand for, unless there are none or it needs more than 32 bits. */
  lemma ScanIs(blanks: string, digits: string, rest: string)
    requires forall i :: 0 <= i < |blanks| ==> IsBlank(blanks[i])
    requires AllDigits(digits)
    requires |rest| > 0 ==> !IsDigit(rest[0]) && (|digits| > 0 || !IsBlank(rest[0]))
    ensures ScanUint32(blanks + (digits + rest))
         == if |digits| == 0 || ReadNat(digits) >= 0x1_0000_0000 then None else Some(ReadNat(digits))
  {
    assert |digits| > 0 ==> (digits + rest)[0] == digits[0] && IsDigit(digits[0]);
    assert |digits| == 0 ==> digits + rest == rest;
    SkipBlanksIs(blanks, digits + rest);
    LeadingDigitsOfDigits(digits, rest);
  }
}
