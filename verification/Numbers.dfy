/** Decimal numbers in text, as Go prints and reads them. */
module Numbers {
  import opened Options
  import opened Text

  const INT64_MAX := 0x7FFF_FFFF_FFFF_FFFF

  predicate IsDigit(c: char) { '0' <= c <= '9' }

  function Digit(d: nat): (c: char)
    requires d < 10
    ensures IsDigit(c) && c as int - '0' as int == d
  {
    ('0' as int + d) as char
  }

  /** The decimal print of a number. */
  function Itoa(n: nat): (s: string)
    ensures s != "" && forall k :: 0 <= k < |s| ==> IsDigit(s[k])
  {
    if n < 10 then [Digit(n)] else Itoa(n / 10) + [Digit(n % 10)]
  }

  predicate AllDigits(s: string) { forall k :: 0 <= k < |s| ==> IsDigit(s[k]) }

  function Value(s: string): nat
    requires AllDigits(s)
  {
    if s == "" then 0 else 10 * Value(s[..|s| - 1]) + (s[|s| - 1] as int - '0' as int)
  }

  lemma {:induction false} PrintedValue(n: nat)
    ensures AllDigits(Itoa(n)) && Value(Itoa(n)) == n
  {
    var s := Itoa(n);
    if n < 10 {
      assert s[..0] == "";
    } else {
      PrintedValue(n / 10);
      assert s[..|s| - 1] == Itoa(n / 10);
    }
  }

  /** The digits of a signed number: without its sign. */
  function Unsigned(s: string): string { if s != "" && s[0] in {'+', '-'} then s[1..] else s }

  /** strconv.ParseInt(s, 10, 64): a sign, digits, and a value that fits. */
  function ParseInt(s: string): Option<int> {
    var digits := Unsigned(s);
    if digits == "" || !AllDigits(digits) then None
    else if s[0] == '-' then
      if Value(digits) <= INT64_MAX + 1 then Some(0 - Value(digits)) else None
    else if Value(digits) <= INT64_MAX then Some(Value(digits))
    else None
  }

  /** Reading a printed number gives it back. */
  lemma ParsePrinted(n: nat)
    requires n <= INT64_MAX
    ensures ParseInt(Itoa(n)) == Some(n)
  {
    PrintedValue(n);
    var s := Itoa(n);
    assert IsDigit(s[0]);
  }

  lemma PositiveIsRead(s: string)
    requires s != "" && AllDigits(s)
    ensures ParseInt("+" + s) == ParseInt(s) == if Value(s) <= 0x7FFF_FFFF_FFFF_FFFF then Some(Value(s)) else None
  {
    assert ("+" + s)[1..] == s && s[0] != '+' && s[0] != '-';
  }

  lemma NegativeIsRead(s: string)
    requires s != "" && AllDigits(s)
    ensures ParseInt("-" + s) == if Value(s) <= 0x8000_0000_0000_0000 then Some(0 - Value(s)) else None
  {
    assert ("-" + s)[1..] == s;
  }

  /** A sign is read too, and a number that does not fit 64 bits is refused. */
  lemma ParseSigned(n: nat)
    ensures ParseInt("+" + Itoa(n)) == ParseInt(Itoa(n)) == if n <= 0x7FFF_FFFF_FFFF_FFFF then Some(n) else None
    ensures ParseInt("-" + Itoa(n)) == if n <= 0x8000_0000_0000_0000 then Some(0 - n) else None
  {
    PrintedValue(n);
    PositiveIsRead(Itoa(n));
    NegativeIsRead(Itoa(n));
  }

  /** Anything but digits, with or without a sign before them, is refused. */
  lemma ParseRefuses(s: string)
    ensures ParseInt(s).Some? ==> s != "" && (forall k :: 1 <= k < |s| ==> '0' <= s[k] <= '9')
    ensures ParseInt(s).Some? ==> ('0' <= s[0] <= '9' || (s[0] in {'+', '-'} && |s| > 1))
  {
    var digits := Unsigned(s);
    if ParseInt(s).Some? && digits != s {
      forall k | 1 <= k < |s| ensures '0' <= s[k] <= '9' { assert s[k] == digits[k - 1]; }
    }
  }

  lemma PrintedIsTrimmed(n: nat)
    ensures Trim(Itoa(n)) == Itoa(n)
  {
    var s := Itoa(n);
    assert IsDigit(s[0]) && IsDigit(s[|s| - 1]);
    TrimmedStays(s);
  }
}
