/** The text of an invoice number, `INV-<year>-<counter on at least six digits>`. */
module Numbering {

  function DigitChar(n: nat): char
    requires n < 10
  {
    '0' + n as char
  }

  function Text(n: nat): string {
    if n < 10 then [DigitChar(n)] else Text(n / 10) + [DigitChar(n % 10)]
  }

  function Zeros(n: nat): string { seq(n, _ => '0') }

  function Padded(n: nat, width: nat): string {
    Zeros(if |Text(n)| < width then width - |Text(n)| else 0) + Text(n)
  }

  function NumberText(year: nat, n: nat): string {
    "INV-" + Text(year) + "-" + Padded(n, 6)
  }

  predicate AllDigits(s: string) {
    forall i :: 0 <= i < |s| ==> '0' <= s[i] <= '9'
  }

  /** The number a string of digits denotes. */
  function Value(s: string): nat
    requires AllDigits(s)
  {
    if s == "" then 0 else 10 * Value(s[..|s| - 1]) + (s[|s| - 1] - '0') as nat
  }

  lemma {:induction false} TextValue(n: nat)
    ensures AllDigits(Text(n)) && Value(Text(n)) == n
  {
    if n >= 10 {
      TextValue(n / 10);
      assert Text(n)[..|Text(n)| - 1] == Text(n / 10);
    } else {
      assert Value("") == 0;
    }
  }

  lemma {:induction false} LeadingZeros(k: nat, s: string)
    requires AllDigits(s)
    ensures AllDigits(Zeros(k) + s) && Value(Zeros(k) + s) == Value(s)
  {
    var whole := Zeros(k) + s;
    if s == "" {
      assert whole == Zeros(k);
      ZerosValue(k);
    } else {
      LeadingZeros(k, s[..|s| - 1]);
      assert whole[..|whole| - 1] == Zeros(k) + s[..|s| - 1];
    }
  }

  lemma {:induction false} ZerosValue(k: nat)
    ensures Value(Zeros(k)) == 0
  {
    if k > 0 {
      ZerosValue(k - 1);
      assert Zeros(k)[..k - 1] == Zeros(k - 1);
    }
  }

  lemma PaddedValue(n: nat, width: nat)
    ensures AllDigits(Padded(n, width)) && Value(Padded(n, width)) == n
  {
    TextValue(n);
    LeadingZeros(if |Text(n)| < width then width - |Text(n)| else 0, Text(n));
  }

  lemma SplitAtDash(a: string, b: string, c: string, d: string)
    requires AllDigits(a) && AllDigits(c)
    requires a + "-" + b == c + "-" + d
    ensures a == c && b == d
  {
    var s := a + "-" + b;
    assert s[|a|] == '-' && s[|c|] == '-';
    assert |a| == |c|;
    assert a == s[..|a|] && c == s[..|c|];
    assert b == s[|a| + 1..] && d == s[|c| + 1..];
  }

  /** Two numbers with the same text have the same year and counter, also past 999999. */
  lemma NumberTextInjective(y1: nat, n1: nat, y2: nat, n2: nat)
    requires NumberText(y1, n1) == NumberText(y2, n2)
    ensures y1 == y2 && n1 == n2
  {
    hide Text, Padded;
    TextValue(y1);
    TextValue(y2);
    PaddedValue(n1, 6);
    PaddedValue(n2, 6);
    assert NumberText(y1, n1)[4..] == Text(y1) + "-" + Padded(n1, 6);
    assert NumberText(y2, n2)[4..] == Text(y2) + "-" + Padded(n2, 6);
    SplitAtDash(Text(y1), Padded(n1, 6), Text(y2), Padded(n2, 6));
  }

  /** A text of digits without a leading zero, unless it is zero itself. */
  predicate Plain(s: string) {
    s != "" && AllDigits(s) && (|s| > 1 ==> s[0] != '0')
  }

  lemma {:induction false} TextPlain(n: nat)
    ensures Plain(Text(n)) && Value(Text(n)) == n && (n > 0 ==> Text(n)[0] != '0')
  {
    TextValue(n);
    if n >= 10 {
      TextPlain(n / 10);
      assert Text(n)[0] == Text(n / 10)[0];
    }
  }

  /** The number reads INV, the year, and the counter on six digits, on more only when it needs them. */
  lemma NumberReads(year: nat, n: nat) returns (y: string, c: string)
    ensures NumberText(year, n) == "INV-" + y + "-" + c && Plain(y) && Value(y) == year
    ensures AllDigits(c) && Value(c) == n && |c| >= 6 && (|c| > 6 ==> c[0] != '0')
  {
    TextPlain(year);
    TextPlain(n);
    PaddedValue(n, 6);
    y, c := Text(year), Padded(n, 6);
  }
}
