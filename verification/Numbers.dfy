/** Printed sequence numbers: decimal digits, zero padding, and why distinct inputs print differently. */
module Numbers {

  function Digit(d: nat): char
    requires d < 10
  {
    '0' + d as char
  }

  function Digits(n: nat): (s: string)
    ensures s != "" && forall i :: 0 <= i < |s| ==> '0' <= s[i] <= '9'
  {
    if n < 10 then [Digit(n)] else Digits(n / 10) + [Digit(n % 10)]
  }

  /** Python's `{n:0<width>d}`. */
  function Padded(n: nat, width: nat): (s: string)
    ensures |s| >= width && forall i :: 0 <= i < |s| ==> '0' <= s[i] <= '9'
  {
    Zeros(width - |Digits(n)|) + Digits(n)
  }

  function Zeros(k: int): (s: string)
    ensures |s| == if k > 0 then k else 0
    ensures forall i :: 0 <= i < |s| ==> s[i] == '0'
  {
    if k <= 0 then "" else "0" + Zeros(k - 1)
  }

  /** Reading a digit string back. */
  function ValueOf(s: string): int {
    if s == "" then 0 else 10 * ValueOf(s[..|s| - 1]) + (s[|s| - 1] as int - '0' as int)
  }

  lemma {:induction false} DigitsRoundTrip(n: nat)
    ensures ValueOf(Digits(n)) == n
  {
    if n >= 10 {
      DigitsRoundTrip(n / 10);
      assert Digits(n)[..|Digits(n)| - 1] == Digits(n / 10);
    }
  }

  lemma {:induction false} LeadingZeros(k: int, s: string)
    ensures ValueOf(Zeros(k) + s) == ValueOf(s)
    decreases k, |s|
  {
    if s == "" {
      assert Zeros(k) + s == Zeros(k);
      AllZeros(k);
    } else {
      LeadingZeros(k, s[..|s| - 1]);
      var t := Zeros(k) + s;
      assert t[..|t| - 1] == Zeros(k) + s[..|s| - 1];
    }
  }

  lemma {:induction false} AllZeros(k: int)
    ensures ValueOf(Zeros(k)) == 0
  {
    if k > 0 {
      AllZeros(k - 1);
      var z := Zeros(k);
      assert z[..|z| - 1] == Zeros(k - 1) by {
        assert forall i :: 0 <= i < k - 1 ==> z[i] == Zeros(k - 1)[i];
      }
    }
  }

  lemma PaddedRoundTrip(n: nat, width: nat)
    ensures ValueOf(Padded(n, width)) == n
  {
    LeadingZeros(width - |Digits(n)|, Digits(n));
    DigitsRoundTrip(n);
  }

  /** The number printed on an issued invoice. */
  function InvoiceNumber(year: nat, sequence: nat): string {
    "NG-INV-" + (Digits(year) + ("-" + Padded(sequence, 5)))
  }

  /** The number printed on an order. */
  function OrderNumber(sequence: nat): string {
    "BO-" + Padded(sequence, 6)
  }

  lemma SplitAtDash(a: string, b: string, c: string, d: string)
    requires '-' !in a && '-' !in c
    requires a + ("-" + b) == c + ("-" + d)
    ensures a == c && b == d
  {
    var s := a + ("-" + b);
    assert s[|a|] == '-' && s[|c|] == '-';
    assert forall i :: 0 <= i < |a| ==> s[i] == a[i] && a[i] in a;
    assert forall i :: 0 <= i < |c| ==> s[i] == c[i] && c[i] in c;
    assert |a| == |c|;
    assert a == s[..|a|] == c;
    assert b == s[|a| + 1..] == d;
  }

  lemma CancelPrefix(p: string, a: string, b: string)
    requires p + a == p + b
    ensures a == b
  {
    assert a == (p + a)[|p|..] && b == (p + b)[|p|..];
  }

  /** Invoice numbers are injective in year and sequence value, for numbers of any width. */
  lemma InvoiceNumberInjective(y1: nat, s1: nat, y2: nat, s2: nat)
    requires InvoiceNumber(y1, s1) == InvoiceNumber(y2, s2)
    ensures y1 == y2 && s1 == s2
  {
    CancelPrefix("NG-INV-", Digits(y1) + ("-" + Padded(s1, 5)), Digits(y2) + ("-" + Padded(s2, 5)));
    SplitAtDash(Digits(y1), Padded(s1, 5), Digits(y2), Padded(s2, 5));
    DigitsRoundTrip(y1);
    DigitsRoundTrip(y2);
    PaddedRoundTrip(s1, 5);
    PaddedRoundTrip(s2, 5);
  }

  lemma OrderNumberInjective(s1: nat, s2: nat)
    requires OrderNumber(s1) == OrderNumber(s2)
    ensures s1 == s2
  {
    CancelPrefix("BO-", Padded(s1, 6), Padded(s2, 6));
    PaddedRoundTrip(s1, 6);
    PaddedRoundTrip(s2, 6);
  }

  /** What is printed: the prefix, the year, and at least five digits; for orders the prefix and at least six. */
  lemma NumbersRead(year: nat, sequence: nat)
    ensures InvoiceNumber(year, sequence) == "NG-INV-" + Digits(year) + "-" + Padded(sequence, 5)
    ensures OrderNumber(sequence) == "BO-" + Padded(sequence, 6)
    ensures Padded(7, 5) == "00007" && Padded(42, 6) == "000042"
  {
    assert Zeros(4) == "0000" by {
      assert Zeros(2) == "00" && Zeros(3) == "000";
    }
    assert Digits(42) == "42" && Digits(7) == "7";
  }
}
