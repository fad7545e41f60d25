/** Decimal numerals, written and read back. */
module Decimals {
  import opened Wrappers

  predicate IsDigit(c: char) {
    '0' <= c <= '9'
  }

  predicate AllDigits(s: string) {
    forall i | 0 <= i < |s| :: IsDigit(s[i])
  }

  function Digit(d: nat): (c: char)
    requires d < 10
    ensures IsDigit(c) && DigitValue(c) == d
  {
    ('0' as int + d) as char
  }

  function DigitValue(c: char): nat
    requires IsDigit(c)
  {
    c as int - '0' as int
  }

  function Digits(n: nat): (s: string)
    ensures s != "" && AllDigits(s) && ValueOf(s) == n
  {
    if n < 10 then [Digit(n)] else
      var s := Digits(n / 10);
      assert (s + [Digit(n % 10)])[..|s|] == s;
      s + [Digit(n % 10)]
  }

  function ValueOf(s: string): nat
    requires AllDigits(s)
  {
    if s == "" then 0 else 10 * ValueOf(s[..|s| - 1]) + DigitValue(s[|s| - 1])
  }

  function Zeros(n: nat): (s: string)
    ensures |s| == n && AllDigits(s)
  {
    if n == 0 then "" else Zeros(n - 1) + "0"
  }

  /** At least ten digits, filled up with zeros on the left. */
  function Padded(n: nat): (s: string)
    ensures AllDigits(s)
  {
    var s := Digits(n);
    if |s| < 10 then Zeros(10 - |s|) + s else s
  }

  function Power10(n: nat): (p: nat)
    ensures p >= 1
  {
    if n == 0 then 1 else 10 * Power10(n - 1)
  }

  lemma {:induction false} DigitsLength(n: nat, k: nat)
    requires k >= 1
    ensures |Digits(n)| <= k <==> n < Power10(k)
  {
    if k == 1 {
      assert Power10(1) == 10 * Power10(0);
      if n >= 10 {
        assert |Digits(n / 10)| >= 1;
      }
    } else if n >= 10 {
      DigitsLength(n / 10, k - 1);
    }
  }

  lemma {:induction false} ZerosAlone(n: nat)
    ensures ValueOf(Zeros(n)) == 0
  {
    if n > 0 {
      var zeros := Zeros(n);
      assert zeros[..|zeros| - 1] == Zeros(n - 1);
      ZerosAlone(n - 1);
    }
  }

  lemma {:induction false} ZerosValue(n: nat, s: string)
    requires AllDigits(s)
    ensures ValueOf(Zeros(n) + s) == ValueOf(s)
  {
    hide Zeros;
    if s == "" {
      assert Zeros(n) + s == Zeros(n);
      ZerosAlone(n);
    } else {
      var t, all := s[..|s| - 1], Zeros(n) + s;
      assert all[..|all| - 1] == Zeros(n) + t;
      ZerosValue(n, t);
    }
  }

  /** A padded numeral keeps its value, and fits ten digits exactly below 10^10. */
  lemma PaddedNumeral(n: nat)
    ensures ValueOf(Padded(n)) == n
    ensures |Padded(n)| == 10 <==> n < Power10(10)
  {
    DigitsLength(n, 10);
    var s := Digits(n);
    if |s| < 10 {
      ZerosValue(10 - |s|, s);
    }
  }

  // ------------------------------------------------------------- reading

  function DigitRun(s: string): (n: nat)
    ensures n <= |s| && AllDigits(s[..n])
  {
    if s != "" && IsDigit(s[0]) then
      assert s[..1 + DigitRun(s[1..])] == [s[0]] + s[1..][..DigitRun(s[1..])];
      1 + DigitRun(s[1..])
    else 0
  }

  /** The numeral a text starts with, and the text after it. */
  function ReadNat(s: string): (r: Option<(nat, string)>)
    ensures r.Some? ==> |r.value.1| < |s|
  {
    var n := DigitRun(s);
    if n == 0 then None else Some((ValueOf(s[..n]), s[n..]))
  }

  lemma {:induction false} DigitRunStops(ds: string, r: string)
    requires AllDigits(ds) && (r == "" || !IsDigit(r[0]))
    ensures DigitRun(ds + r) == |ds|
  {
    if ds == "" {
      assert ds + r == r;
    } else {
      assert (ds + r)[1..] == ds[1..] + r;
      DigitRunStops(ds[1..], r);
    }
  }

  lemma NumeralRead(n: nat, r: string)
    requires r == "" || !IsDigit(r[0])
    ensures ReadNat(Digits(n) + r) == Some((n, r))
  {
    var ds := Digits(n);
    DigitRunStops(ds, r);
    assert (ds + r)[..|ds|] == ds && (ds + r)[|ds|..] == r;
  }
}
