/** Decimal printing and reading of numbers, as fmt and strconv do it. */
module Numbers {
  import opened Wrappers

  const MAX_INT := 0x7FFF_FFFF_FFFF_FFFF

  predicate IsDigit(c: char) {
    '0' <= c <= '9'
  }

  predicate AllDigits(s: string) {
    forall i | 0 <= i < |s| :: IsDigit(s[i])
  }

  function DigitChar(d: nat): (c: char)
    requires d < 10
    ensures IsDigit(c) && c as int - '0' as int == d
  {
    ('0' as int + d) as char
  }

  /** %d of a natural number. */
  function Digits(n: nat): (s: string)
    ensures |s| >= 1 && AllDigits(s)
    ensures n < 10 <==> |s| == 1
    ensures n < 100 <==> |s| <= 2
  {
    if n < 10 then [DigitChar(n)] else Digits(n / 10) + [DigitChar(n % 10)]
  }

  function Value(s: string): nat
    requires AllDigits(s)
  {
    if s == [] then 0 else Value(s[..|s| - 1]) * 10 + (s[|s| - 1] as int - '0' as int)
  }

  /** %03d of a natural number. */
  function Pad3(n: nat): (s: string)
    ensures |s| >= 3 && AllDigits(s)
    ensures n < 1000 <==> |s| == 3
  {
    assert n >= 10 ==> (n < 1000 <==> n / 10 < 100) && |Digits(n)| == |Digits(n / 10)| + 1;
    if n < 10 then "00" + Digits(n) else if n < 100 then "0" + Digits(n) else Digits(n)
  }

  lemma {:induction false} ValueDigits(n: nat)
    ensures Value(Digits(n)) == n
  {
    if n >= 10 {
      ValueDigits(n / 10);
      assert Digits(n)[..|Digits(n)| - 1] == Digits(n / 10);
    } else {
      assert Digits(n)[..0] == [];
    }
  }

  lemma {:induction false} LeadingZero(s: string)
    requires AllDigits(s)
    ensures AllDigits("0" + s) && Value("0" + s) == Value(s)
  {
    var z := "0" + s;
    if s == [] {
      assert z[..0] == [];
    } else {
      LeadingZero(s[..|s| - 1]);
      assert z[..|z| - 1] == "0" + s[..|s| - 1];
    }
  }

  lemma ValuePad3(n: nat)
    ensures Value(Pad3(n)) == n
  {
    ValueDigits(n);
    LeadingZero(Digits(n));
    LeadingZero("0" + Digits(n));
    assert "0" + ("0" + Digits(n)) == "00" + Digits(n);
  }

  /** Zeros stand in front only of numbers that have fewer than three digits. */
  lemma {:induction false} NoLeadingZero(n: nat)
    requires n > 0
    ensures Digits(n)[0] != '0'
  {
    if n >= 10 {
      NoLeadingZero(n / 10);
    }
  }

  lemma PadsToThree(n: nat)
    ensures Value(Pad3(n)) == n && |Pad3(n)| >= 3 && (|Pad3(n)| > 3 ==> Pad3(n)[0] != '0')
  {
    ValuePad3(n);
    if n >= 1000 {
      NoLeadingZero(n);
    }
  }

  lemma Pad3Injective(m: nat, n: nat)
    requires Pad3(m) == Pad3(n)
    ensures m == n
  {
    ValuePad3(m);
    ValuePad3(n);
  }

  /** strconv.Atoi: an optional sign, at least one digit, and within 64 bits. */
  function Atoi(s: string): Option<int> {
    var negative := s != [] && s[0] == '-';
    var body := if s != [] && (s[0] == '-' || s[0] == '+') then s[1..] else s;
    if body == [] || !AllDigits(body) then None
    else
      var n := if negative then 0 - Value(body) else Value(body);
      if -MAX_INT - 1 <= n <= MAX_INT then Some(n) else None
  }

  /** Exactly the signed decimal numbers of 64 bits are read, each as what it says. */
  lemma AtoiReads(s: string, n: int)
    ensures Atoi(s) == Some(n) <==>
            exists sign: string, digits: string :: sign in {"", "+", "-"} && s == sign + digits && NamesInt(sign, digits, n)
  {
    if Atoi(s) == Some(n) {
      var sign := if s[0] == '-' then "-" else if s[0] == '+' then "+" else "";
      assert s == sign + s[|sign|..] && NamesInt(sign, s[|sign|..], n);
    }
    forall sign: string, digits: string | sign in {"", "+", "-"} && s == sign + digits && NamesInt(sign, digits, n)
      ensures Atoi(s) == Some(n)
    {
      assert IsDigit(digits[0]);
      assert s[|sign|..] == digits;
    }
  }

  ghost predicate NamesInt(sign: string, digits: string, n: int) {
    && digits != "" && AllDigits(digits) && n == (if sign == "-" then 0 - Value(digits) else Value(digits))
    && -0x8000_0000_0000_0000 <= n < 0x8000_0000_0000_0000
  }

  function TrimSuffix(s: string, suffix: string): string {
    if |suffix| <= |s| && s[|s| - |suffix|..] == suffix then s[..|s| - |suffix|] else s
  }

  lemma TrimSuffixCuts(s: string, suffix: string)
    ensures TrimSuffix(s + suffix, suffix) == s
    ensures TrimSuffix(s, suffix) == s || s == TrimSuffix(s, suffix) + suffix
  {
    var all := s + suffix;
    assert all[|all| - |suffix|..] == suffix && all[..|all| - |suffix|] == s;
  }

  /** math.Ceil */
  function Ceil(x: real): int {
    -((-x).Floor)
  }

  /** The nearest integer, ties to even, as %.3f rounds the last digit. */
  function Nearest(x: real): int {
    var f := x.Floor;
    var frac := x - f as real;
    if frac < 0.5 then f else if frac > 0.5 then f + 1 else if f % 2 == 0 then f else f + 1
  }

  /** The number of thousandths nearest to x. */
  function Milli(x: real): (m: nat)
    requires x >= 0.0
  {
    Nearest(x * 1000.0)
  }

  lemma MilliIsNearest(x: real)
    requires x >= 0.0
    ensures -0.0005 <= x - Milli(x) as real / 1000.0 <= 0.0005
  {
    NearestRounds(x * 1000.0, 0);
  }

  /** %.3f of a non-negative number. */
  function Fixed3(x: real): string
    requires x >= 0.0
  {
    Thousandths(Milli(x))
  }

  function Thousandths(m: nat): string {
    Digits(m / 1000) + ['.'] + Pad3(m % 1000)
  }

  /** No whole number is nearer, and of two equally near ones the even one is taken. */
  lemma NearestRounds(x: real, n: int)
    ensures var r := Nearest(x); -0.5 <= x - r as real <= 0.5
    ensures n != Nearest(x) && -0.5 <= x - n as real <= 0.5 ==> n % 2 != 0 && Nearest(x) % 2 == 0
  {
    var f := x.Floor;
    assert f as real <= x < (f + 1) as real;
    if n != Nearest(x) && -0.5 <= x - n as real <= 0.5 {
      assert n == f || n == f + 1;
    }
  }

  lemma NearestOfWhole(n: int)
    ensures Nearest(n as real) == n
  {
  }

  lemma WholeThousandths(n: nat)
    ensures Thousandths(n * 1000) == Digits(n) + ['.'] + Pad3(0)
  {
    assert n * 1000 / 1000 == n && n * 1000 % 1000 == 0;
  }

  lemma MilliOfWhole(n: nat)
    ensures Milli(n as real) == n * 1000
  {
    assert n as real * 1000.0 == (n * 1000) as real;
    NearestOfWhole(n * 1000);
  }

  lemma Fixed3OfWhole(n: nat)
    ensures Fixed3(n as real) == Digits(n) + ['.'] + Pad3(0)
  {
    MilliOfWhole(n);
    WholeThousandths(n);
  }
}
