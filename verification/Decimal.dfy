/**
 Decimal numerals: what `sprintf("%d")` prints (my_string.cpp:49-56) and `atoi` reads
 (my_string.cpp:173), and that reading a printed number gives it back.
 */
module Decimal {

  function Digit(k: nat): char
    requires k < 10
  {
    '0' + k as char
  }

  predicate IsDigit(c: char) {
    '0' <= c <= '9'
  }

  function Value(c: char): nat
    requires IsDigit(c)
  {
    c as int - '0' as int
  }

  function PrintNat(n: nat): (s: string)
    ensures s != ""
    ensures forall k :: 0 <= k < |s| ==> IsDigit(s[k])
  {
    if n < 10 then [Digit(n)] else PrintNat(n / 10) + [Digit(n % 10)]
  }

  function Print(x: int): (s: string)
    ensures s != ""
  {
    if x < 0 then "-" + PrintNat(-x) else PrintNat(x)
  }

  // ---- What a numeral is ------------------------------------------------------------------------

  function Pow10(k: nat): (p: nat)
    ensures p > 0
  {
    if k == 0 then 1 else 10 * Pow10(k - 1)
  }

  function Abs(x: int): nat {
    if x < 0 then -x else x
  }

  /** The digits of `n`, place by place, and no more of them than it takes. */
  predicate AreDigits(s: string, n: nat) {
    && s != ""
    && n < Pow10(|s|) && (|s| > 1 ==> Pow10(|s| - 1) <= n)
    && forall i :: 0 <= i < |s| ==> s[i] as int == '0' as int + n / Pow10(|s| - 1 - i) % 10
  }

  /** The decimal numeral of `x`: a minus if it is negative, and the digits. */
  predicate IsNumeral(s: string, x: int) {
    if x < 0 then s != "" && s[0] == '-' && AreDigits(s[1..], -x) else AreDigits(s, x)
  }

  lemma DropPlace(n: nat, p: nat)
    requires p > 0
    ensures n / 10 / p == n / (10 * p)
  {
    var q := n / 10 / p;
    var r := n / 10 % p;
    assert n / 10 == q * p + r;
    assert n == 10 * p * q + (10 * r + n % 10);
    assert 0 <= 10 * r + n % 10 < 10 * p;
    Quotient(n, 10 * p, q, 10 * r + n % 10);
  }

  lemma Quotient(n: int, d: int, q: int, r: int)
    requires d > 0 && n == d * q + r && 0 <= r < d
    ensures n / d == q
  {
    var k := n / d - q;
    assert n == d * (n / d) + n % d;
    assert d * k == r - n % d;
    Multiples(d, k);
  }

  lemma Multiples(d: int, k: int)
    requires d > 0
    ensures k >= 1 ==> d * k >= d
    ensures k <= -1 ==> d * k <= -d
  {
    if k >= 1 { assert d * (k - 1) >= 0; }
    if k <= -1 { assert d * (k + 1) <= 0; }
  }

  lemma {:induction false} PrintDigits(n: nat)
    ensures AreDigits(PrintNat(n), n)
  {
    var s := PrintNat(n);
    if n < 10 {
      assert Pow10(1) == 10 * Pow10(0);
      assert n / Pow10(0) % 10 == n;
    } else {
      PrintDigits(n / 10);
      var t := PrintNat(n / 10);
      assert s == t + [Digit(n % 10)];
      assert Pow10(|s|) == 10 * Pow10(|t|) && Pow10(|t|) == 10 * Pow10(|t| - 1);
      hide PrintNat;
      forall i | 0 <= i < |s| ensures s[i] as int == '0' as int + n / Pow10(|s| - 1 - i) % 10 {
        if i < |t| {
          DropPlace(n, Pow10(|t| - 1 - i));
          assert Pow10(|s| - 1 - i) == 10 * Pow10(|t| - 1 - i);
        } else {
          assert Pow10(0) == 1 && n / 1 == n;
        }
      }
    }
  }

  /** What is printed is the numeral: the shortest one, with each digit in its place. */
  lemma PrintIsNumeral(x: int)
    ensures IsNumeral(Print(x), x)
  {
    PrintDigits(Abs(x));
    if x < 0 { assert Print(x)[1..] == PrintNat(-x); }
  }

  /** There is no other. */
  lemma NumeralIsUnique(s: string, x: int)
    requires IsNumeral(s, x)
    ensures s == Print(x)
  {
    PrintIsNumeral(x);
    hide Print, AreDigits;
    if x < 0 {
      SameDigits(s[1..], Print(x)[1..], -x);
      assert s == [s[0]] + s[1..] && Print(x) == [Print(x)[0]] + Print(x)[1..];
    } else {
      SameDigits(s, Print(x), x);
    }
  }

  lemma SameDigits(a: string, b: string, n: nat)
    requires AreDigits(a, n) && AreDigits(b, n)
    ensures a == b
  {
    SameLength(a, b, n);
    forall i | 0 <= i < |a| ensures a[i] == b[i] {
      assert a[i] as int == b[i] as int;
    }
  }

  lemma {:induction false} PowGrows(j: nat, k: nat)
    requires j <= k
    ensures Pow10(j) <= Pow10(k)
  {
    if j < k { PowGrows(j, k - 1); }
  }

  lemma SameLength(a: string, b: string, n: nat)
    requires AreDigits(a, n) && AreDigits(b, n)
    ensures |a| == |b|
  {
    if |a| < |b| { PowGrows(|a|, |b| - 1); }
    if |b| < |a| { PowGrows(|b|, |a| - 1); }
  }

  // ---- Reading ----------------------------------------------------------------------------------

  /** How many digits `s` starts with. */
  function Digits(s: string): (k: nat)
    ensures k <= |s|
    ensures forall j :: 0 <= j < k ==> IsDigit(s[j])
    ensures k < |s| ==> !IsDigit(s[k])
  {
    if s != "" && IsDigit(s[0]) then 1 + Digits(s[1..]) else 0
  }

  function ReadNat(s: string): nat
    requires forall k :: 0 <= k < |s| ==> IsDigit(s[k])
  {
    if s == "" then 0 else 10 * ReadNat(s[..|s| - 1]) + Value(s[|s| - 1])
  }

  /**
   The leading digits, after an optional sign; 0 if there are none.  White space is not part of
   this model.
   */
  function Read(s: string): int {
    if s != "" && s[0] == '-' then -(ReadNat(s[1..][..Digits(s[1..])]) as int)
    else if s != "" && s[0] == '+' then ReadNat(s[1..][..Digits(s[1..])])
    else ReadNat(s[..Digits(s)])
  }

  lemma {:induction false} ReadPrintNat(n: nat)
    ensures ReadNat(PrintNat(n)) == n
  {
    if n >= 10 {
      ReadPrintNat(n / 10);
      assert PrintNat(n)[..|PrintNat(n)| - 1] == PrintNat(n / 10);
    }
  }

  /** Reading a printed number gives it back, followed by whatever does not go on with a digit. */
  lemma ReadPrint(x: int, rest: string)
    requires rest == "" || !IsDigit(rest[0])
    ensures Read(Print(x) + rest) == x
  {
    ReadNumeral("", Abs(x), rest);
    PrintNegative(x);
    NothingBetween("", Print(Abs(x)), rest);
    NothingBetween("-", Print(Abs(x)), rest);
    hide Print, Read;
  }

  lemma NothingBetween(sign: string, s: string, rest: string)
    ensures sign + "" + s + rest == (sign + s) + rest && "" + s == s
  {
    assert sign + "" == sign;
  }

  lemma PrintNegative(x: int)
    ensures x < 0 ==> Print(x) == "-" + Print(-x)
  {
  }

  lemma {:induction false} LeadingZeros(zeros: string, s: string)
    requires forall k :: 0 <= k < |zeros| ==> zeros[k] == '0'
    requires forall k :: 0 <= k < |s| ==> IsDigit(s[k])
    ensures ReadNat(zeros + s) == ReadNat(s)
  {
    if s != "" {
      assert (zeros + s)[..|zeros + s| - 1] == zeros + s[..|s| - 1];
      LeadingZeros(zeros, s[..|s| - 1]);
    } else if zeros != "" {
      assert (zeros + s)[..|zeros + s| - 1] == zeros[..|zeros| - 1] + s;
      LeadingZeros(zeros[..|zeros| - 1], s);
    }
  }

  /** What `atoi` makes of any numeral, leading zeros and either sign included. */
  lemma ReadNumeral(zeros: string, n: nat, rest: string)
    requires forall k :: 0 <= k < |zeros| ==> zeros[k] == '0'
    requires rest == "" || !IsDigit(rest[0])
    ensures Read(zeros + Print(n) + rest) == n
    ensures Read("+" + zeros + Print(n) + rest) == n
    ensures Read("-" + zeros + Print(n) + rest) == -(n as int)
  {
    var s := zeros + PrintNat(n);
    LeadingZeros(zeros, PrintNat(n));
    ReadPrintNat(n);
    assert s + rest == zeros + Print(n) + rest;
    assert "+" + zeros + Print(n) + rest == "+" + (s + rest);
    assert "-" + zeros + Print(n) + rest == "-" + (s + rest);
    ReadSigned(s, rest);
    hide PrintNat, Read;
  }

  lemma ReadSigned(s: string, rest: string)
    requires s != "" && forall k :: 0 <= k < |s| ==> IsDigit(s[k])
    requires rest == "" || !IsDigit(rest[0])
    ensures Read(s + rest) == Read("+" + (s + rest)) == ReadNat(s)
    ensures Read("-" + (s + rest)) == -(ReadNat(s) as int)
  {
    DigitsPrefix(s, rest);
    assert (s + rest)[..|s|] == s && (s + rest)[0] == s[0];
    assert ("+" + (s + rest))[1..] == s + rest && ("-" + (s + rest))[1..] == s + rest;
    hide Digits, ReadNat;
  }

  /** A text that starts with no numeral is 0. */
  lemma ReadNothing(sign: string, rest: string)
    requires sign in {"", "+", "-"} && (rest == "" || !IsDigit(rest[0]))
    requires sign == "" && rest != "" ==> rest[0] != '-' && rest[0] != '+'
    ensures Read(sign + rest) == 0
  {
    assert "" + rest == rest && sign == "" ==> sign + rest == rest;
    assert sign != "" ==> (sign + rest)[1..] == rest && (sign + rest)[0] == sign[0];
    assert rest[..0] == "" && ReadNat("") == 0;
  }

  lemma {:induction false} DigitsPrefix(s: string, rest: string)
    requires forall k :: 0 <= k < |s| ==> IsDigit(s[k])
    requires rest == "" || !IsDigit(rest[0])
    ensures Digits(s + rest) == |s|
  {
    if s == "" {
      assert s + rest == rest;
    } else {
      assert (s + rest)[1..] == s[1..] + rest;
      DigitsPrefix(s[1..], rest);
    }
  }

  /** A printed number holds no other character than digits and a minus. */
  lemma PrintFree(x: int, d: char)
    requires !IsDigit(d) && d != '-'
    ensures forall k :: 0 <= k < |Print(x)| ==> Print(x)[k] != d
  {
    var s := PrintNat(if x < 0 then -x else x);
    if x < 0 { assert forall k :: 0 <= k < |s| ==> Print(x)[k + 1] == s[k]; }
  }
}
