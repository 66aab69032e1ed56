/** Decimal text of integers: the shortest digit string of a natural number,
    zero padding to a minimum width, and the value a digit string spells.
    Used for the `%v` text of integer query values and for the fields of the
    `YYYY-MM-DD` date layout. */
module Decimal {
  import opened Wrappers

  predicate IsDigit(c: char) {
    '0' <= c <= '9'
  }

  predicate AllDigits(s: string) {
    forall i | 0 <= i < |s| :: IsDigit(s[i])
  }

  function DigitValue(c: char): (d: nat)
    requires IsDigit(c)
    ensures d < 10
  {
    c as int - '0' as int
  }

  function DigitChar(d: nat): (c: char)
    requires d < 10
    ensures IsDigit(c) && DigitValue(c) == d
  {
    ('0' as int + d) as char
  }

  function Pow10(n: nat): (p: nat)
    ensures p >= 1
  {
    if n == 0 then 1 else 10 * Pow10(n - 1)
  }

  /** The shortest decimal spelling of n: no leading zero except for 0 itself. */
  function Digits(n: nat): (s: string)
    ensures 1 <= |s| && AllDigits(s)
    ensures |s| > 1 ==> s[0] != '0'
    ensures s[0] == '0' <==> n == 0
  {
    if n < 10 then [DigitChar(n)] else Digits(n / 10) + [DigitChar(n % 10)]
  }

  /** The number a digit string spells; leading zeros add nothing. */
  function Value(s: string): nat
    requires AllDigits(s)
  {
    if s == [] then 0 else 10 * Value(s[..|s| - 1]) + DigitValue(s[|s| - 1])
  }

  function Zeros(k: nat): (s: string)
    ensures |s| == k && AllDigits(s)
  {
    seq(k, _ => '0')
  }

  /** `s` preceded by as many '0' as it takes to reach `width` characters. */
  function PadLeft(s: string, width: nat): (r: string)
    ensures |r| == if |s| < width then width else |s|
  {
    if |s| < width then Zeros(width - |s|) + s else s
  }

  /** The shortest decimal text of an integer: digits with no leading zero
      (except "0" itself), preceded by '-' only for a non-zero magnitude. */
  predicate Canonical(s: string) {
    && |s| >= 1
    && (s[0] == '-' ==> |s| >= 2 && AllDigits(s[1..]) && s[1] != '0')
    && (s[0] != '-' ==> AllDigits(s) && (|s| > 1 ==> s[0] != '0'))
  }

  /** Go's `%v` of an int: a '-' before the magnitude of a negative value. */
  function FormatInt(i: int): (s: string)
    ensures ParseInt(s) == Some(i)
    ensures Canonical(s)
    ensures s[0] == '-' <==> i < 0
  {
    if i < 0 then
      ValueOfDigits(-i);
      "-" + Digits(-i)
    else
      ValueOfDigits(i);
      Digits(i)
  }

  /** Reads an optional '-' followed by at least one digit. */
  function ParseInt(s: string): Option<int> {
    if |s| >= 2 && s[0] == '-' && AllDigits(s[1..]) then Some(0 - Value(s[1..]) as int)
    else if |s| >= 1 && AllDigits(s) then Some(Value(s))
    else None
  }

  lemma {:induction false} ValueOfDigits(n: nat)
    ensures Value(Digits(n)) == n
  {
    if n >= 10 {
      ValueOfDigits(n / 10);
      var s := Digits(n);
      assert s[..|s| - 1] == Digits(n / 10);
    }
  }

  /** A digit string starting with a non-zero digit spells a positive number. */
  lemma {:induction false} LeadingDigitPositive(s: string)
    requires |s| >= 1 && AllDigits(s) && s[0] != '0'
    ensures Value(s) >= 1
  {
    if |s| > 1 {
      var p := s[..|s| - 1];
      assert p[0] == s[0];
      LeadingDigitPositive(p);
    }
  }

  /** A digit string with no leading zero is the only such spelling of its value. */
  lemma {:induction false} DigitsUnique(s: string)
    requires |s| >= 1 && AllDigits(s) && (|s| > 1 ==> s[0] != '0')
    ensures s == Digits(Value(s))
  {
    var c := s[|s| - 1];
    assert DigitChar(DigitValue(c)) == c;
    if |s| > 1 {
      var p := s[..|s| - 1];
      assert p[0] == s[0];
      LeadingDigitPositive(p);
      DigitsUnique(p);
      var n := Value(s);
      assert n / 10 == Value(p) && n % 10 == DigitValue(c);
      assert s == p + [c];
    }
  }

  /** The canonical text of an integer is unique: any canonical text that
      reads as i is FormatInt(i). */
  lemma CanonicalIsUnique(s: string, i: int)
    requires Canonical(s) && ParseInt(s) == Some(i)
    ensures s == FormatInt(i)
  {
    if s[0] == '-' {
      var m := s[1..];
      assert m[0] == s[1];
      LeadingDigitPositive(m);
      DigitsUnique(m);
      assert s == "-" + m;
    } else {
      DigitsUnique(s);
    }
  }

  lemma {:induction false} DigitsFit(n: nat, w: nat)
    requires 1 <= w && n < Pow10(w)
    ensures |Digits(n)| <= w
  {
    if n >= 10 {
      assert w >= 2;
      DigitsFit(n / 10, w - 1);
    }
  }

  lemma {:induction false} ValueOfZeros(k: nat)
    ensures Value(Zeros(k)) == 0
  {
    if k > 0 {
      assert Zeros(k)[..k - 1] == Zeros(k - 1);
      ValueOfZeros(k - 1);
    }
  }

  /** Leading zeros do not change the value of a digit string. */
  lemma {:induction false} ValueOfPadded(k: nat, s: string)
    requires AllDigits(s)
    ensures AllDigits(Zeros(k) + s) && Value(Zeros(k) + s) == Value(s)
  {
    var t := Zeros(k) + s;
    if s == [] {
      assert t == Zeros(k);
      ValueOfZeros(k);
    } else {
      var s' := s[..|s| - 1];
      assert t[..|t| - 1] == Zeros(k) + s';
      ValueOfPadded(k, s');
    }
  }

  lemma DigitsStep(v: nat, d: nat)
    requires 1 <= v && d < 10
    ensures Digits(10 * v + d) == Digits(v) + [DigitChar(d)]
  {
    assert (10 * v + d) / 10 == v && (10 * v + d) % 10 == d;
  }

  lemma PadLeftAppend(s: string, c: char, w: nat)
    requires |s| <= w
    ensures PadLeft(s + [c], w + 1) == PadLeft(s, w) + [c]
  {
  }

  /** A digit string of width w is the zero-padded spelling of its own value. */
  lemma {:induction false} PaddedDigitsOfValue(t: string)
    requires 1 <= |t| && AllDigits(t)
    ensures PadLeft(Digits(Value(t)), |t|) == t
  {
    var c := t[|t| - 1];
    var d := DigitValue(c);
    assert DigitChar(d) == c;
    var t' := t[..|t| - 1];
    assert t == t' + [c];
    if |t| == 1 {
      assert t' == [];
    } else {
      var v := Value(t');
      PaddedDigitsOfValue(t');
      assert Value(t) == 10 * v + d;
      if v == 0 {
        assert t' == Zeros(|t'|);
        assert t == Zeros(|t| - 1) + [c];
      } else {
        DigitsStep(v, d);
        PadLeftAppend(Digits(v), c, |t'|);
      }
    }
  }

  /** Zero padding to a width the digits fit in reads back as the number. */
  lemma PaddedValue(n: nat, w: nat)
    requires 1 <= w && n < Pow10(w)
    ensures |PadLeft(Digits(n), w)| == w
    ensures AllDigits(PadLeft(Digits(n), w)) && Value(PadLeft(Digits(n), w)) == n
  {
    DigitsFit(n, w);
    ValueOfDigits(n);
    ValueOfPadded(w - |Digits(n)|, Digits(n));
  }

  /** A digit string of length k spells a number below 10^k. */
  lemma {:induction false} ValueBelow(s: string)
    requires AllDigits(s)
    ensures Value(s) < Pow10(|s|)
  {
    if s != [] {
      ValueBelow(s[..|s| - 1]);
    }
  }
}
