/** Decimal text: a reference parser, the canonical form, and the hub's own digit loop. */
module DecimalText {
  import opened Basics

  const MIN_INT64: int := -0x8000_0000_0000_0000
  const MAX_INT64: int := 0x7fff_ffff_ffff_ffff

  function Pow10(k: nat): (p: nat)
    ensures p > 0
  {
    if k == 0 then 1 else 10 * Pow10(k - 1)
  }

  lemma {:induction false} Pow10Monotone(j: nat, k: nat)
    requires j <= k
    ensures Pow10(j) <= Pow10(k)
    decreases k - j
  {
    if j < k {
      Pow10Monotone(j + 1, k);
    }
  }

  function Digit(d: nat): char
    requires d < 10
  {
    (48 + d) as char
  }

  predicate IsDigit(c: char) {
    '0' <= c <= '9'
  }

  function DigitValue(c: char): (d: nat)
    requires IsDigit(c)
    ensures d < 10 && Digit(d) == c
  {
    c as int - 48
  }

  ghost predicate AllDigits(s: string) {
    forall i :: 0 <= i < |s| ==> IsDigit(s[i])
  }

  /** Positional value of a digit string. */
  ghost function Value(s: string): nat
    requires AllDigits(s)
  {
    if s == [] then 0 else DigitValue(s[0]) * Pow10(|s| - 1) + Value(s[1..])
  }

  /** Reference reading of signed decimal text. */
  ghost function ParseSigned(s: string): Option<int> {
    if s != [] && s[0] == '-' then
      if |s| > 1 && AllDigits(s[1..]) then Some(0 - Value(s[1..])) else None
    else if s != [] && AllDigits(s) then Some(Value(s))
    else None
  }

  /** No leading zero, and no minus sign in front of a zero. */
  ghost predicate Canonical(s: string) {
    s == "0" || (s != [] && s[0] != '0' && (s[0] == '-' ==> |s| > 1 && s[1] != '0'))
  }

  lemma MulMonotone(d: nat, e: nat, p: nat)
    requires d <= e
    ensures d * p <= e * p
  {}

  lemma {:induction false} ValueBounds(s: string)
    requires AllDigits(s)
    ensures Value(s) < Pow10(|s|)
    ensures s != [] && s[0] != '0' ==> Pow10(|s| - 1) <= Value(s)
  {
    if s != [] {
      ValueBounds(s[1..]);
      MulMonotone(DigitValue(s[0]), 9, Pow10(|s| - 1));
      if s[0] != '0' {
        MulMonotone(1, DigitValue(s[0]), Pow10(|s| - 1));
      }
    }
  }

  lemma LeadingLess(d: nat, e: nat, p: nat, x: nat, y: nat)
    requires d < e && x < p
    ensures d * p + x < e * p + y
  {
    MulMonotone(d + 1, e, p);
    assert (d + 1) * p == d * p + p;
  }

  /** The leading digit is determined by a positional value. */
  lemma LeadingDigit(d: nat, e: nat, p: nat, x: nat, y: nat)
    requires x < p && y < p && d * p + x == e * p + y
    ensures d == e && x == y
  {
    if d < e {
      LeadingLess(d, e, p, x, y);
    } else if e < d {
      LeadingLess(e, d, p, y, x);
    }
  }

  /** Two digit strings of one length with one value are the same string. */
  lemma {:induction false} ValueInjective(s: string, t: string)
    requires AllDigits(s) && AllDigits(t) && |s| == |t| && Value(s) == Value(t)
    ensures s == t
  {
    if s != [] {
      ValueBounds(s[1..]);
      ValueBounds(t[1..]);
      LeadingDigit(DigitValue(s[0]), DigitValue(t[0]), Pow10(|s| - 1), Value(s[1..]), Value(t[1..]));
      ValueInjective(s[1..], t[1..]);
      assert s == [s[0]] + s[1..] && t == [t[0]] + t[1..];
    }
  }

  lemma NoLeadingZeroUnique(s: string, t: string)
    requires AllDigits(s) && AllDigits(t) && s != [] && t != [] && s[0] != '0' && t[0] != '0'
    requires Value(s) == Value(t)
    ensures s == t
  {
    ValueBounds(s);
    ValueBounds(t);
    if |s| < |t| {
      Pow10Monotone(|s|, |t| - 1);
    } else if |t| < |s| {
      Pow10Monotone(|t|, |s| - 1);
    }
    ValueInjective(s, t);
  }

  /** Canonical text is determined by the number it stands for. */
  lemma CanonicalUnique(s: string, t: string)
    requires Canonical(s) && Canonical(t)
    requires ParseSigned(s).Some? && ParseSigned(s) == ParseSigned(t)
    ensures s == t
  {
    var neg, neg' := s[0] == '-', t[0] == '-';
    if neg { ValueBounds(s[1..]); }
    if neg' { ValueBounds(t[1..]); }
    if !neg { ValueBounds(s); }
    if !neg' { ValueBounds(t); }
    if neg && neg' {
      NoLeadingZeroUnique(s[1..], t[1..]);
      assert s == [s[0]] + s[1..] && t == [t[0]] + t[1..];
    } else if !neg && !neg' {
      if s != "0" && t != "0" {
        NoLeadingZeroUnique(s, t);
      }
    }
  }

  /** Negation of a 64-bit two's-complement integer: the minimum is its own negative. */
  function Neg64(n: int): int
    requires MIN_INT64 <= n <= MAX_INT64
  {
    if n == MIN_INT64 then n else -n
  }

  lemma ValueConsDigit(d: nat, t: string)
    requires d < 10 && AllDigits(t)
    ensures AllDigits([Digit(d)] + t)
    ensures Value([Digit(d)] + t) == d * Pow10(|t|) + Value(t)
  {
    assert ([Digit(d)] + t)[1..] == t;
  }

  /** Moving the last digit of n in front of the digits already written keeps the total. */
  lemma DigitShift(n: nat, k: nat, v: nat)
    ensures n * Pow10(k) + v == (n / 10) * Pow10(k + 1) + ((n % 10) * Pow10(k) + v)
  {
    var q, d, p := n / 10, n % 10, Pow10(k);
    assert n == 10 * q + d;
    calc {
      n * p;
      (10 * q + d) * p;
      q * (10 * p) + d * p;
    }
  }

  lemma NineteenDigits()
    ensures Pow10(19) == 10000000000000000000
  {
    assert Pow10(5) == 100000;
    assert Pow10(10) == 10000000000;
    assert Pow10(15) == 1000000000000000;
  }

  /** A positive remainder of a 64-bit magnitude leaves room for another digit and a sign. */
  lemma RoomLeft(n: nat, k: nat, v: nat)
    requires n > 0 && n * Pow10(k) + v <= MAX_INT64
    ensures k < 19
  {
    var p := Pow10(k);
    MulMonotone(1, n, p);
    if k >= 19 {
      Pow10Monotone(19, k);
      NineteenDigits();
    }
  }

  /** The digits `t` are the low end of the magnitude m, and n is what is left of it. */
  ghost predicate Written(m: nat, n: nat, t: string) {
    && AllDigits(t)
    && m == n * Pow10(|t|) + Value(t)
    && (n == 0 ==> t != "" && t[0] != '0')
  }

  lemma WriteDigit(m: nat, n: nat, t: string)
    requires Written(m, n, t) && n > 0 && m <= MAX_INT64
    ensures |t| < 19
    ensures Written(m, n / 10, [Digit(n % 10)] + t)
  {
    DigitShift(n, |t|, Value(t));
    RoomLeft(n, |t|, Value(t));
    ValueConsDigit(n % 10, t);
  }

  lemma NothingWritten(m: nat)
    requires m > 0
    ensures Written(m, m, "")
  {}

  lemma AllWritten(m: nat, t: string)
    requires Written(m, 0, t)
    ensures ParseSigned(t) == Some(m) && Canonical(t)
    ensures m > 0 ==> ParseSigned("-" + t) == Some(0 - m) && Canonical("-" + t)
  {
    assert 0 * Pow10(|t|) == 0;
    assert ("-" + t)[1..] == t;
  }

  /** The hub's integer printer: digits are written from the end of a 20-byte buffer.
      It prints every 64-bit integer except the minimum, whose negation is still
      negative, so that only the sign comes out. */
  method Itoa(n0: int) returns (s: string)
    requires MIN_INT64 <= n0 <= MAX_INT64
    ensures ParseSigned(s) == Some(n0) <==> n0 != MIN_INT64
    ensures n0 != MIN_INT64 ==> Canonical(s)
    ensures n0 == MIN_INT64 ==> s == "-"
  {
    if n0 == 0 {
      assert Value("0") == 0;
      return "0";
    }
    var n := n0;
    var neg := n < 0;
    if neg {
      n := Neg64(n);
    }
    ghost var m := n;
    if m > 0 {
      NothingWritten(m);
    }
    var b := new char[20];
    var i := b.Length;
    while n > 0
      invariant 1 <= i <= 20
      invariant m < 0 ==> n == m && i == 20
      invariant m > 0 ==> n >= 0 && Written(m, n, b[i..])
    {
      ghost var t := b[i..];
      WriteDigit(m, n, t);
      i := i - 1;
      b[i] := Digit(n % 10);
      n := n / 10;
      assert b[i..] == [b[i]] + t;
    }
    if m > 0 {
      AllWritten(m, b[i..]);
    }
    if neg {
      ghost var t := b[i..];
      i := i - 1;
      b[i] := '-';
      assert b[i..] == "-" + t;
    }
    s := b[i..];
  }

  lemma ShiftedDigit(a: nat, p: nat, v: nat, d: nat)
    ensures a * (10 * p) + (10 * v + d) == 10 * (a * p + v) + d
  {}

  lemma {:induction false} ValueSnoc(s: string, d: nat)
    requires AllDigits(s) && d < 10
    ensures AllDigits(s + [Digit(d)])
    ensures Value(s + [Digit(d)]) == 10 * Value(s) + d
  {
    var t := s + [Digit(d)];
    if s == [] {
      assert t == [Digit(d)] + [];
      ValueConsDigit(d, []);
    } else {
      ValueSnoc(s[1..], d);
      assert t[1..] == s[1..] + [Digit(d)];
      assert Pow10(|t| - 1) == 10 * Pow10(|s| - 1);
      ShiftedDigit(DigitValue(s[0]), Pow10(|s| - 1), Value(s[1..]), d);
    }
  }

  /** The library's printer for the limits put on a command line. */
  function Decimal(n: nat): (s: string)
    ensures AllDigits(s) && s != [] && Value(s) == n
    ensures s == "0" || s[0] != '0'
    ensures ParseSigned(s) == Some(n) && Canonical(s)
  {
    if n < 10 then
      ValueConsDigit(n, []);
      assert [Digit(n)] + [] == [Digit(n)];
      [Digit(n)]
    else
      ValueSnoc(Decimal(n / 10), n % 10);
      Decimal(n / 10) + [Digit(n % 10)]
  }
}
