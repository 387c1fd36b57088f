/**
 Printing of numbers and lists as text, with the injectivity facts that the cache keys rest on.
 */
module Text {

  const DIGITS := "0123456789abcdef"

  function DigitChar(d: nat): (c: char)
    requires d < 16
    ensures c in DIGITS
    ensures d < 10 ==> '0' <= c <= '9'
  {
    DIGITS[d]
  }

  lemma DigitCharInjective(d: nat, e: nat)
    requires d < 16 && e < 16 && DigitChar(d) == DigitChar(e)
    ensures d == e
  {
    assert DIGITS == ['0', '1', '2', '3', '4', '5', '6', '7', '8', '9', 'a', 'b', 'c', 'd', 'e', 'f'];
  }

  lemma AppendInjective(s: string, c: char, t: string, d: char)
    requires s + [c] == t + [d]
    ensures s == t && c == d
  {
    var a, b := s + [c], t + [d];
    assert s == a[..|a| - 1] && t == b[..|b| - 1];
    assert c == a[|a| - 1] && d == b[|b| - 1];
  }

  // ---------------------------------------------------------------- decimal, no padding

  /** `str(n)` for a non-negative integer. */
  function Decimal(n: nat): (s: string)
    ensures s != ""
    ensures forall c :: c in s ==> '0' <= c <= '9'
    ensures |s| == 1 <==> n < 10
  {
    if n < 10 then [DigitChar(n)] else Decimal(n / 10) + [DigitChar(n % 10)]
  }

  lemma {:induction false} DecimalInjective(m: nat, n: nat)
    requires Decimal(m) == Decimal(n)
    ensures m == n
  {
    if m >= 10 && n >= 10 {
      AppendInjective(Decimal(m / 10), DigitChar(m % 10), Decimal(n / 10), DigitChar(n % 10));
      DigitCharInjective(m % 10, n % 10);
      DecimalInjective(m / 10, n / 10);
    } else {
      DigitCharInjective(m % 10, n % 10);
    }
  }

  // ---------------------------------------------------------------- fixed width

  function Power(base: nat, width: nat): (p: nat)
    requires base >= 1
    ensures p >= 1
  {
    if width == 0 then 1 else base * Power(base, width - 1)
  }

  /** `divmod(n, base)`. */
  function DivMod(n: nat, base: nat): (r: (nat, nat))
    requires base >= 1
    ensures n == base * r.0 + r.1 && r.1 < base
  {
    (n / base, n % base)
  }

  /** `n` in `width` digits, zero-padded, high digits dropped. */
  function Padded(n: nat, width: nat, base: nat): (s: string)
    requires 2 <= base <= 16
    ensures |s| == width
    ensures forall c :: c in s ==> c in DIGITS
    decreases width
  {
    if width == 0 then "" else
      var (high, low) := DivMod(n, base);
      Padded(high, width - 1, base) + [DigitChar(low)]
  }

  lemma QuotientBelow(n: nat, base: nat, limit: nat)
    requires base >= 1 && n < base * limit
    ensures DivMod(n, base).0 < limit
  {
    var q := DivMod(n, base).0;
    assert base * q < base * limit;
  }

  lemma {:induction false} PaddedInjective(m: nat, n: nat, width: nat, base: nat)
    requires 2 <= base <= 16
    requires m < Power(base, width) && n < Power(base, width)
    requires Padded(m, width, base) == Padded(n, width, base)
    ensures m == n
    decreases width
  {
    if width > 0 {
      var (mq, mr) := DivMod(m, base);
      var (nq, nr) := DivMod(n, base);
      AppendInjective(Padded(mq, width - 1, base), DigitChar(mr), Padded(nq, width - 1, base), DigitChar(nr));
      DigitCharInjective(mr, nr);
      QuotientBelow(m, base, Power(base, width - 1));
      QuotientBelow(n, base, Power(base, width - 1));
      PaddedInjective(mq, nq, width - 1, base);
    }
  }

  const HEX_DIGITS_IN_UUID := 32

  /** The low hexadecimal digits of `n` in front of `tail`, 32 digits in all. */
  function Hex(n: nat, tail: string): (s: string)
    requires |tail| <= HEX_DIGITS_IN_UUID && forall c :: c in tail ==> c in DIGITS
    ensures |s| == HEX_DIGITS_IN_UUID && forall c :: c in s ==> c in DIGITS
    decreases HEX_DIGITS_IN_UUID - |tail|
  {
    if |tail| == HEX_DIGITS_IN_UUID then tail else Hex(n / 16, [DigitChar(n % 16)] + tail)
  }

  lemma {:induction false} HexInjective(m: nat, s: string, n: nat, t: string)
    requires |s| == |t| <= HEX_DIGITS_IN_UUID && forall c :: c in s + t ==> c in DIGITS
    requires m < Power(16, HEX_DIGITS_IN_UUID - |s|) && n < Power(16, HEX_DIGITS_IN_UUID - |s|)
    requires Hex(m, s) == Hex(n, t)
    ensures m == n && s == t
    decreases HEX_DIGITS_IN_UUID - |s|
  {
    var left := HEX_DIGITS_IN_UUID - |s|;
    if left > 0 {
      PowerDown(m, left);
      PowerDown(n, left);
      hide Power, DigitChar;
      HexInjective(m / 16, [DigitChar(m % 16)] + s, n / 16, [DigitChar(n % 16)] + t);
      CutAt([DigitChar(m % 16)], s, [DigitChar(n % 16)], t);
      DigitCharInjective(m % 16, n % 16);
    }
  }

  lemma PowerDown(n: nat, width: nat)
    requires width > 0 && n < Power(16, width)
    ensures n / 16 < Power(16, width - 1)
  {
    QuotientBelow(n, 16, Power(16, width - 1));
  }

  // ---------------------------------------------------------------- separated lists

  predicate Lacks(s: string, sep: char) {
    sep !in s
  }

  /** Two texts cut at their first separator have equal halves when they are equal. */
  lemma SplitUnique(x: string, xs: string, y: string, ys: string, sep: char)
    requires Lacks(x, sep) && Lacks(y, sep)
    requires x + [sep] + xs == y + [sep] + ys
    ensures x == y && xs == ys
  {
    var a, b := x + [sep] + xs, y + [sep] + ys;
    assert a[|x|] == sep && forall i :: 0 <= i < |x| ==> a[i] == x[i] != sep;
    assert b[|y|] == sep && forall i :: 0 <= i < |y| ==> b[i] == y[i] != sep;
    assert x == a[..|x|] && y == b[..|y|];
    assert xs == a[|x| + 1..] && ys == b[|y| + 1..];
  }

  function Join(parts: seq<string>, sep: char): (s: string)
    requires parts != []
  {
    if |parts| == 1 then parts[0] else parts[0] + [sep] + Join(parts[1..], sep)
  }

  lemma {:induction false} JoinInjective(a: seq<string>, b: seq<string>, sep: char)
    requires |a| == |b| > 0
    requires forall i :: 0 <= i < |a| ==> Lacks(a[i], sep) && Lacks(b[i], sep)
    requires Join(a, sep) == Join(b, sep)
    ensures a == b
  {
    if |a| > 1 {
      SplitUnique(a[0], Join(a[1..], sep), b[0], Join(b[1..], sep), sep);
      JoinInjective(a[1..], b[1..], sep);
      assert a == [a[0]] + a[1..] && b == [b[0]] + b[1..];
    }
  }

  // ---------------------------------------------------------------- fixed-width pieces

  lemma CutAt(x: string, xs: string, y: string, ys: string)
    requires |x| == |y| && x + xs == y + ys
    ensures x == y && xs == ys
  {
    var a, b := x + xs, y + ys;
    assert x == a[..|x|] && y == b[..|y|];
    assert xs == a[|x|..] && ys == b[|y|..];
  }
}
