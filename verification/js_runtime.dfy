/** The pieces of JavaScript semantics the charting code relies on: the
    truncating remainder, Array.prototype.indexOf and the decimal rendering
    of integers. (An object literal whose later duplicate keys win is a Dafny
    map display, which has the same rule.) */
module JsRuntime {

  datatype Option<+T> = None | Some(value: T)

  /** The divisors the source takes remainders by and then normalises. */
  predicate Divisor(b: int) { b == 10 || b == 12 || b == 60 }

  /** JavaScript's `a % b` for a positive divisor: the remainder takes the
      sign of the dividend (Dafny's own `%` is Euclidean). */
  function Rem(a: int, b: int): (r: int)
    requires Divisor(b)
    ensures -b < r < b
    ensures a >= 0 ==> 0 <= r && r == a % b
    ensures a <= 0 ==> r <= 0
  {
    if a >= 0 then a % b else -((-a) % b)
  }

  /** Both idioms the source uses to normalise a remainder, `(a % b + b) % b`
      and `r < 0 ? r + b : r`, land on the Euclidean remainder. */
  lemma RemNormalised(a: int, b: int)
    requires Divisor(b)
    ensures (Rem(a, b) + b) % b == a % b
    ensures (if Rem(a, b) < 0 then Rem(a, b) + b else Rem(a, b)) == a % b
  {
    if a < 0 {
      if b == 10 { NegRem10(a); } else if b == 12 { NegRem12(a); } else { NegRem60(a); }
    }
  }

  lemma NegRem10(a: int)
    requires a < 0
    ensures (-((-a) % 10) + 10) % 10 == a % 10
    ensures (if -((-a) % 10) < 0 then -((-a) % 10) + 10 else 0) == a % 10
  {
    var q, s := (-a) / 10, (-a) % 10;
    if s == 0 {
      ModShift10(0, -q);
    } else {
      assert a == (10 - s) + 10 * (-q - 1);
      ModShift10(10 - s, -q - 1);
    }
  }

  lemma NegRem12(a: int)
    requires a < 0
    ensures (-((-a) % 12) + 12) % 12 == a % 12
    ensures (if -((-a) % 12) < 0 then -((-a) % 12) + 12 else 0) == a % 12
  {
    var q, s := (-a) / 12, (-a) % 12;
    if s == 0 {
      ModShift12(0, -q);
    } else {
      assert a == (12 - s) + 12 * (-q - 1);
      ModShift12(12 - s, -q - 1);
    }
  }

  lemma NegRem60(a: int)
    requires a < 0
    ensures (-((-a) % 60) + 60) % 60 == a % 60
    ensures (if -((-a) % 60) < 0 then -((-a) % 60) + 60 else 0) == a % 60
  {
    var q, s := (-a) / 60, (-a) % 60;
    if s == 0 {
      ModShift60(0, -q);
    } else {
      assert a == (60 - s) + 60 * (-q - 1);
      ModShift60(60 - s, -q - 1);
    }
  }

  /** Adding a multiple of the divisor leaves the remainder unchanged. */
  lemma ModShift10(x: int, k: int)
    ensures (x + 10 * k) % 10 == x % 10
  {
    var q, r := x / 10, x % 10;
    assert x + 10 * k == 10 * (q + k) + r;
  }

  lemma ModShift12(x: int, k: int)
    ensures (x + 12 * k) % 12 == x % 12
  {
    var q, r := x / 12, x % 12;
    assert x + 12 * k == 12 * (q + k) + r;
  }

  lemma ModShift60(x: int, k: int)
    ensures (x + 60 * k) % 60 == x % 60
  {
    var q, r := x / 60, x % 60;
    assert x + 60 * k == 60 * (q + k) + r;
  }

  /** Array.prototype.indexOf: the first position holding `x`, or -1. */
  function IndexOf<T(==)>(s: seq<T>, x: T): (i: int)
    ensures -1 <= i < |s|
    ensures i >= 0 ==> s[i] == x && forall j :: 0 <= j < i ==> s[j] != x
    ensures i == -1 <==> x !in s
  {
    if |s| == 0 then -1
    else if s[0] == x then 0
    else
      var k := IndexOf(s[1..], x);
      if k == -1 then -1 else k + 1
  }

  /** In a table without repeated entries, indexOf finds an entry at its own
      position. */
  lemma IndexOfDistinct<T>(s: seq<T>, i: int)
    requires 0 <= i < |s|
    requires forall j, k :: 0 <= j < k < |s| ==> s[j] != s[k]
    ensures IndexOf(s, s[i]) == i
  {
  }

  predicate IsDigit(c: char) { '0' <= c <= '9' }

  /** The character of a decimal digit. */
  function DigitChar(d: int): (c: char)
    requires 0 <= d < 10
    ensures IsDigit(c) && c as int - '0' as int == d
  {
    ('0' as int + d) as char
  }

  /** Number.prototype.toString() on a non-negative integer. */
  function NatToString(n: nat): (s: string)
    ensures |s| >= 1
    ensures forall i :: 0 <= i < |s| ==> IsDigit(s[i])
    ensures n >= 10 ==> s[0] != '0'
    ensures n < 10 <==> |s| == 1
  {
    if n < 10 then [DigitChar(n)]
    else NatToString(n / 10) + [DigitChar(n % 10)]
  }

  /** Number.prototype.toString() on any integer. */
  function IntToString(n: int): string
  {
    if n < 0 then "-" + NatToString(-n) else NatToString(n)
  }

  /** The value of a string of decimal digits: the inverse of NatToString. */
  function DigitsValue(s: string): int
    requires forall i :: 0 <= i < |s| ==> IsDigit(s[i])
  {
    if |s| == 0 then 0
    else DigitsValue(s[..|s| - 1]) * 10 + (s[|s| - 1] as int - '0' as int)
  }

  /** Reading back the decimal rendering of a number gives the number. */
  lemma {:induction false} NatToStringRoundTrip(n: nat)
    ensures DigitsValue(NatToString(n)) == n
  {
    var s := NatToString(n);
    if n >= 10 {
      var h := NatToString(n / 10);
      assert s[..|s| - 1] == h;
      NatToStringRoundTrip(n / 10);
      assert DigitsValue(s) == (n / 10) * 10 + n % 10;
    } else {
      assert s[..0] == [];
    }
  }

  /** Decimal renderings of distinct numbers differ. */
  lemma NatToStringInjective(m: nat, n: nat)
    requires NatToString(m) == NatToString(n)
    ensures m == n
  {
    NatToStringRoundTrip(m);
    NatToStringRoundTrip(n);
  }

  /** The same holds for signed renderings: a leading minus sign is never a
      digit. */
  lemma IntToStringInjective(m: int, n: int)
    requires IntToString(m) == IntToString(n)
    ensures m == n
  {
    var a, b := IntToString(m), IntToString(n);
    if m < 0 && n < 0 {
      assert a[1..] == NatToString(-m) && b[1..] == NatToString(-n);
      NatToStringInjective(-m, -n);
    } else if m >= 0 && n >= 0 {
      NatToStringInjective(m, n);
    }
  }

  /** `s.padStart(2, '0')`. */
  function PadStart2(s: string): string
  {
    if |s| >= 2 then s else if |s| == 1 then "0" + s else "00"
  }

  /** Zero-padding a number below 100 gives two digits that read back as
      that number. */
  lemma {:induction false} PadStart2Digits(n: nat)
    requires n < 100
    ensures var p := PadStart2(NatToString(n));
            |p| == 2 && IsDigit(p[0]) && IsDigit(p[1]) && DigitsValue(p) == n
  {
    NatToStringRoundTrip(n);
    var s := NatToString(n);
    var p := PadStart2(s);
    if n < 10 {
      assert p == ['0', s[0]];
      assert p[..1] == ['0'];
      assert p[..1][..0] == [];
    } else {
      assert NatToString(n / 10) == [DigitChar(n / 10)];
      assert p[..1] == [p[0]];
      assert p[..1][..0] == [];
    }
  }
}
