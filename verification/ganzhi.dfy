/** The ten heavenly stems, the twelve earthly branches and the sixty-pillar
    cycle they form. A pillar is carried as its pair of indices; the text
    form is the stem character followed by the branch character. */
module Ganzhi {
  import opened JsRuntime

  /** The stems and branches in cycle order. The source keeps them as arrays
      of one-character strings; here they are strings of characters, and
      Gan(i) / Zhi(i) are the array entries. */
  const Tiangan: string := "甲乙丙丁戊己庚辛壬癸"
  const Dizhi: string := "子丑寅卯辰巳午未申酉戌亥"

  /** `TIANGAN[i]`. */
  function Gan(i: int): string
    requires 0 <= i < 10
  {
    [Tiangan[i]]
  }

  /** `DIZHI[i]`. */
  function Zhi(i: int): string
    requires 0 <= i < 12
  {
    [Dizhi[i]]
  }

  /** A stem/branch pair, by index into Tiangan and Dizhi. */
  datatype Pillar = Pillar(stem: int, branch: int)
  {
    predicate InRange()
    {
      0 <= stem < 10 && 0 <= branch < 12
    }

    /** Yang stems go with yang branches and yin with yin: exactly the pairs
        that occur in the sixty-pillar cycle. */
    predicate ParityValid()
    {
      InRange() && stem % 2 == branch % 2
    }
  }

  /** The `n`-th pillar of the cycle counted from 甲子 (any integer `n`). */
  function FromOrdinal(n: int): (p: Pillar)
    ensures p.ParityValid()
  {
    var p := Pillar(n % 10, n % 12);
    assert n % 10 % 2 == n % 2 && n % 12 % 2 == n % 2;
    p
  }

  /** The position of a pillar in the cycle. */
  function Ordinal(p: Pillar): (n: int)
    requires p.InRange()
    ensures 0 <= n < 60
  {
    (6 * p.stem - 5 * p.branch) % 60
  }

  /** Counting round the cycle and reading off the position agree. */
  lemma OrdinalOfFromOrdinal(n: int)
    ensures Ordinal(FromOrdinal(n)) == n % 60
  {
    var a, b := n / 10, n / 12;
    assert n % 10 == n - 10 * a && n % 12 == n - 12 * b;
    assert 6 * (n % 10) - 5 * (n % 12) == n + 60 * (b - a);
    ModShift60(n, b - a);
  }

  /** Every parity-valid pillar is the pillar at its own position, so the
      cycle holds exactly the sixty parity-valid pairs. */
  lemma FromOrdinalOfOrdinal(p: Pillar)
    requires p.ParityValid()
    ensures FromOrdinal(Ordinal(p)) == p
  {
    OrdinalDigits(p.stem, p.branch);
  }

  lemma OrdinalDigits(s: int, b: int)
    requires 0 <= s < 10 && 0 <= b < 12 && s % 2 == b % 2
    ensures (6 * s - 5 * b) % 60 % 10 == s
    ensures (6 * s - 5 * b) % 60 % 12 == b
  {
    var t := (s - b) / 2;
    assert s - b == 2 * t;
    var x := 6 * s - 5 * b;
    var q := x / 60;
    var n := x % 60;
    assert n == x - 60 * q;
    assert n == s + 10 * (t - 6 * q);
    ModShift10(s, t - 6 * q);
    assert n == b + 12 * (t - 5 * q);
    ModShift12(b, t - 5 * q);
  }

  /** A pair whose parities differ never occurs in the cycle. */
  lemma NotInCycle(p: Pillar, n: int)
    requires p.InRange() && p.stem % 2 != p.branch % 2
    ensures FromOrdinal(n) != p
  {
  }

  /** The cycle repeats every sixty steps. */
  lemma FromOrdinalPeriodic(n: int)
    ensures FromOrdinal(n + 60) == FromOrdinal(n)
  {
    ModShift10(n, 6);
    ModShift12(n, 5);
  }

  /** Moving `k` steps along both the stem and the branch cycles. */
  function Shift(p: Pillar, k: int): Pillar
  {
    Pillar((p.stem + k) % 10, (p.branch + k) % 12)
  }

  /** Shifting a pillar of the cycle moves its position by `k`. */
  lemma ShiftFromOrdinal(n: int, k: int)
    ensures Shift(FromOrdinal(n), k) == FromOrdinal(n + k)
  {
    var a, b := n / 10, n / 12;
    assert n % 10 + k == n + k + 10 * (-a);
    ModShift10(n + k, -a);
    assert n % 12 + k == n + k + 12 * (-b);
    ModShift12(n + k, -b);
  }

  /** A shift keeps a parity-valid pillar parity-valid. */
  lemma ShiftKeepsParity(p: Pillar, k: int)
    requires p.ParityValid()
    ensures Shift(p, k).ParityValid()
  {
    FromOrdinalOfOrdinal(p);
    ShiftFromOrdinal(Ordinal(p), k);
  }

  /** The two characters of a pillar. */
  function Text(p: Pillar): (s: string)
    requires p.InRange()
    ensures |s| == 2 && [s[0]] == Gan(p.stem) && [s[1]] == Zhi(p.branch)
  {
    Gan(p.stem) + Zhi(p.branch)
  }

  /** One of the ten stem strings. */
  predicate IsStem(s: string)
  {
    |s| == 1 && s[0] in Tiangan
  }

  /** One of the twelve branch strings. */
  predicate IsBranch(s: string)
  {
    |s| == 1 && s[0] in Dizhi
  }

  /** `TIANGAN.indexOf(s)`. */
  function StemIndex(s: string): (i: int)
    ensures -1 <= i < 10
    ensures i >= 0 ==> s == Gan(i)
    ensures i == -1 <==> !IsStem(s)
  {
    if |s| == 1 then IndexOf(Tiangan, s[0]) else -1
  }

  /** `DIZHI.indexOf(s)`. */
  function BranchIndex(s: string): (i: int)
    ensures -1 <= i < 12
    ensures i >= 0 ==> s == Zhi(i)
    ensures i == -1 <==> !IsBranch(s)
  {
    if |s| == 1 then IndexOf(Dizhi, s[0]) else -1
  }

  /** Each stem is found at its own index. */
  lemma StemIndexOf(i: int)
    requires 0 <= i < 10
    ensures StemIndex(Gan(i)) == i
  {
    IndexOfDistinct(Tiangan, i);
  }

  /** Each branch is found at its own index. */
  lemma BranchIndexOf(i: int)
    requires 0 <= i < 12
    ensures BranchIndex(Zhi(i)) == i
  {
    IndexOfDistinct(Dizhi, i);
  }

  /** The yang stems 甲丙戊庚壬, the source's `yangTian` list. */
  const YangStems: string := "甲丙戊庚壬"

  /** `yangTian.includes(s)`. */
  predicate IsYangStem(s: string)
  {
    |s| == 1 && s[0] in YangStems
  }

  /** The yang stems are the stems at even indices. */
  lemma YangStemEven(s: string)
    ensures IsYangStem(s) <==> IsStem(s) && StemIndex(s) % 2 == 0
  {
    if |s| == 1 {
      var i := StemIndex(s);
      if i >= 0 {
        YangAtEvenIndex(s[0], i);
      } else {
        YangStemsAreStems(s[0]);
      }
    }
  }

  lemma YangAtEvenIndex(c: char, i: int)
    requires 0 <= i < 10 && c == Tiangan[i]
    ensures c in YangStems <==> i % 2 == 0
  {
  }

  lemma YangStemsAreStems(c: char)
    requires c !in Tiangan
    ensures c !in YangStems
  {
  }
}
