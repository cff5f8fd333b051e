/** The nayin (纳音) element name of a stem/branch pair, read from the
    sixty-entry table by the index (6 * stem + branch) mod 60. */
module Nayin {
  import opened JsRuntime
  import opened Ganzhi

  const Unknown: string := "未知"

  /** The thirty names, one per pair of table entries. */
  const Names: seq<string> := [
    "海中金", "炉中火", "大林木", "路旁土", "剑锋金", "山头火", "涧下水", "城头土", "白蜡金", "杨柳木",
    "泉中水", "屋上土", "霹雳火", "松柏木", "长流水", "沙中金", "山下火", "平地木", "壁上土", "金箔金",
    "覆灯火", "天河水", "大驿土", "钗钏金", "桑柘木", "大溪水", "沙中土", "天上火", "石榴木", "大海水"
  ]

  /** The thirty names differ pairwise. */
  lemma NamesDistinct()
    ensures forall a, b :: 0 <= a < b < 30 ==> Names[a] != Names[b]
  {
  }

  /** `getNayinWuxing`: the first of 金, 木, 水, 火, 土 that the name contains. */
  function Wuxing(nayin: string): (w: string)
    ensures w == Unknown <==> forall c :: c in nayin ==> c !in Elements
    ensures w != Unknown ==> |w| == 1 && w[0] in nayin && w[0] in Elements
    ensures forall k :: 0 <= k < |Elements| && w == [Elements[k]] ==>
              forall j :: 0 <= j < k ==> Elements[j] !in nayin
  {
    if '金' in nayin then "金"
    else if '木' in nayin then "木"
    else if '水' in nayin then "水"
    else if '火' in nayin then "火"
    else if '土' in nayin then "土"
    else Unknown
  }

  const Elements: string := "金木水火土"

  /** A three-character name whose last character is an element and whose
      other characters name no other element. */
  predicate EndsInElement(s: string)
  {
    |s| == 3 && s[2] in Elements
    && (s[0] in Elements ==> s[0] == s[2]) && (s[1] in Elements ==> s[1] == s[2])
  }

  /** The element read off such a name is its last character. */
  lemma WuxingOfEnding(s: string)
    requires EndsInElement(s)
    ensures Wuxing(s) == [s[2]]
  {
  }

  /** Each name, checked by thirds of the list. */
  lemma NamesEnd0(k: int)
    requires 0 <= k < 10
    ensures EndsInElement(Names[k])
  {
  }

  lemma NamesEnd1(k: int)
    requires 10 <= k < 20
    ensures EndsInElement(Names[k])
  {
  }

  lemma NamesEnd2(k: int)
    requires 20 <= k < 30
    ensures EndsInElement(Names[k])
  {
  }

  /** `getNayin(tian, di)`: the entry at (6 * stem index + branch index) mod 60,
      or 未知 when either text is not a stem or branch. */
  function GetNayin(tian: string, di: string): (r: string)
    ensures r == Unknown <==> !IsStem(tian) || !IsBranch(di)
    ensures r != Unknown ==> EndsInElement(r)
  {
    if StemIndex(tian) == -1 || BranchIndex(di) == -1 then Unknown
    else Entry(TablePosition(StemIndex(tian), BranchIndex(di)))
  }

  /** `(tianIndex * 6 + diIndex) % 60`, the table position the lookup reads. */
  function TablePosition(ti: int, bi: int): (i: int)
    requires 0 <= ti < 10 && 0 <= bi < 12
    ensures 0 <= i < 60
  {
    (ti * 6 + bi) % 60
  }

  /** `NAYIN_TABLE[i] || '未知'`. The sixty-entry table writes each of the
      thirty names twice in a row, so entry `i` is name `i / 2`; no entry is
      empty, so the fallback is never taken. */
  function Entry(i: int): (r: string)
    requires 0 <= i < 60
    ensures r == Names[i / 2] && r != Unknown && EndsInElement(r)
  {
    NameKnown(i / 2);
    if |Names[i / 2]| > 0 then Names[i / 2] else Unknown
  }

  /** No name is 未知, and every name ends in its element. */
  lemma NameKnown(k: int)
    requires 0 <= k < 30
    ensures Names[k] != Unknown && EndsInElement(Names[k])
  {
    if k < 10 { NamesEnd0(k); } else if k < 20 { NamesEnd1(k); } else { NamesEnd2(k); }
    assert Unknown[1] !in Elements;
  }

  /** The traditional nayin of a pillar of the cycle: the pillars at positions
      2k and 2k+1 share the k-th name. */
  function Traditional(p: Pillar): (r: string)
    requires p.InRange()
  {
    Names[Ordinal(p) / 2]
  }

  /** For a stem and a branch the lookup answers the name at half the table
      position. */
  lemma LookupPillar(s: int, b: int)
    requires 0 <= s < 10 && 0 <= b < 12
    ensures GetNayin(Gan(s), Zhi(b)) == Names[TablePosition(s, b) / 2]
  {
    StemIndexOf(s);
    BranchIndexOf(b);
  }

  /** The lookup gives a pillar of the cycle its traditional name exactly when
      its branch is 子 or 戌: the position it reads, (6s + b) mod 60, and the
      pillar's own position, (6s - 5b) mod 60, differ by 6b mod 60, which puts
      them in the same pair of entries only when that difference is zero. */
  lemma LookupAgreesIff(s: int, b: int)
    requires Pillar(s, b).ParityValid()
    ensures GetNayin(Gan(s), Zhi(b)) == Traditional(Pillar(s, b)) <==> b == 0 || b == 10
  {
    LookupPillar(s, b);
    NamesDistinct();
    SamePair(s, b);
  }

  /** Table position and cycle position share a pair of entries exactly for
      the branches 子 and 戌. */
  lemma SamePair(s: int, b: int)
    requires 0 <= s < 10 && 0 <= b < 12
    ensures TablePosition(s, b) / 2 == Ordinal(Pillar(s, b)) / 2 <==> b == 0 || b == 10
  {
    var x, y := 6 * s + b, 6 * s - 5 * b;
    var u, v := x % 60, y % 60;
    var k := x / 60 - y / 60;
    assert u - v == 6 * b - 60 * k;
    if b == 0 || b == 10 {
      assert u == v;
    } else {
      PositionsApart(u, v, b, k);
    }
  }

  /** Two positions whose difference is 6 b - 60 k for a branch b other than
      子 and 戌 are at least two apart, so they fall in different pairs. */
  lemma PositionsApart(u: int, v: int, b: int, k: int)
    requires 0 <= u < 60 && 0 <= v < 60 && 0 < b < 12 && b != 10
    requires u - v == 6 * b - 60 * k
    ensures u / 2 != v / 2
  {
    assert b - 10 * k != 0;
  }

  /** 乙丑, second pillar of the cycle, shares 海中金 with 甲子 in the
      traditional assignment, but the lookup reads entry 7, 路旁土. */
  lemma GetNayinYiChou()
    ensures GetNayin(Gan(1), Zhi(1)) != Traditional(Pillar(1, 1))
  {
    LookupAgreesIff(1, 1);
  }

  /** `getNayinByGanZhi`: a two-character string split into stem and branch. */
  function GetNayinByGanZhi(ganZhi: string): (r: string)
    ensures |ganZhi| != 2 ==> r == Unknown
    ensures |ganZhi| == 2 ==> r == GetNayin(ganZhi[..1], ganZhi[1..])
  {
    if |ganZhi| != 2 then Unknown
    else GetNayin([ganZhi[0]], [ganZhi[1]])
  }

  /** Looking up a pillar's text is looking up its stem and branch. */
  lemma ByGanZhiOfText(p: Pillar)
    requires p.InRange()
    ensures GetNayinByGanZhi(Text(p)) == GetNayin(Gan(p.stem), Zhi(p.branch))
  {
    var t := Text(p);
    assert [t[0]] == Gan(p.stem) && [t[1]] == Zhi(p.branch);
  }

  datatype NayinInfo = NayinInfo(nayin: string, wuxing: string)

  /** `getNayinInfo`: the nayin and the element it names. */
  function GetNayinInfo(tian: string, di: string): (r: NayinInfo)
    ensures r.nayin == GetNayin(tian, di)
    ensures r.wuxing == Unknown <==> r.nayin == Unknown
    ensures r.nayin != Unknown ==> |r.nayin| == 3 && r.wuxing == [r.nayin[2]] && r.nayin[2] in Elements
  {
    NayinElement(GetNayin(tian, di));
    NayinInfo(GetNayin(tian, di), Wuxing(GetNayin(tian, di)))
  }

  /** The element of a lookup result is its last character, and 未知 has
      none. */
  lemma NayinElement(n: string)
    requires n == Unknown || EndsInElement(n)
    ensures Wuxing(n) == Unknown <==> n == Unknown
    ensures n != Unknown ==> Wuxing(n) == [n[2]]
  {
    if n != Unknown {
      WuxingOfEnding(n);
    } else {
      assert forall c :: c in Unknown ==> c !in Elements;
    }
  }
}
