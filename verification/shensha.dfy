/** The four spirits the chart marks on a branch, src/utils/shensha.ts:
    the travelling horse (驿马) from the year's branch, and the salary (禄),
    the goat blade (羊刃) and the heavenly noble (天乙贵人) from the day's stem.
    Every table is keyed by exactly the ten stems or the twelve branches, so
    each is kept as a sequence indexed by stem or branch index, and a lookup
    by a string that is not a stem or branch finds nothing. */
module Shensha {
  import opened Ganzhi

  /** A branch index. */
  type BranchNo = i: int | 0 <= i < 12

  /** YIMA_TABLE by base branch: 寅午戌→申, 申子辰→寅, 亥卯未→巳, 巳酉丑→亥. */
  const YimaTable: seq<BranchNo> := [2, 11, 8, 5, 2, 11, 8, 5, 2, 11, 8, 5]

  /** YANGREN_TABLE by day stem. */
  const YangrenTable: seq<BranchNo> := [3, 4, 6, 7, 6, 7, 9, 10, 0, 1]

  /** LU_TABLE by day stem. */
  const LuTable: seq<BranchNo> := [2, 3, 5, 6, 5, 6, 8, 9, 11, 0]

  /** TIANYI_TABLE by day stem: the two noble branches, in the table's order. */
  const TianyiTable: seq<(BranchNo, BranchNo)> := [(1, 7), (0, 8), (11, 9), (11, 9), (1, 7),
                                         (0, 8), (1, 7), (6, 2), (3, 5), (3, 5)]

  /** `YIMA_TABLE[baseDizhi] === targetDizhi`: a base that is not a branch
      finds `undefined`, which equals no string. The horse is a branch, and
      it is opposite a member of the base's trine (the branches four apart). */
  predicate IsYima(baseDizhi: string, targetDizhi: string): (r: bool)
    ensures r ==> IsBranch(baseDizhi) && IsBranch(targetDizhi)
    ensures r ==> ((BranchIndex(targetDizhi) + 6) % 12) % 4 == BranchIndex(baseDizhi) % 4
  {
    var b := BranchIndex(baseDizhi);
    if b == -1 then false
    else
      HorseOpposite(b, targetDizhi);
      targetDizhi == Zhi(YimaTable[b])
  }

  /** The horse of branch `b`, read back as a branch index. */
  lemma HorseOpposite(b: int, targetDizhi: string)
    requires 0 <= b < 12
    ensures targetDizhi == Zhi(YimaTable[b]) ==>
              IsBranch(targetDizhi) && ((BranchIndex(targetDizhi) + 6) % 12) % 4 == b % 4
  {
    BranchIndexOf(YimaTable[b]);
    YimaOfTrine(b);
  }

  /** The three branches of a trine (寅午戌, 申子辰, 亥卯未, 巳酉丑, the
      branches four apart) share one horse, and it is the branch opposite a
      member of the trine. */
  lemma YimaOfTrine(b: int)
    requires 0 <= b < 12
    ensures YimaTable[b] == YimaTable[(b + 4) % 12]
    ensures ((YimaTable[b] as int + 6) % 12) % 4 == b % 4
  {
  }

  /** A base branch has exactly one horse among the branches; any other base
      has none. */
  lemma YimaUnique(baseDizhi: string, j: int)
    requires 0 <= j < 12
    ensures IsYima(baseDizhi, Zhi(j)) <==> IsBranch(baseDizhi) && j == YimaTable[BranchIndex(baseDizhi)]
  {
    var b := BranchIndex(baseDizhi);
    if b != -1 {
      BranchIndexOf(j);
      BranchIndexOf(YimaTable[b]);
    }
  }

  /** `YANGREN_TABLE[dayTiangan] === targetDizhi`. The blade is the branch
      right after the salary (禄) of the same day stem. */
  predicate IsYangren(dayTiangan: string, targetDizhi: string): (r: bool)
    ensures r ==> IsStem(dayTiangan) && IsBranch(targetDizhi)
    ensures r <==> IsBranch(targetDizhi)
                   && IsLu(dayTiangan, Zhi((BranchIndex(targetDizhi) + 11) % 12))
  {
    var s := StemIndex(dayTiangan);
    if s == -1 then false
    else
      BladeAfterSalary(s, targetDizhi);
      targetDizhi == Zhi(YangrenTable[s])
  }

  /** The blade of stem `s` is exactly the branch whose predecessor is the
      salary of `s`. */
  lemma BladeAfterSalary(s: int, targetDizhi: string)
    requires 0 <= s < 10
    ensures targetDizhi == Zhi(YangrenTable[s]) ==> IsBranch(targetDizhi)
    ensures targetDizhi == Zhi(YangrenTable[s]) <==>
              IsBranch(targetDizhi)
              && Zhi((BranchIndex(targetDizhi) + 11) % 12) == Zhi(LuTable[s])
  {
    var t := BranchIndex(targetDizhi);
    BranchIndexOf(YangrenTable[s]);
    BranchIndexOf(LuTable[s]);
    BladeFollowsSalary(s);
    if t != -1 {
      BranchIndexOf(t);
      BranchIndexOf((t + 11) % 12);
      StepBack(t, LuTable[s]);
    }
  }

  /** On the twelve branches, one step forward from `l` reaches `t` exactly
      when one step back from `t` reaches `l`. */
  lemma StepBack(t: int, l: int)
    requires 0 <= t < 12 && 0 <= l < 12
    ensures t == (l + 1) % 12 <==> (t + 11) % 12 == l
  {
    if l == 11 {
      assert (l + 1) % 12 == 0;
    } else {
      assert (l + 1) % 12 == l + 1;
    }
    if t == 0 {
      assert (t + 11) % 12 == 11;
    } else {
      assert (t + 11) % 12 == t - 1;
    }
  }

  /** `LU_TABLE[dayTiangan] === targetDizhi`: a string that is not a stem
      has no salary. */
  predicate IsLu(dayTiangan: string, targetDizhi: string): (r: bool)
    ensures r ==> IsStem(dayTiangan) && IsBranch(targetDizhi)
  {
    var s := StemIndex(dayTiangan);
    if s == -1 then false
    else
      SalaryIsBranch(s, targetDizhi);
      targetDizhi == Zhi(LuTable[s])
  }

  lemma SalaryIsBranch(s: int, targetDizhi: string)
    requires 0 <= s < 10
    ensures targetDizhi == Zhi(LuTable[s]) ==> IsBranch(targetDizhi)
  {
    BranchIndexOf(LuTable[s]);
  }

  /** Neither the salary nor the blade belongs to a string that is not a
      stem. */
  lemma UnknownStem(dayTiangan: string, targetDizhi: string)
    requires !IsStem(dayTiangan)
    ensures !IsLu(dayTiangan, targetDizhi) && !IsYangren(dayTiangan, targetDizhi)
    ensures !IsTianyi(dayTiangan, targetDizhi)
  {
  }

  /** For every stem the blade is the branch right after the salary. */
  lemma BladeFollowsSalary(s: int)
    requires 0 <= s < 10
    ensures YangrenTable[s] as int == (LuTable[s] as int + 1) % 12
  {
  }

  /** So no branch is both salary and blade for the same day stem. */
  lemma SalaryNotBlade(dayTiangan: string, targetDizhi: string)
    ensures !(IsLu(dayTiangan, targetDizhi) && IsYangren(dayTiangan, targetDizhi))
  {
    var s := StemIndex(dayTiangan);
    if s != -1 {
      SalaryBladeDiffer(s);
      DistinctBranches(LuTable[s], YangrenTable[s]);
    }
  }

  lemma SalaryBladeDiffer(s: int)
    requires 0 <= s < 10
    ensures LuTable[s] != YangrenTable[s]
  {
    BladeFollowsSalary(s);
  }

  /** Different branch indices spell different branches. */
  lemma DistinctBranches(i: int, j: int)
    requires 0 <= i < 12 && 0 <= j < 12 && i != j
    ensures Zhi(i) != Zhi(j)
  {
    BranchIndexOf(i);
    BranchIndexOf(j);
  }

  /** `TIANYI_TABLE[dayTiangan]` then `includes(targetDizhi)`; a string that
      is not a stem finds `undefined`, which is falsy. As the table has it,
      the noble never falls on 辰 or 戌. */
  predicate IsTianyi(dayTiangan: string, targetDizhi: string): (r: bool)
    ensures r ==> IsStem(dayTiangan) && IsBranch(targetDizhi)
    ensures r ==> targetDizhi != "辰" && targetDizhi != "戌"
  {
    var s := StemIndex(dayTiangan);
    if s == -1 then false
    else
      NobleAvoidsChenXu(s, targetDizhi);
      targetDizhi == Zhi(TianyiTable[s].0) || targetDizhi == Zhi(TianyiTable[s].1)
  }

  /** The noble branches of stem `s` are branches other than 辰 and 戌. */
  lemma NobleAvoidsChenXu(s: int, targetDizhi: string)
    requires 0 <= s < 10
    ensures targetDizhi == Zhi(TianyiTable[s].0) || targetDizhi == Zhi(TianyiTable[s].1) ==>
              IsBranch(targetDizhi) && targetDizhi != "辰" && targetDizhi != "戌"
  {
    TianyiNotFourOrTen(s);
    BranchIndexOf(TianyiTable[s].0);
    BranchIndexOf(TianyiTable[s].1);
    ChenXu();
  }

  /** No noble entry of the table is branch 4 or branch 10. */
  lemma TianyiNotFourOrTen(s: int)
    requires 0 <= s < 10
    ensures TianyiTable[s].0 != 4 && TianyiTable[s].0 != 10
    ensures TianyiTable[s].1 != 4 && TianyiTable[s].1 != 10
  {
  }

  /** 辰 and 戌 are branches 4 and 10. */
  lemma ChenXu()
    ensures BranchIndex("辰") == 4 && BranchIndex("戌") == 10
  {
    BranchIndexOf(4);
    BranchIndexOf(10);
    assert Zhi(4) == "辰" && Zhi(10) == "戌";
  }

  /** Every stem has two different noble branches. */
  lemma TianyiDistinct(s: int)
    requires 0 <= s < 10
    ensures TianyiTable[s].0 != TianyiTable[s].1
  {
  }

  /** A stem's noble branches are the two in its row and no others. */
  lemma TianyiBranches(s: int, j: int)
    requires 0 <= s < 10 && 0 <= j < 12
    ensures IsTianyi(Gan(s), Zhi(j)) <==> j == TianyiTable[s].0 || j == TianyiTable[s].1
  {
    StemIndexOf(s);
    BranchIndexOf(j);
    BranchIndexOf(TianyiTable[s].0);
    BranchIndexOf(TianyiTable[s].1);
  }

  /** The label characters 贵, 禄, 马 and 刃, in the order they are pushed. */
  datatype Label = Gui | Lu | Ma | Ren

  /** The label's text. */
  function LabelText(l: Label): string
  {
    match l
    case Gui => "贵"
    case Lu => "禄"
    case Ma => "马"
    case Ren => "刃"
  }

  datatype ShenshaResult = ShenshaResult(yima: bool, yangren: bool, lu: bool, tianyi: bool,
                                         labels: seq<Label>)

  function Count(b: bool): nat { if b then 1 else 0 }

  /** The position of a label in the fixed order. */
  function Rank(l: Label): int
  {
    match l
    case Gui => 0
    case Lu => 1
    case Ma => 2
    case Ren => 3
  }

  /** `getShenshaForDizhi`: the four checks, then a label pushed for each
      that holds: 贵, 禄, 马, 刃 in that order. */
  method GetShenshaForDizhi(dayTiangan: string, yearDizhi: string, targetDizhi: string)
    returns (r: ShenshaResult)
    ensures r.yima == IsYima(yearDizhi, targetDizhi)
    ensures r.yangren == IsYangren(dayTiangan, targetDizhi)
    ensures r.lu == IsLu(dayTiangan, targetDizhi)
    ensures r.tianyi == IsTianyi(dayTiangan, targetDizhi)
    ensures LabelsOf(r)
  {
    var yima := IsYima(yearDizhi, targetDizhi);
    var yangren := IsYangren(dayTiangan, targetDizhi);
    var lu := IsLu(dayTiangan, targetDizhi);
    var tianyi := IsTianyi(dayTiangan, targetDizhi);
    var labels := PushLabels(tianyi, lu, yima, yangren);
    r := ShenshaResult(yima, yangren, lu, tianyi, labels);
  }

  /** The pushes of `getShenshaForDizhi`, apart from the checks: 贵 when the
      noble holds, then 禄, 马 and 刃. */
  method PushLabels(tianyi: bool, lu: bool, yima: bool, yangren: bool) returns (labels: seq<Label>)
    ensures LabelsOf(ShenshaResult(yima, yangren, lu, tianyi, labels))
  {
    labels := [];
    labels := PushIf(labels, tianyi, Gui);
    labels := PushIf(labels, lu, Lu);
    labels := PushIf(labels, yima, Ma);
    labels := PushIf(labels, yangren, Ren);
  }

  /** The labels of a result are exactly the ones whose flag holds, each
      once, in the order 贵, 禄, 马, 刃. */
  ghost predicate LabelsOf(r: ShenshaResult)
  {
    && (Gui in r.labels <==> r.tianyi) && (Lu in r.labels <==> r.lu)
    && (Ma in r.labels <==> r.yima) && (Ren in r.labels <==> r.yangren)
    && |r.labels| == Count(r.tianyi) + Count(r.lu) + Count(r.yima) + Count(r.yangren)
    && (forall i, j :: 0 <= i < j < |r.labels| ==> Rank(r.labels[i]) < Rank(r.labels[j]))
  }

  /** The labels and the class agree: with the labels in that order, the
      first of them names the class getShenshaClass picks, and there is no
      class exactly when there are no labels. */
  lemma ClassOfFirstLabel(r: ShenshaResult)
    requires LabelsOf(r)
    ensures |r.labels| == 0 <==> ShenshaClass(r) == ""
    ensures |r.labels| > 0 ==> ShenshaClass(r) == ClassOfLabel(r.labels[0])
  {
    if |r.labels| > 0 {
      var first := r.labels[0];
      forall j | 0 <= j < |r.labels|
        ensures Rank(first) <= Rank(r.labels[j])
      {
      }
      if r.tianyi {
        assert Gui in r.labels;
      } else if r.lu {
        assert Lu in r.labels;
      } else if r.yima {
        assert Ma in r.labels;
      }
    }
  }

  /** `if (flag) labels.push(label)` for a label that ranks above every
      label present: the order is kept, and the label is added exactly when
      the flag holds. */
  method PushIf(labels: seq<Label>, flag: bool, l: Label) returns (pushed: seq<Label>)
    requires Below(labels, Rank(l))
    ensures Below(pushed, Rank(l) + 1)
    ensures forall x :: x in pushed <==> x in labels || (flag && x == l)
    ensures |pushed| == |labels| + Count(flag)
  {
    pushed := labels;
    if flag {
      pushed := pushed + [l];
    }
  }

  /** Every label ranks below `k`, and the labels are in rank order. */
  ghost predicate Below(labels: seq<Label>, k: int)
  {
    && (forall i :: 0 <= i < |labels| ==> Rank(labels[i]) < k)
    && (forall i, j :: 0 <= i < j < |labels| ==> Rank(labels[i]) < Rank(labels[j]))
  }

  /** `getShenshaClass`: the first flag that holds in the order tianyi, lu,
      yima, yangren, or '' when none does. */
  function ShenshaClass(r: ShenshaResult): (c: string)
    ensures c == "tianyi" <==> r.tianyi
    ensures c == "lu" <==> r.lu && !r.tianyi
    ensures c == "yima" <==> r.yima && !r.lu && !r.tianyi
    ensures c == "yangren" <==> r.yangren && !r.yima && !r.lu && !r.tianyi
    ensures c == "" <==> !r.yangren && !r.yima && !r.lu && !r.tianyi
  {
    if r.tianyi then "tianyi"
    else if r.lu then "lu"
    else if r.yima then "yima"
    else if r.yangren then "yangren"
    else ""
  }

  /** The class that goes with each label. */
  function ClassOfLabel(l: Label): string
  {
    match l
    case Gui => "tianyi"
    case Lu => "lu"
    case Ma => "yima"
    case Ren => "yangren"
  }
}
