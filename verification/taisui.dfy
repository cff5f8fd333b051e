/** The twelve spirits of the year (taisui), src/utils/taisui.ts: the
    spirit a branch meets is its distance from the year's branch, counted
    forward round the twelve branches. */
module Taisui {
  import opened JsRuntime
  import opened Ganzhi

  const Taisui: string := "太岁"
  const Taiyang: string := "太阳"
  const Sangmen: string := "丧门"
  const Taiyin: string := "太阴"
  const Guanfu: string := "官符"
  const Sifu: string := "死符"
  const Suipo: string := "岁破"
  const Longde: string := "龙德"
  const Baihu: string := "白虎"
  const Fude: string := "福德"
  const Diaoke: string := "吊客"
  const Bingfu: string := "病符"

  /** TAISUI_SHENSHEN: spirit k sits k branches after the year's branch. */
  const Shenshen: seq<string> := [Taisui, Taiyang, Sangmen, Taiyin, Guanfu, Sifu,
                                  Suipo, Longde, Baihu, Fude, Diaoke, Bingfu]

  datatype Jixiong = Ji | Xiong

  /** SHENSHEN_JIXIONG, whose keys are exactly the spirits of Shenshen in
      the same order, so the value for spirit k is entry k here. */
  const ShenshenJixiong: seq<Jixiong> := [Xiong, Ji, Xiong, Ji, Xiong, Xiong,
                                          Xiong, Ji, Xiong, Ji, Xiong, Xiong]

  /** SHENSHEN_DESC, keyed the same way. */
  const ShenshenDesc: seq<string> := [
    "犯太岁，诸事小心", "贵人星，光明显达", "主丧事孝服", "女贵人暗助",
    "主官非口舌", "主病灾小耗", "主破财大耗", "逢凶化吉",
    "主血光意外", "福气临门", "主吊丧悲伤", "主疾病健康"]

  const Unknown: string := "未知"

  /** `(targetIndex - yearIndex + 12) % 12`: the left operand is positive for
      two branch indices, so the remainder is the forward distance from the
      year's branch to the target, 0..11. */
  function ShenshaIndex(yearIndex: int, targetIndex: int): (k: int)
    requires 0 <= yearIndex < 12 && 0 <= targetIndex < 12
    ensures 0 <= k < 12
    ensures (yearIndex + k) % 12 == targetIndex
  {
    Rem(targetIndex - yearIndex + 12, 12)
  }

  /** `getTaisuiShensha`: 未知 unless both arguments are branches, otherwise
      the spirit at the target's distance from the year's branch. */
  function TaisuiShensha(yearDizhi: string, targetDizhi: string): (s: string)
    ensures !IsBranch(yearDizhi) || !IsBranch(targetDizhi) ==> s == Unknown
    ensures IsBranch(yearDizhi) && IsBranch(targetDizhi) ==>
              s == Shenshen[ShenshaIndex(BranchIndex(yearDizhi), BranchIndex(targetDizhi))]
  {
    var yearIndex := BranchIndex(yearDizhi);
    var targetIndex := BranchIndex(targetDizhi);
    if yearIndex == -1 || targetIndex == -1 then Unknown
    else Shenshen[ShenshaIndex(yearIndex, targetIndex)]
  }

  /** The branch `k` places after the year's branch meets spirit `k`. */
  lemma SpiritAtDistance(yearIndex: int, k: int)
    requires 0 <= yearIndex < 12 && 0 <= k < 12
    ensures TaisuiShensha(Zhi(yearIndex), Zhi((yearIndex + k) % 12)) == Shenshen[k]
  {
    var t := (yearIndex + k) % 12;
    BranchIndexOf(yearIndex);
    BranchIndexOf(t);
    DistanceOfShift(yearIndex, k);
  }

  lemma DistanceOfShift(yearIndex: int, k: int)
    requires 0 <= yearIndex < 12 && 0 <= k < 12
    ensures ShenshaIndex(yearIndex, (yearIndex + k) % 12) == k
  {
  }

  /** The year's own branch meets 太岁. */
  lemma SameBranchTaisui(yearIndex: int)
    requires 0 <= yearIndex < 12
    ensures TaisuiShensha(Zhi(yearIndex), Zhi(yearIndex)) == Taisui
  {
    SpiritAtDistance(yearIndex, 0);
  }

  /** The opposite branch, six places on, meets 岁破. */
  lemma OppositeBranchSuipo(yearIndex: int)
    requires 0 <= yearIndex < 12
    ensures TaisuiShensha(Zhi(yearIndex), Zhi((yearIndex + 6) % 12)) == Suipo
  {
    SpiritAtDistance(yearIndex, 6);
    SuipoAtSix();
  }

  lemma SuipoAtSix()
    ensures Shenshen[6] == Suipo
  {
  }

  /** `getShenshaJixiong`: the table's verdict for a spirit, xiong for any
      other string. */
  function ShenshaJixiong(shensha: string): (j: Jixiong)
    ensures shensha !in Shenshen ==> j == Xiong
    ensures shensha in Shenshen ==> j == ShenshenJixiong[IndexOf(Shenshen, shensha)]
  {
    var i := IndexOf(Shenshen, shensha);
    if i == -1 then Xiong else ShenshenJixiong[i]
  }

  /** Exactly four spirits are auspicious: 太阳, 太阴, 龙德 and 福德. */
  lemma JiSpirits(shensha: string)
    ensures ShenshaJixiong(shensha) == Ji
            <==> shensha == Taiyang || shensha == Taiyin || shensha == Longde || shensha == Fude
  {
    var i := IndexOf(Shenshen, shensha);
    if i != -1 {
      assert Shenshen[i] == shensha;
      SpiritNames(i);
    }
  }

  /** The spirit at each position, and the verdict there: the ji spirits
      are the ones at positions 1, 3, 7 and 9. */
  lemma SpiritNames(i: int)
    requires 0 <= i < 12
    ensures ShenshenJixiong[i] == Ji <==> i == 1 || i == 3 || i == 7 || i == 9
    ensures Shenshen[i] == Taiyang <==> i == 1
    ensures Shenshen[i] == Taiyin <==> i == 3
    ensures Shenshen[i] == Longde <==> i == 7
    ensures Shenshen[i] == Fude <==> i == 9
  {
  }

  /** `getShenshaDesc`: the table's sentence for a spirit, '' for any other
      string. */
  function ShenshaDesc(shensha: string): (d: string)
    ensures shensha !in Shenshen ==> d == ""
    ensures shensha in Shenshen ==> d == ShenshenDesc[IndexOf(Shenshen, shensha)]
  {
    var i := IndexOf(Shenshen, shensha);
    if i == -1 then "" else ShenshenDesc[i]
  }

  datatype TaisuiResult = TaisuiResult(shensha: string, jixiong: Jixiong, desc: string)

  /** `calculateTaisuiShensha`: the spirit with its verdict and sentence; an
      input that is not a branch gives 未知, xiong and ''. */
  function CalculateTaisuiShensha(yearDizhi: string, targetDizhi: string): (r: TaisuiResult)
    ensures r.shensha == TaisuiShensha(yearDizhi, targetDizhi)
    ensures !IsBranch(yearDizhi) || !IsBranch(targetDizhi) ==> r == TaisuiResult(Unknown, Xiong, "")
    ensures IsBranch(yearDizhi) && IsBranch(targetDizhi) ==>
              var k := ShenshaIndex(BranchIndex(yearDizhi), BranchIndex(targetDizhi));
              r == TaisuiResult(Shenshen[k], ShenshenJixiong[k], ShenshenDesc[k])
  {
    var shensha := TaisuiShensha(yearDizhi, targetDizhi);
    UnknownIsNoSpirit();
    if IsBranch(yearDizhi) && IsBranch(targetDizhi) then
      SpiritsFoundAtOwnIndex(ShenshaIndex(BranchIndex(yearDizhi), BranchIndex(targetDizhi)));
      TaisuiResult(shensha, ShenshaJixiong(shensha), ShenshaDesc(shensha))
    else
      TaisuiResult(shensha, ShenshaJixiong(shensha), ShenshaDesc(shensha))
  }

  lemma UnknownIsNoSpirit()
    ensures Unknown !in Shenshen
  {
  }

  /** Each spirit is found at its own position. */
  lemma SpiritsFoundAtOwnIndex(k: int)
    requires 0 <= k < 12
    ensures IndexOf(Shenshen, Shenshen[k]) == k
  {
    IndexOfDistinct(Shenshen, k);
  }

  /** The placeholder for a missing branch. */
  const Missing: TaisuiResult := TaisuiResult("-", Xiong, "")

  /** One element of `calculateAllTaisuiShensha`'s map: a falsy entry
      (undefined or the empty string) gives the placeholder. */
  function TaisuiEntry(yearDizhi: string, dz: Option<string>): TaisuiResult
  {
    if dz.None? || dz.value == "" then Missing else CalculateTaisuiShensha(yearDizhi, dz.value)
  }

  /** `calculateAllTaisuiShensha`: one result per list entry, in order. */
  function CalculateAllTaisuiShensha(yearDizhi: string, dizhiList: seq<Option<string>>)
    : (r: seq<TaisuiResult>)
    ensures |r| == |dizhiList|
    ensures forall i :: 0 <= i < |r| && (dizhiList[i].None? || dizhiList[i].value == "") ==>
              r[i] == Missing
    ensures forall i :: 0 <= i < |r| && dizhiList[i].Some? && dizhiList[i].value != "" ==>
              r[i].shensha == TaisuiShensha(yearDizhi, dizhiList[i].value)
              && r[i] == CalculateTaisuiShensha(yearDizhi, dizhiList[i].value)
  {
    seq(|dizhiList|, i requires 0 <= i < |dizhiList| => TaisuiEntry(yearDizhi, dizhiList[i]))
  }
}
