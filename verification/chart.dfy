/** The parts of the web app's chart that src/utils/sizhu.ts derives from
    the four pillars: the life, body and fetal palaces, the age at which
    the decade fortunes start, the ten decade fortunes and the run of annual
    pillars. */
module Chart {
  import opened JsRuntime
  import opened Civil
  import opened Ganzhi
  import Shengwang
  import Jieqi
  import Sizhu

  /** `getTianganForDizhi`: the stem the first round of the cycle pairs with
      a branch, the branch index taken round the ten stems. */
  function TianganForDizhi(dizhiIndex: int): (s: int)
    requires 0 <= dizhiIndex < 12
    ensures FromOrdinal(dizhiIndex) == Pillar(s, dizhiIndex)
  {
    dizhiIndex % 10
  }

  /** A palace: its pillar, the nayin of that pillar, and the life stage of
      its stem at the month branch in the web app's table. */
  datatype Palace = Palace(pillar: Pillar, nayin: string, shengwang: string, level: Shengwang.Level)

  /** What the three palace functions share once the branch is known. */
  function PalaceAt(branch: int, monthDi: string, nayinOf: (string, string) -> string): (r: Palace)
    requires 0 <= branch < 12
    ensures r.pillar.branch == branch && r.pillar == FromOrdinal(branch) && r.pillar.ParityValid()
    ensures r.nayin == nayinOf(Gan(r.pillar.stem), Zhi(branch))
    ensures r.shengwang == Shengwang.StateIn(Shengwang.SrcTable, Gan(r.pillar.stem), monthDi)
    ensures r.level == Shengwang.LevelOf(r.shengwang)
  {
    var tian := TianganForDizhi(branch);
    var state := Shengwang.StateIn(Shengwang.SrcTable, Gan(tian), monthDi);
    Palace(Pillar(tian, branch), nayinOf(Gan(tian), Zhi(branch)), state, Shengwang.LevelOf(state))
  }

  /** `calculateMinggong`: the life palace sits at branch 14 - month - hour,
      a negative remainder brought into range. */
  function Minggong(monthDizhi: int, hourDizhi: int, monthDi: string, nayinOf: (string, string) -> string): (r: Palace)
    ensures r == PalaceAt((14 - monthDizhi - hourDizhi) % 12, monthDi, nayinOf)
    ensures r.pillar.branch == MinggongBranch(monthDizhi, hourDizhi)
  {
    var minggongDizhi := MinggongBranch(monthDizhi, hourDizhi);
    PalaceAt(minggongDizhi, monthDi, nayinOf)
  }

  /** The branch index of the life palace, a negative remainder of `%`
      brought into range by adding 12. */
  function MinggongBranch(monthDizhi: int, hourDizhi: int): (b: int)
    ensures b == (14 - monthDizhi - hourDizhi) % 12
  {
    var b := Rem(14 - monthDizhi - hourDizhi, 12);
    RemNormalised(14 - monthDizhi - hourDizhi, 12);
    if b < 0 then b + 12 else b
  }

  /** `calculateShengong`: the body palace sits at branch month + hour. The
      indices come from DIZHI.indexOf of the calendar library's branches, so
      they are never negative. */
  function Shengong(monthDizhi: int, hourDizhi: int, monthDi: string, nayinOf: (string, string) -> string): (r: Palace)
    requires 0 <= monthDizhi && 0 <= hourDizhi
    ensures r == PalaceAt((monthDizhi + hourDizhi) % 12, monthDi, nayinOf)
    ensures r.pillar.branch == ShengongBranch(monthDizhi, hourDizhi)
  {
    PalaceAt(ShengongBranch(monthDizhi, hourDizhi), monthDi, nayinOf)
  }

  /** The branch index of the body palace. */
  function ShengongBranch(monthDizhi: int, hourDizhi: int): (b: int)
    requires 0 <= monthDizhi && 0 <= hourDizhi
    ensures b == (monthDizhi + hourDizhi) % 12
  {
    Rem(monthDizhi + hourDizhi, 12)
  }

  /** `calculateTaigong`: the fetal palace sits at branch day + month + 1. */
  function Taigong(monthDizhi: int, dayDizhi: int, monthDi: string, nayinOf: (string, string) -> string): (r: Palace)
    requires 0 <= monthDizhi && 0 <= dayDizhi
    ensures r == PalaceAt((dayDizhi + monthDizhi + 1) % 12, monthDi, nayinOf)
    ensures r.pillar.branch == (dayDizhi + monthDizhi + 1) % 12
  {
    PalaceAt(Rem(dayDizhi + monthDizhi + 1, 12), monthDi, nayinOf)
  }

  /** The life and body palaces are placed symmetrically: their branches
      always add up to 2 (寅) round the twelve, whatever the month and hour. */
  lemma PalacesBalance(monthDizhi: int, hourDizhi: int)
    requires 0 <= monthDizhi && 0 <= hourDizhi
    ensures (MinggongBranch(monthDizhi, hourDizhi) + ShengongBranch(monthDizhi, hourDizhi)) % 12 == 2
  {
    var x, y := 14 - monthDizhi - hourDizhi, monthDizhi + hourDizhi;
    var qx, qy := x / 12, y / 12;
    assert x % 12 + y % 12 == 2 + 12 * (1 - qx - qy);
    ModShift12(2, 1 - qx - qy);
  }

  datatype Gender = Male | Female

  /** 阳男阴女顺行: the fortunes run forward for a man born in a yang-stem
      year and for a woman born in any other year. */
  predicate Shunxing(gender: Gender, yearTian: string)
  {
    var isYangYear := IsYangStem(yearTian);
    (gender == Male && isYangYear) || (gender == Female && !isYangYear)
  }

  /** A forward run belongs to a man exactly when the year stem is a stem at
      an even index. */
  lemma ShunxingByIndex(gender: Gender, yearTian: string)
    ensures Shunxing(gender, yearTian) <==> (gender == Male <==> IsStem(yearTian) && StemIndex(yearTian) % 2 == 0)
  {
    YangStemEven(yearTian);
  }

  datatype QiyunInfo = QiyunInfo(years: int, months: int, days: int, totalDays: int, isShunxing: bool)

  /** `calculateQiyunInfo`: the whole days to the next term (forward run) or
      from the previous term (backward run), three days to a year and one
      day to four months. `now` stands for the clock the term search reads. */
  function Qiyun(birth: DateTime, gender: Gender, yearTian: string, now: DateTime): (q: QiyunInfo)
    requires birth.Valid()
    ensures q.isShunxing == Shunxing(gender, yearTian)
    ensures q.totalDays == if q.isShunxing then Jieqi.NextSearch(birth, now).daysDiff
                           else Jieqi.PrevSearch(birth, now).daysDiff
    ensures 0 <= q.totalDays && q.totalDays == 3 * q.years + q.months / 4
    ensures q.months == 0 || q.months == 4 || q.months == 8
    ensures q.days == 0
  {
    var isShunxing := Shunxing(gender, yearTian);
    Jieqi.NextJieqiDays(birth, now);
    Jieqi.PreviousJieqiDays(birth, now);
    var daysDiff0 := if isShunxing then Jieqi.NextSearch(birth, now).daysDiff
                     else Jieqi.PrevSearch(birth, now).daysDiff;
    // Math.abs
    var daysDiff := if daysDiff0 < 0 then -daysDiff0 else daysDiff0;
    ThreeDaysAYear(daysDiff);
    var years := daysDiff / 3;
    var remainingDays := daysDiff % 3;
    var months := remainingDays * 4;
    // the day count is whole, so its remainder has no fraction of a day
    var days := (remainingDays - remainingDays) * 30;
    QiyunInfo(years, months, days, daysDiff, isShunxing)
  }

  /** Three days to a year, the days left over four months each. */
  lemma ThreeDaysAYear(daysDiff: int)
    requires 0 <= daysDiff
    ensures daysDiff == 3 * (daysDiff / 3) + (daysDiff % 3 * 4) / 4
    ensures daysDiff % 3 * 4 == 0 || daysDiff % 3 * 4 == 4 || daysDiff % 3 * 4 == 8
  {
  }

  /** More days to the term never start the fortunes at a younger age. */
  lemma QiyunYearsMonotone(b1: DateTime, b2: DateTime, gender: Gender, yearTian: string, now: DateTime)
    requires b1.Valid() && b2.Valid()
    requires Qiyun(b1, gender, yearTian, now).totalDays <= Qiyun(b2, gender, yearTian, now).totalDays
    ensures Qiyun(b1, gender, yearTian, now).years <= Qiyun(b2, gender, yearTian, now).years
  {
    var q1, q2 := Qiyun(b1, gender, yearTian, now), Qiyun(b2, gender, yearTian, now);
    assert 3 * q1.years <= q1.totalDays <= q2.totalDays < 3 * q2.years + 3;
  }

  /** One decade fortune. */
  datatype DayunEntry = DayunEntry(age: int, pillar: Pillar, startAge: int, endAge: int)

  /** The `i`-th decade fortune (from 0): the month pillar moved `i + 1`
      steps forward or back, covering ten years from `start + 10 i`. */
  function DayunAt(month: Pillar, forward: bool, start: int, i: int): DayunEntry
  {
    DayunEntry(i + 1, Shift(month, if forward then i + 1 else -(i + 1)), start + 10 * i, start + 10 * i + 9)
  }

  /** Each decade starts the year after the previous one ends. */
  lemma DayunContiguous(month: Pillar, forward: bool, start: int, i: int)
    ensures DayunAt(month, forward, start, i + 1).startAge == DayunAt(month, forward, start, i).endAge + 1
    ensures DayunAt(month, forward, start, i).endAge - DayunAt(month, forward, start, i).startAge == 9
  {
  }

  /** Consecutive fortunes are neighbours in the sixty-pillar cycle, and a
      fortune of a month pillar of the cycle stays in the cycle. */
  lemma DayunNeighbours(month: Pillar, forward: bool, start: int, i: int)
    requires month.ParityValid()
    ensures DayunAt(month, forward, start, i).pillar.ParityValid()
    ensures var n := Ordinal(month);
      DayunAt(month, forward, start, i).pillar == FromOrdinal(if forward then n + i + 1 else n - i - 1)
  {
    var n := Ordinal(month);
    FromOrdinalOfOrdinal(month);
    ShiftFromOrdinal(n, if forward then i + 1 else -(i + 1));
  }

  /** The stem and branch of fortune `i` as the loop computes them: forward
      `(m + i + 1) % n`, backward `(m - i - 1 + n) % n`. */
  lemma DayunIndices(month: Pillar, forward: bool, i: int)
    requires month.InRange() && 0 <= i < 10
    ensures forward ==> Shift(month, i + 1) == Pillar(Rem(month.stem + i + 1, 10), Rem(month.branch + i + 1, 12))
    ensures !forward ==> Shift(month, -(i + 1)) == Pillar(Rem(month.stem - i - 1 + 10, 10), Rem(month.branch - i - 1 + 12, 12))
  {
    if !forward {
      ModShift10(month.stem - i - 1, 1);
      ModShift12(month.branch - i - 1, 1);
    }
  }

  /** `calculateDayun`: ten decade fortunes counted on from the month pillar
      (given by its stem and branch indices), forward or back as the year
      stem and the gender decide, the first starting at the qiyun age. */
  method Dayun(birth: DateTime, gender: Gender, month: Pillar, yearTian: string, now: DateTime)
    returns (dayunList: seq<DayunEntry>)
    requires birth.Valid() && month.InRange()
    ensures |dayunList| == 10
    ensures forall i :: 0 <= i < 10 ==>
      dayunList[i] == DayunAt(month, Shunxing(gender, yearTian), Qiyun(birth, gender, yearTian, now).years, i)
  {
    var qiyunInfo := Qiyun(birth, gender, yearTian, now);
    dayunList := DayunFrom(month, Shunxing(gender, yearTian), qiyunInfo.years);
  }

  /** The loop of `calculateDayun` once the direction and the qiyun age are
      known. */
  method DayunFrom(month: Pillar, isShunxing: bool, qiyunAge: int) returns (dayunList: seq<DayunEntry>)
    requires month.InRange()
    ensures |dayunList| == 10
    ensures forall i :: 0 <= i < 10 ==> dayunList[i] == DayunAt(month, isShunxing, qiyunAge, i)
  {
    var monthTianIndex := month.stem;
    var monthDiIndex := month.branch;
    dayunList := [];
    var i := 0;
    while i < 10
      invariant 0 <= i <= 10 && |dayunList| == i
      invariant forall k :: 0 <= k < i ==> dayunList[k] == DayunAt(month, isShunxing, qiyunAge, k)
    {
      var tianIndex, diIndex;
      if isShunxing {
        tianIndex := Rem(monthTianIndex + i + 1, 10);
        diIndex := Rem(monthDiIndex + i + 1, 12);
      } else {
        tianIndex := Rem(monthTianIndex - i - 1 + 10, 10);
        diIndex := Rem(monthDiIndex - i - 1 + 12, 12);
      }
      DayunIndices(month, isShunxing, i);
      var startAge := qiyunAge + i * 10;
      var endAge := startAge + 9;
      var entry := DayunEntry(i + 1, Pillar(tianIndex, diIndex), startAge, endAge);
      assert entry == DayunAt(month, isShunxing, qiyunAge, i);
      dayunList := dayunList + [entry];
      i := i + 1;
    }
  }

  /** The year pillar advances one step each year. */
  lemma YearGanZhiNext(year: int)
    ensures Sizhu.YearGanZhi(year + 1) == Shift(Sizhu.YearGanZhi(year), 1)
  {
    ShiftFromOrdinal(year - 1984, 1);
  }

  /** One annual pillar with the nominal age (虚岁) in that year. */
  datatype LiunianEntry = LiunianEntry(year: int, age: int, pillar: Pillar)

  /** `calculateLiunian`: `count` consecutive years from `currentYear`, each
      with its age counted from 1 in the birth year and its year pillar. */
  method Liunian(birthYear: int, currentYear: int, count: int := 10) returns (liunianList: seq<LiunianEntry>)
    ensures |liunianList| == if count > 0 then count else 0
    ensures forall i :: 0 <= i < |liunianList| ==>
      liunianList[i] == LiunianEntry(currentYear + i, currentYear + i - birthYear + 1, Sizhu.YearGanZhi(currentYear + i))
  {
    liunianList := [];
    var i := 0;
    while i < count
      invariant 0 <= i && |liunianList| == i
      invariant count > 0 ==> i <= count
      invariant count <= 0 ==> i == 0
      invariant forall k :: 0 <= k < i ==>
        liunianList[k] == LiunianEntry(currentYear + k, currentYear + k - birthYear + 1, Sizhu.YearGanZhi(currentYear + k))
    {
      var year := currentYear + i;
      var age := year - birthYear + 1;
      var offset := year - 1984;
      var tianIndex := Rem(offset, 10);
      var diIndex := Rem(offset, 12);
      RemNormalised(offset, 10);
      RemNormalised(offset, 12);
      var tian := if tianIndex < 0 then tianIndex + 10 else tianIndex;
      var di := if diIndex < 0 then diIndex + 12 else diIndex;
      liunianList := liunianList + [LiunianEntry(year, age, Pillar(tian, di))];
      i := i + 1;
    }
  }
}
