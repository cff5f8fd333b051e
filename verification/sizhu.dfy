/** The four pillars of a moment computed from the civil calendar, as both
    the web app (src/utils/sizhu.ts) and the mini-program
    (sizhu-miniprogram/src/utils/sizhu.ts) write them: the year counted from
    甲子 1984, the month stem from the year stem, the day counted from 庚子
    1900-01-01, the hour branch from an hour table and the hour stem from the
    day stem. Also the assembly of a chart from four pillar texts, and the
    mini-program's chart of a moment. */
module Sizhu {
  import opened JsRuntime
  import opened Civil
  import opened Ganzhi
  import Shengwang
  import Nayin

  /** The web app's SHICHEN_MAP: hour of the day to branch index. */
  const SrcShichen: map<int, int> := map[
    23 := 0, 0 := 0, 1 := 1, 2 := 1, 3 := 2, 4 := 2, 5 := 2, 6 := 3, 7 := 3,
    8 := 4, 9 := 4, 10 := 5, 11 := 5, 12 := 6, 13 := 6, 14 := 7, 15 := 7,
    16 := 8, 17 := 8, 18 := 9, 19 := 9, 20 := 10, 21 := 10, 22 := 11]

  /** The mini-program's SHICHEN_MAP. The literal repeats the odd hours 1..21,
      and the later value of a repeated key is the one kept. */
  const MiniShichen: map<int, int> := map[
    23 := 0, 0 := 0, 1 := 0,
    1 := 1, 2 := 1, 3 := 1,
    3 := 2, 4 := 2, 5 := 2,
    5 := 3, 6 := 3, 7 := 3,
    7 := 4, 8 := 4, 9 := 4,
    9 := 5, 10 := 5, 11 := 5,
    11 := 6, 12 := 6, 13 := 6,
    13 := 7, 14 := 7, 15 := 7,
    15 := 8, 16 := 8, 17 := 8,
    17 := 9, 18 := 9, 19 := 9,
    19 := 10, 20 := 10, 21 := 10,
    21 := 11, 22 := 11]

  /** The traditional double hour: 子 from 23:00 to 00:59, 丑 from 01:00 to
      02:59, and so on two hours at a time. */
  function DoubleHour(h: int): int
  {
    (h + 1) / 2 % 12
  }

  /** An hour table that gives every hour of the day a branch. */
  predicate ShichenTable(m: map<int, int>)
  {
    forall h :: 0 <= h < 24 ==> h in m && 0 <= m[h] < 12
  }

  /** Once its repeated keys are resolved, the mini-program's table is the
      traditional double hour. */
  lemma MiniShichenTraditional(h: int)
    requires 0 <= h < 24
    ensures h in MiniShichen && MiniShichen[h] == DoubleHour(h)
  {
    if h < 12 { MiniShichenAm(h); } else { MiniShichenPm(h); }
  }

  lemma MiniShichenAm(h: int)
    requires 0 <= h < 12
    ensures h in MiniShichen && MiniShichen[h] == DoubleHour(h)
  {
    if h == 0 { assert MiniShichen[0] == 0; }
    else if h == 1 { assert MiniShichen[1] == 1; }
    else if h == 2 { assert MiniShichen[2] == 1; }
    else if h == 3 { assert MiniShichen[3] == 2; }
    else if h == 4 { assert MiniShichen[4] == 2; }
    else if h == 5 { assert MiniShichen[5] == 3; }
    else if h == 6 { assert MiniShichen[6] == 3; }
    else if h == 7 { assert MiniShichen[7] == 4; }
    else if h == 8 { assert MiniShichen[8] == 4; }
    else if h == 9 { assert MiniShichen[9] == 5; }
    else if h == 10 { assert MiniShichen[10] == 5; }
    else { assert MiniShichen[11] == 6; }
  }

  lemma MiniShichenPm(h: int)
    requires 12 <= h < 24
    ensures h in MiniShichen && MiniShichen[h] == DoubleHour(h)
  {
    if h == 12 { assert MiniShichen[12] == 6; }
    else if h == 13 { assert MiniShichen[13] == 7; }
    else if h == 14 { assert MiniShichen[14] == 7; }
    else if h == 15 { assert MiniShichen[15] == 8; }
    else if h == 16 { assert MiniShichen[16] == 8; }
    else if h == 17 { assert MiniShichen[17] == 9; }
    else if h == 18 { assert MiniShichen[18] == 9; }
    else if h == 19 { assert MiniShichen[19] == 10; }
    else if h == 20 { assert MiniShichen[20] == 10; }
    else if h == 21 { assert MiniShichen[21] == 11; }
    else if h == 22 { assert MiniShichen[22] == 11; }
    else { assert MiniShichen[23] == 0; }
  }

  /** The web app's table agrees with the double hour except at the odd hours
      5, 7, ..., 21, which it puts one branch early. */
  lemma SrcShichenEarly(h: int)
    requires 0 <= h < 24
    ensures h in SrcShichen
    ensures SrcShichen[h] == if h % 2 == 1 && 5 <= h <= 21 then DoubleHour(h) - 1 else DoubleHour(h)
  {
    if h < 12 { SrcShichenAm(h); } else { SrcShichenPm(h); }
  }

  lemma SrcShichenAm(h: int)
    requires 0 <= h < 12
    ensures h in SrcShichen && SrcShichen[h] == if h % 2 == 1 && 5 <= h <= 21 then DoubleHour(h) - 1 else DoubleHour(h)
  {
    if h == 0 { assert SrcShichen[0] == 0; }
    else if h == 1 { assert SrcShichen[1] == 1; }
    else if h == 2 { assert SrcShichen[2] == 1; }
    else if h == 3 { assert SrcShichen[3] == 2; }
    else if h == 4 { assert SrcShichen[4] == 2; }
    else if h == 5 { assert SrcShichen[5] == 2; }
    else if h == 6 { assert SrcShichen[6] == 3; }
    else if h == 7 { assert SrcShichen[7] == 3; }
    else if h == 8 { assert SrcShichen[8] == 4; }
    else if h == 9 { assert SrcShichen[9] == 4; }
    else if h == 10 { assert SrcShichen[10] == 5; }
    else { assert SrcShichen[11] == 5; }
  }

  lemma SrcShichenPm(h: int)
    requires 12 <= h < 24
    ensures h in SrcShichen && SrcShichen[h] == if h % 2 == 1 && 5 <= h <= 21 then DoubleHour(h) - 1 else DoubleHour(h)
  {
    if h == 12 { assert SrcShichen[12] == 6; }
    else if h == 13 { assert SrcShichen[13] == 6; }
    else if h == 14 { assert SrcShichen[14] == 7; }
    else if h == 15 { assert SrcShichen[15] == 7; }
    else if h == 16 { assert SrcShichen[16] == 8; }
    else if h == 17 { assert SrcShichen[17] == 8; }
    else if h == 18 { assert SrcShichen[18] == 9; }
    else if h == 19 { assert SrcShichen[19] == 9; }
    else if h == 20 { assert SrcShichen[20] == 10; }
    else if h == 21 { assert SrcShichen[21] == 10; }
    else if h == 22 { assert SrcShichen[22] == 11; }
    else { assert SrcShichen[23] == 0; }
  }

  lemma ShichenTables()
    ensures ShichenTable(SrcShichen) && ShichenTable(MiniShichen)
  {
    forall h | 0 <= h < 24
      ensures h in SrcShichen && 0 <= SrcShichen[h] < 12
      ensures h in MiniShichen && 0 <= MiniShichen[h] < 12
    {
      SrcShichenEarly(h);
      MiniShichenTraditional(h);
    }
  }

  /** MONTH_DIZHI: the branch index of each month, 亥 for the first. */
  const MonthDizhi: seq<int> := [11, 0, 1, 2, 3, 4, 5, 6, 7, 8, 9, 10]

  /** `getYearGanZhi`: the pillar `year - 1984` steps from 甲子, each remainder
      brought into range with `(r % b + b) % b`. */
  function YearGanZhi(year: int): (p: Pillar)
    ensures p == FromOrdinal(year - 1984)
  {
    var yearDiff := year - 1984;
    RemNormalised(yearDiff, 10);
    RemNormalised(yearDiff, 12);
    Pillar((Rem(yearDiff, 10) + 10) % 10, (Rem(yearDiff, 12) + 12) % 12)
  }

  /** 1984 is a 甲子 year, the pillar repeats every sixty years, and its stem
      and branch always have the same parity. */
  lemma YearGanZhiCycle(year: int)
    ensures YearGanZhi(1984) == Pillar(0, 0) && Text(YearGanZhi(1984)) == "甲子"
    ensures YearGanZhi(year + 60) == YearGanZhi(year)
    ensures YearGanZhi(year).ParityValid()
  {
    FromOrdinalPeriodic(year - 1984);
  }

  /** The first month's stem for a year stem: 甲己之年丙作首, and so on round
      the five pairs of stems; 甲 for an index outside 0..9. */
  function MonthTianStart(yearTianNum: int): (s: int)
    ensures 0 <= yearTianNum < 10 ==> s == (2 * yearTianNum + 2) % 10
    ensures !(0 <= yearTianNum < 10) ==> s == 0
  {
    if yearTianNum == 0 || yearTianNum == 5 then 2
    else if yearTianNum == 1 || yearTianNum == 6 then 4
    else if yearTianNum == 2 || yearTianNum == 7 then 6
    else if yearTianNum == 3 || yearTianNum == 8 then 8
    else if yearTianNum == 4 || yearTianNum == 9 then 0
    else 0
  }

  /** `getMonthGanZhi` for a month 1..12: the branch from MONTH_DIZHI, the
      stem counted on from the year's first-month stem, which makes it
      `2 * yearStem + month + 1` round the ten stems. */
  function MonthGanZhi(year: int, month: int): (p: Pillar)
    requires 1 <= month <= 12
    ensures p.branch == MonthDizhi[month - 1] == (month + 10) % 12
    ensures p.stem == (2 * YearGanZhi(year).stem + month + 1) % 10
    ensures p.InRange()
  {
    var diIndex := MonthDizhi[month - 1];
    // TIANGAN.indexOf of the year stem's text: indexOf finds every stem
    // text at its own index (StemIndexOf), so this is the year stem.
    var yearTianNum := YearGanZhi(year).stem;
    MonthDizhiBranch(month);
    var start := MonthTianStart(yearTianNum);
    StartPlus(yearTianNum, start, month);
    Pillar((start + month - 1) % 10, diIndex)
  }

  /** The stem of month `month` in a year of stem `d`. */
  lemma StartPlus(d: int, start: int, month: int)
    requires 0 <= d < 10 && start == MonthTianStart(d)
    ensures (start + month - 1) % 10 == (2 * d + month + 1) % 10
  {
    var x := 2 * d + 2;
    SameRem10(start + month - 1, 2 * d + month + 1, -(x / 10));
  }

  /** Numbers that differ by a multiple of ten leave the same remainder. */
  lemma SameRem10(a: int, b: int, k: int)
    requires a == b + 10 * k
    ensures a % 10 == b % 10
  {
    ModShift10(b, k);
  }

  /** MONTH_DIZHI puts month `m` at branch `m + 10`, three branches behind
      the traditional 寅 for the first month. */
  lemma MonthDizhiBranch(month: int)
    requires 1 <= month <= 12
    ensures MonthDizhi[month - 1] == (month + 10) % 12
  {
    if month == 1 {
    } else {
      assert MonthDizhi[1..] == seq(11, i => i);
      assert MonthDizhi[month - 1] == MonthDizhi[1..][month - 2];
    }
  }

  /** The month pillar never occurs in the sixty-pillar cycle: its stem has
      the parity of `month - 1` and its branch the parity of `month`. */
  lemma MonthGanZhiParity(year: int, month: int)
    requires 1 <= month <= 12
    ensures MonthGanZhi(year, month).stem % 2 == (month - 1) % 2
    ensures MonthGanZhi(year, month).branch % 2 == month % 2
    ensures !MonthGanZhi(year, month).ParityValid()
  {
    var ys := YearGanZhi(year).stem;
    ModParity(2 * ys + month + 1);
    SameRem2(2 * ys + month + 1, month - 1, ys + 1);
    ModParity(month + 10);
    SameRem2(month + 10, month, 5);
  }

  /** Taking a remainder by 10 or by 12 keeps the parity. */
  lemma ModParity(x: int)
    ensures x % 10 % 2 == x % 2 && x % 12 % 2 == x % 2
  {
    var q, r := x / 10, x % 10;
    assert x == r + 2 * (5 * q);
    ModShift2(r, 5 * q);
    var q', r' := x / 12, x % 12;
    assert x == r' + 2 * (6 * q');
    ModShift2(r', 6 * q');
  }

  lemma ModShift2(x: int, k: int)
    ensures (x + 2 * k) % 2 == x % 2
  {
    var q, r := x / 2, x % 2;
    assert x + 2 * k == 2 * (q + k) + r;
  }

  lemma SameRem2(a: int, b: int, k: int)
    requires a == b + 2 * k
    ensures a % 2 == b % 2
  {
    ModShift2(b, k);
  }

  /** `Math.floor((date - new Date(1900, 0, 1)) / 86400000)`: the calendar
      days from 1900-01-01 to the date. */
  function DaysSince1900(t: DateTime): (n: int)
    requires t.Valid()
    ensures n == t.Day() - DayNumber(1900, 1, 1)
  {
    var base := Midnight(1900, 1, 1);
    FlooredDayDifference(t, base);
    (t.Instant() - base.Instant()) / 1440
  }

  /** `getDayGanZhi`: 1900-01-01 is 庚子 (stem 6, branch 0), and each day
      moves one step; a negative remainder is brought into range. */
  function DayGanZhi(t: DateTime): (p: Pillar)
    requires t.Valid()
    ensures p == FromOrdinal(DaysSince1900(t) + 36)
  {
    var daysDiff := DaysSince1900(t);
    var tianIndex := Rem(6 + daysDiff, 10);
    var diIndex := Rem(0 + daysDiff, 12);
    RemNormalised(6 + daysDiff, 10);
    RemNormalised(daysDiff, 12);
    ModShift10(6 + daysDiff, 3);
    ModShift12(daysDiff, 3);
    Pillar((tianIndex + 10) % 10, (diIndex + 12) % 12)
  }

  /** 1900-01-01 is a 庚子 day. */
  lemma DayGanZhiBase(t: DateTime)
    requires t.Valid() && t.year == 1900 && t.month == 1 && t.day == 1
    ensures DayGanZhi(t) == Pillar(6, 0) && Text(DayGanZhi(t)) == "庚子"
  {
  }

  /** The next day's pillar is one step on round the cycle, the pillar
      repeats every sixty days, and it is always parity-valid. */
  lemma DayGanZhiStep(t: DateTime, u: DateTime)
    requires t.Valid() && u.Valid()
    ensures u.Day() == t.Day() + 1 ==> DayGanZhi(u) == Shift(DayGanZhi(t), 1)
    ensures u.Day() == t.Day() + 60 ==> DayGanZhi(u) == DayGanZhi(t)
    ensures DayGanZhi(t).ParityValid()
  {
    var n := DaysSince1900(t);
    if u.Day() == t.Day() + 1 {
      ShiftFromOrdinal(n + 36, 1);
      assert DaysSince1900(u) + 36 == n + 36 + 1;
    }
    if u.Day() == t.Day() + 60 {
      FromOrdinalPeriodic(n + 36);
      assert DaysSince1900(u) + 36 == n + 36 + 60;
    }
  }

  /** The first hour stem for a day stem: 甲己还加甲, and so on round the
      five pairs of stems; 甲 for an index outside 0..9. */
  function HourTianStart(dayTianIndex: int): (s: int)
    ensures 0 <= dayTianIndex < 10 ==> s == 2 * dayTianIndex % 10
    ensures !(0 <= dayTianIndex < 10) ==> s == 0
  {
    if dayTianIndex == 0 || dayTianIndex == 5 then 0
    else if dayTianIndex == 1 || dayTianIndex == 6 then 2
    else if dayTianIndex == 2 || dayTianIndex == 7 then 4
    else if dayTianIndex == 3 || dayTianIndex == 8 then 6
    else if dayTianIndex == 4 || dayTianIndex == 9 then 8
    else 0
  }

  /** The branch the hour loop holds after looking at the hours below `n`:
      the entry of the last key at or before `hour`, 0 if there is none. */
  function ScanShichen(m: map<int, int>, hour: int, n: nat): int
  {
    if n == 0 then 0
    else if n - 1 in m && n - 1 <= hour then m[n - 1]
    else ScanShichen(m, hour, n - 1)
  }

  /** In a table with every hour as a key, the loop ends on the hour's own
      entry. */
  lemma {:induction false} ScanShichenHour(m: map<int, int>, hour: int, n: nat)
    requires ShichenTable(m) && 0 <= hour < n <= 24
    ensures ScanShichen(m, hour, n) == m[hour]
  {
    if n - 1 > hour {
      ScanShichenHour(m, hour, n - 1);
    }
  }

  /** `getHourGanZhi` with the hour table of the file: the branch is the
      table's entry for the hour, the stem is five-rat counting from the day
      stem, and the pillar is in the sixty-pillar cycle. */
  method HourGanZhi(t: DateTime, shichen: map<int, int>) returns (p: Pillar)
    requires t.Valid() && ShichenTable(shichen)
    ensures p.branch == shichen[t.hour]
    ensures p.stem == (2 * DayGanZhi(t).stem + p.branch) % 10
    ensures p.ParityValid()
  {
    var hour := t.hour;
    var diIndex := 0;
    var h := 0;
    while h <= 23
      invariant 0 <= h <= 24
      invariant diIndex == ScanShichen(shichen, hour, h)
    {
      if h in shichen && h <= hour {
        diIndex := shichen[h];
      }
      h := h + 1;
    }
    ScanShichenHour(shichen, hour, 24);
    // TIANGAN.indexOf of the day stem's text is the day stem (StemIndexOf).
    var dayTianIndex := DayGanZhi(t).stem;
    var hourTianStart := HourTianStart(dayTianIndex);
    HourStart(dayTianIndex, hourTianStart, diIndex);
    var tianIndex := (hourTianStart + diIndex) % 10;
    p := Pillar(tianIndex, diIndex);
  }

  /** Counting the hour branch on from the first hour stem of day stem `d`;
      the result has the branch's parity. */
  lemma HourStart(d: int, start: int, b: int)
    requires 0 <= d < 10 && start == HourTianStart(d)
    ensures (start + b) % 10 == (2 * d + b) % 10
    ensures (start + b) % 10 % 2 == b % 2
  {
    var x := 2 * d;
    SameRem10(start + b, 2 * d + b, -(x / 10));
    ModParity(2 * d + b);
    SameRem2(2 * d + b, b, d);
  }

  /** A pillar as two texts, the `{ tian, di }` objects of the source. */
  datatype GanZhiText = GanZhiText(tian: string, di: string)

  function TextOf(p: Pillar): (g: GanZhiText)
    requires p.InRange()
    ensures g.tian + g.di == Text(p)
  {
    GanZhiText(Gan(p.stem), Zhi(p.branch))
  }

  /** String.prototype.charAt: the one-character string at `i`, or "". */
  function CharAt(s: string, i: nat): (r: string)
    ensures i < |s| ==> r == [s[i]]
    ensures i >= |s| ==> r == ""
  {
    if i < |s| then [s[i]] else ""
  }

  /** `parseGanZhi` without its nayin: the first two characters. */
  function Parse(ganZhi: string): GanZhiText
  {
    GanZhiText(CharAt(ganZhi, 0), CharAt(ganZhi, 1))
  }

  /** Parsing the text of a pillar gives back its stem and branch. */
  lemma ParseText(p: Pillar)
    requires p.InRange()
    ensures Parse(Text(p)) == TextOf(p)
  {
  }

  /** One pillar of a chart: its texts, nayin, life stage and level. */
  datatype PillarInfo = PillarInfo(tian: string, di: string, nayin: string, shengwang: string, level: Shengwang.Level)
  datatype Chart = Chart(year: PillarInfo, month: PillarInfo, day: PillarInfo, hour: PillarInfo)

  function Entry(g: GanZhiText, nayinOf: (string, string) -> string, s: Shengwang.StateLevel): PillarInfo
  {
    PillarInfo(g.tian, g.di, nayinOf(g.tian, g.di), s.state, s.level)
  }

  /** The chart of four pillars: each keeps its texts, gets its nayin, and has
      its stem measured against the month branch in the life-stage table. */
  function Assemble(table: Shengwang.Table, nayinOf: (string, string) -> string,
                    year: GanZhiText, month: GanZhiText, day: GanZhiText, hour: GanZhiText): (c: Chart)
    ensures c.year.nayin == nayinOf(year.tian, year.di) && c.hour.nayin == nayinOf(hour.tian, hour.di)
    ensures c.month.nayin == nayinOf(month.tian, month.di) && c.day.nayin == nayinOf(day.tian, day.di)
    ensures c.year.shengwang == Shengwang.StateIn(table, year.tian, month.di)
    ensures c.month.shengwang == Shengwang.StateIn(table, month.tian, month.di)
    ensures c.day.shengwang == Shengwang.StateIn(table, day.tian, month.di)
    ensures c.hour.shengwang == Shengwang.StateIn(table, hour.tian, month.di)
    ensures c.year.level == Shengwang.LevelOf(c.year.shengwang) && c.month.level == Shengwang.LevelOf(c.month.shengwang)
    ensures c.day.level == Shengwang.LevelOf(c.day.shengwang) && c.hour.level == Shengwang.LevelOf(c.hour.shengwang)
  {
    var s := Shengwang.SizhuStates(table, year.tian, month.tian, day.tian, hour.tian, month.di);
    Chart(Entry(year, nayinOf, s.year), Entry(month, nayinOf, s.month),
          Entry(day, nayinOf, s.day), Entry(hour, nayinOf, s.hour))
  }

  /** What `calculateSizhuWithLunar` returns: the web app's `birthYear`
      (absent in the mini-program's result), the chart, and the caller's
      `lunarInfo` handed back untouched. */
  datatype LunarChart<L> = LunarChart(birthYear: Option<int>, pillars: Chart, lunarInfo: Option<L>)

  /** `calculateSizhuWithLunar` on the four pillar texts the calendar library
      gives, with the life-stage table and the nayin lookup of the app.
      `clockYear` is `new Date().getFullYear()` in the web app and absent in
      the mini-program; `lunarInfo` is the optional last argument. */
  function CalculateSizhuWithLunar<L>(table: Shengwang.Table, nayinOf: (string, string) -> string, clockYear: Option<int>,
                                      yearGanZhi: string, monthGanZhi: string, dayGanZhi: string, hourGanZhi: string,
                                      lunarInfo: Option<L>): (r: LunarChart<L>)
    ensures r.birthYear == clockYear && r.lunarInfo == lunarInfo
    ensures r.pillars == Assemble(table, nayinOf, Parse(yearGanZhi), Parse(monthGanZhi), Parse(dayGanZhi), Parse(hourGanZhi))
    ensures r.pillars.year.tian == CharAt(yearGanZhi, 0) && r.pillars.year.di == CharAt(yearGanZhi, 1)
    ensures r.pillars.month.tian == CharAt(monthGanZhi, 0) && r.pillars.month.di == CharAt(monthGanZhi, 1)
    ensures r.pillars.day.tian == CharAt(dayGanZhi, 0) && r.pillars.day.di == CharAt(dayGanZhi, 1)
    ensures r.pillars.hour.tian == CharAt(hourGanZhi, 0) && r.pillars.hour.di == CharAt(hourGanZhi, 1)
  {
    LunarChart(clockYear, Assemble(table, nayinOf, Parse(yearGanZhi), Parse(monthGanZhi), Parse(dayGanZhi), Parse(hourGanZhi)),
               lunarInfo)
  }

  /** With a month text whose second character is not a branch, every pillar
      is at stage 未知, level weak. */
  lemma WithLunarUnknownMonth<L>(table: Shengwang.Table, nayinOf: (string, string) -> string, clockYear: Option<int>,
                                 yearGanZhi: string, monthGanZhi: string, dayGanZhi: string, hourGanZhi: string,
                                 lunarInfo: Option<L>)
    requires !IsBranch(CharAt(monthGanZhi, 1))
    ensures var c := CalculateSizhuWithLunar(table, nayinOf, clockYear, yearGanZhi, monthGanZhi, dayGanZhi, hourGanZhi, lunarInfo).pillars;
      c.year.shengwang == c.month.shengwang == c.day.shengwang == c.hour.shengwang == Shengwang.Unknown
      && c.year.level == c.month.level == c.day.level == c.hour.level == Shengwang.Weak
  {
    Shengwang.SizhuStatesMonthBranch(table, CharAt(yearGanZhi, 0), CharAt(monthGanZhi, 0),
                                     CharAt(dayGanZhi, 0), CharAt(hourGanZhi, 0), CharAt(monthGanZhi, 1));
  }

  /** The hour pillar of the mini-program: the double hour's branch with its
      five-rat stem, counted from 甲, 丙, 戊, 庚 or 壬 as the day stem is
      甲己, 乙庚, 丙辛, 丁壬 or 戊癸. */
  function MiniHourPillar(t: DateTime): (p: Pillar)
    requires t.Valid()
    ensures p.branch == DoubleHour(t.hour)
    ensures p.stem == (2 * (DayGanZhi(t).stem % 5) + p.branch) % 10
    ensures p.ParityValid()
  {
    var b := DoubleHour(t.hour);
    var d := DayGanZhi(t).stem;
    ModParity(2 * d + b);
    SameRem2(2 * d + b, b, d);
    FiveRatStart(d, b);
    Pillar((2 * d + b) % 10, b)
  }

  /** Twice the day stem, modulo ten, depends only on the stem modulo five. */
  lemma FiveRatStart(d: int, b: int)
    requires 0 <= d < 10
    ensures (2 * d + b) % 10 == (2 * (d % 5) + b) % 10
  {
    if d >= 5 {
      assert 2 * d + b == (2 * (d % 5) + b) + 10;
    }
  }

  /** A pillar of a chart has a named nayin and a named life stage. */
  predicate Known(e: PillarInfo)
  {
    e.nayin != Nayin.Unknown && e.shengwang in Shengwang.States
  }

  /** The mini-program's `calculateSizhu`: the four pillars of the moment by
      the civil-calendar formulas, each with its nayin and its life stage
      against the month branch in the mini-program's table. It is the chart
      `calculateSizhuWithLunar` builds from those four pillars' texts, and
      every entry is named. */
  method CalculateSizhu(t: DateTime) returns (c: Chart)
    requires t.Valid()
    ensures c == CalculateSizhuWithLunar<int>(Shengwang.MiniTable, Nayin.GetNayin, None,
                   Text(YearGanZhi(t.year)), Text(MonthGanZhi(t.year, t.month)),
                   Text(DayGanZhi(t)), Text(MiniHourPillar(t)), None).pillars
    ensures Known(c.year) && Known(c.month) && Known(c.day) && Known(c.hour)
  {
    var year := YearGanZhi(t.year);
    var month := MonthGanZhi(t.year, t.month);
    var day := DayGanZhi(t);
    ShichenTables();
    var hour := HourGanZhi(t, MiniShichen);
    MiniShichenTraditional(t.hour);
    assert hour == MiniHourPillar(t);
    c := Assemble(Shengwang.MiniTable, Nayin.GetNayin, TextOf(year), TextOf(month), TextOf(day), TextOf(hour));
    ParseText(year);
    ParseText(month);
    ParseText(day);
    ParseText(hour);
    ChartKnown(year, month, day, hour);
  }

  /** With the mini-program's tables, pillars in range get named nayins and
      named stages once the month branch is a branch. */
  lemma ChartKnown(year: Pillar, month: Pillar, day: Pillar, hour: Pillar)
    requires year.InRange() && month.InRange() && day.InRange() && hour.InRange()
    ensures var c := Assemble(Shengwang.MiniTable, Nayin.GetNayin, TextOf(year), TextOf(month), TextOf(day), TextOf(hour));
      Known(c.year) && Known(c.month) && Known(c.day) && Known(c.hour)
  {
    Shengwang.MiniTableShaped();
    PillarKnown(year, month.branch);
    PillarKnown(month, month.branch);
    PillarKnown(day, month.branch);
    PillarKnown(hour, month.branch);
  }

  lemma PillarKnown(p: Pillar, monthBranch: int)
    requires p.InRange() && 0 <= monthBranch < 12 && Shengwang.Shaped(Shengwang.MiniTable)
    ensures Nayin.GetNayin(Gan(p.stem), Zhi(p.branch)) != Nayin.Unknown
    ensures Shengwang.StateIn(Shengwang.MiniTable, Gan(p.stem), Zhi(monthBranch)) in Shengwang.States
  {
    StemIndexOf(p.stem);
    BranchIndexOf(p.branch);
    Shengwang.StateInKnown(Shengwang.MiniTable, p.stem, monthBranch);
  }
}
