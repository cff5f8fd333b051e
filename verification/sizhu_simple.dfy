/** The mini-program's stand-alone calculator, sizhu-simple.js: the four
    pillars from the civil date alone, built as `{ tian, di }` pairs of array
    elements and joined into text, with a fixed chart when the computation
    throws. Nothing here checks its arguments, so an index can fall outside
    the arrays; the model keeps the resulting `undefined`. */
module SimpleSizhu {
  import opened JsRuntime
  import opened Civil
  import opened Ganzhi
  import Sizhu

  /** An element read from the TIANGAN or DIZHI array: a one-character
      string, or `undefined` for an index outside the array. */
  datatype Slot = Char(s: string) | Undefined

  /** `TIANGAN[i]`. */
  function StemAt(i: int): Slot
  {
    if 0 <= i < 10 then Char(Gan(i)) else Undefined
  }

  /** `DIZHI[i]`. */
  function BranchAt(i: int): Slot
  {
    if 0 <= i < 12 then Char(Zhi(i)) else Undefined
  }

  /** `TIANGAN.indexOf(v)`: -1 for `undefined` and for anything else that is
      not a stem. */
  function IndexOfStem(v: Slot): int
  {
    match v
    case Char(s) => StemIndex(s)
    case Undefined => -1
  }

  /** The value of `tian + di`. */
  datatype JsValue = Str(text: string) | NaN

  /** `a + b` on two array elements: `undefined` beside a string reads as
      the text "undefined", and two `undefined`s add up to NaN. */
  function Concat(a: Slot, b: Slot): JsValue
  {
    match (a, b)
    case (Char(x), Char(y)) => Str(x + y)
    case (Undefined, Char(y)) => Str("undefined" + y)
    case (Char(x), Undefined) => Str(x + "undefined")
    case (Undefined, Undefined) => NaN
  }

  /** A pillar as the calculator builds it. */
  datatype SlotPillar = SlotPillar(tian: Slot, di: Slot)

  /** The two array elements of an in-range pillar. */
  function Spelled(p: Pillar): SlotPillar
    requires p.InRange()
  {
    SlotPillar(Char(Gan(p.stem)), Char(Zhi(p.branch)))
  }

  /** Joining the elements of an in-range pillar gives its two-character
      text. */
  lemma SpelledText(p: Pillar)
    requires p.InRange()
    ensures Concat(Spelled(p).tian, Spelled(p).di) == Str(Text(p))
  {
  }

  /** indexOf finds the stem of a spelled pillar at the pillar's stem index. */
  lemma IndexOfSpelled(p: Pillar)
    requires p.InRange()
    ensures IndexOfStem(Spelled(p).tian) == p.stem
  {
    StemIndexOf(p.stem);
  }

  /** Taking the remainder by 60 first does not change the remainder by 10
      or 12, since both divide 60. */
  lemma RemOfRem60(a: int, b: int)
    requires b == 10 || b == 12
    ensures Rem(Rem(a, 60) + 0, b) == Rem(a, b)
  {
    var x := if a >= 0 then a else -a;
    var q, r := x / 60, x % 60;
    assert x == r + b * ((60 / b) * q);
    if b == 10 {
      ModShift10(r, 6 * q);
    } else {
      ModShift12(r, 5 * q);
    }
  }

  /** `getYearPillar`: counted from 甲子 in 1984, through a remainder by 60
      and then by 10 and 12, a negative remainder brought into range. */
  function YearPillar(year: int): (r: SlotPillar)
    ensures r == Spelled(FromOrdinal(year - 1984))
  {
    var offset := Rem(year - 1984, 60);
    var tianganIndex := Rem(offset + 0, 10);
    var dizhiIndex := Rem(offset + 0, 12);
    RemOfRem60(year - 1984, 10);
    RemOfRem60(year - 1984, 12);
    RemNormalised(year - 1984, 10);
    RemNormalised(year - 1984, 12);
    SlotPillar(StemAt(if tianganIndex < 0 then tianganIndex + 10 else tianganIndex),
               BranchAt(if dizhiIndex < 0 then dizhiIndex + 12 else dizhiIndex))
  }

  /** The extra remainder by 60 changes nothing: the calculator's year
      pillar is the web app's, and 1984 is 甲子. */
  lemma YearPillarAgrees(year: int)
    ensures YearPillar(year) == Spelled(Sizhu.YearGanZhi(year))
    ensures year == 1984 ==> Concat(YearPillar(year).tian, YearPillar(year).di) == Str("甲子")
  {
    if year == 1984 {
      SpelledText(Pillar(0, 0));
      Sizhu.YearGanZhiCycle(1984);
    }
  }

  /** The month pillar the calculator means for a year stem `ys`: stem
      2 ys + month - 1 and branch month + 1, both taken round the cycle. */
  function SimpleMonth(ys: int, month: int): Pillar
  {
    Pillar((ys * 2 + month - 1) % 10, (month + 1) % 12)
  }

  /** Unlike the web app's month pillar, this one always has matching stem
      and branch parity: both are the parity of month + 1. */
  lemma SimpleMonthParity(ys: int, month: int)
    ensures SimpleMonth(ys, month).ParityValid()
  {
    Sizhu.ModParity(ys * 2 + month - 1);
    Sizhu.ModParity(month + 1);
    Sizhu.SameRem2(ys * 2 + month - 1, month + 1, ys - 1);
  }

  /** The body of `getMonthPillar` once the year stem index is known: plain
      remainders with no normalisation, so a month below -1 reads past the
      start of DIZHI. */
  function MonthFrom(yearTianganIndex: int, month: int): (r: SlotPillar)
    ensures 0 <= yearTianganIndex && 1 <= month ==> r == Spelled(SimpleMonth(yearTianganIndex, month))
    ensures month < -1 && (month + 1) % 12 != 0 ==> r.di == Undefined
  {
    var monthTianganIndex := Rem(yearTianganIndex * 2 + month - 1, 10);
    var monthDizhiIndex := Rem(month + 1, 12);
    SlotPillar(StemAt(monthTianganIndex), BranchAt(monthDizhiIndex))
  }

  /** `getMonthPillar`: the year stem found again with indexOf in the year
      pillar. */
  function MonthPillar(year: int, month: int): (r: SlotPillar)
    ensures r == MonthFrom((year - 1984) % 10, month)
  {
    var yearTianganIndex := IndexOfStem(YearPillar(year).tian);
    IndexOfSpelled(FromOrdinal(year - 1984));
    MonthFrom(yearTianganIndex, month)
  }

  /** From the first month on, the month pillar is SimpleMonth of the year
      stem. */
  lemma MonthPillarSpelled(year: int, month: int)
    requires 1 <= month
    ensures MonthPillar(year, month) == Spelled(SimpleMonth((year - 1984) % 10, month))
  {
  }

  /** Whole days from 1900-01-01 to `new Date(year, month - 1, day)`. Both
      dates are midnights, so the floor of their difference in days is
      exact. */
  function DaysSince1900(year: int, month: int, day: int): int
  {
    ConstructorDay(year, month - 1, day) - ConstructorDay(1900, 0, 1)
  }

  /** For a real date the count is the web app's day count, except in the
      years 0..99, which the Date constructor moves to 1900..1999. */
  lemma DaysSince1900Agrees(t: DateTime)
    requires t.Valid()
    ensures !(0 <= t.year <= 99) ==>
              DaysSince1900(t.year, t.month, t.day) == Sizhu.DaysSince1900(t)
    ensures DaysSince1900(t.year, t.month, t.day)
            == DayNumber(ConstructorYear(t.year), t.month, t.day) - DayNumber(1900, 1, 1)
  {
    ConstructorDayValid(t.year, t.month, t.day);
    ConstructorDayValid(1900, 1, 1);
    assert ConstructorYear(1900) == 1900;
    if !(0 <= t.year <= 99) {
      assert ConstructorYear(t.year) == t.year;
      assert DayNumber(t.year, t.month, t.day) == t.Day();
    }
  }

  /** From ten days before 1900 on, the calculator counts days as the web
      app does. */
  lemma RecentDayCount(t: DateTime)
    requires t.Valid() && Sizhu.DaysSince1900(t) + 10 >= 0
    ensures DaysSince1900(t.year, t.month, t.day) == Sizhu.DaysSince1900(t)
  {
    RecentYearKept(t);
    DaysSince1900Agrees(t);
  }

  /** A real date no more than ten days before 1900 lies after the years
      0..99, so the Date constructor keeps its year. */
  lemma RecentYearKept(t: DateTime)
    requires t.Valid() && Sizhu.DaysSince1900(t) + 10 >= 0
    ensures ConstructorYear(t.year) == t.year
  {
    if 0 <= t.year <= 99 {
      YearBounds(t.year, t.month, t.day);
      YearStartOrder(t.year, 100);
      assert false;
    }
  }

  /** `getDayPillar`: stem and branch both counted from `n + 10`, without
      normalisation, so more than ten days before 1900 the stem index goes
      negative and reads `undefined`. */
  function DayPillar(year: int, month: int, day: int): (r: SlotPillar)
    ensures var n := DaysSince1900(year, month, day);
      n + 10 >= 0 ==> r == Spelled(FromOrdinal(n + 10))
    ensures var n := DaysSince1900(year, month, day);
      n + 10 < 0 && (n + 10) % 10 != 0 ==> r.tian == Undefined
  {
    DayFrom(DaysSince1900(year, month, day))
  }

  /** The body of `getDayPillar` once the day count `daysSince1900` is
      known. */
  function DayFrom(daysSince1900: int): (r: SlotPillar)
    ensures daysSince1900 + 10 >= 0 ==> r == Spelled(FromOrdinal(daysSince1900 + 10))
    ensures daysSince1900 + 10 < 0 && (daysSince1900 + 10) % 10 != 0 ==> r.tian == Undefined
  {
    var tianganIndex := Rem(daysSince1900 + 10, 10);
    var dizhiIndex := Rem(daysSince1900 + 10, 12);
    NegativeRem10(daysSince1900 + 10);
    SlotPillar(StemAt(tianganIndex), BranchAt(dizhiIndex))
  }

  /** JavaScript's `%` leaves a negative non-multiple of ten negative. */
  lemma NegativeRem10(a: int)
    ensures a < 0 && a % 10 != 0 ==> Rem(a, 10) < 0
  {
    if a < 0 {
      var q, r := (-a) / 10, (-a) % 10;
      assert a == 10 * (-q) - r;
    }
  }

  /** 1900-01-01 is 甲戌 here (stem 0, branch 10). */
  lemma DayPillarBase()
    ensures DayPillar(1900, 1, 1) == Spelled(Pillar(0, 10))
    ensures Concat(DayPillar(1900, 1, 1).tian, DayPillar(1900, 1, 1).di) == Str("甲戌")
  {
    var n := DaysSince1900(1900, 1, 1);
    assert n == 0;
    assert FromOrdinal(n + 10) == Pillar(0, 10);
    SpelledText(Pillar(0, 10));
  }

  /** For real dates from 1899-12-22 on, the calculator's day pillar is the
      web app's (which starts from 庚子) moved 26 steps back, a different
      pillar. */
  lemma DayPillarVsWebApp(t: DateTime)
    requires t.Valid() && Sizhu.DaysSince1900(t) + 10 >= 0
    ensures DayPillar(t.year, t.month, t.day) == Spelled(Shift(Sizhu.DayGanZhi(t), -26))
    ensures Shift(Sizhu.DayGanZhi(t), -26) != Sizhu.DayGanZhi(t)
  {
    DayPillarOfCount(t);
    WebAppShifted(t);
  }

  /** From ten days before 1900 on, the day pillar is the cycle pillar at
      the web app's day count plus ten. */
  lemma DayPillarOfCount(t: DateTime)
    requires t.Valid() && Sizhu.DaysSince1900(t) + 10 >= 0
    ensures DayPillar(t.year, t.month, t.day) == Spelled(FromOrdinal(Sizhu.DaysSince1900(t) + 10))
  {
    RecentDayCount(t);
  }

  /** The web app's day pillar moved 26 steps back is the cycle pillar at
      its day count plus ten, and a different pillar. */
  lemma WebAppShifted(t: DateTime)
    requires t.Valid()
    ensures Shift(Sizhu.DayGanZhi(t), -26) == FromOrdinal(Sizhu.DaysSince1900(t) + 10)
    ensures Shift(Sizhu.DayGanZhi(t), -26) != Sizhu.DayGanZhi(t)
  {
    var n := Sizhu.DaysSince1900(t);
    ShiftFromOrdinal(n + 36, -26);
    assert n + 36 + -26 == n + 10;
    ShiftMoves(Sizhu.DayGanZhi(t).stem);
  }

  /** Moving 26 steps changes the stem. */
  lemma ShiftMoves(stem: int)
    requires 0 <= stem < 10
    ensures (stem + -26) % 10 != stem
  {
    ModShift10(stem + 4, -3);
  }

  /** `SHICHEN_MAP[hour] || 0`. The calculator's table is the web app's,
      key for key; an hour outside the table gives 0 (子). */
  function ShichenIndex(hour: int): (i: int)
    ensures 0 <= i < 12
    ensures 0 <= hour < 24 ==> i == Sizhu.SrcShichen[hour]
    ensures !(0 <= hour < 24) ==> i == 0
  {
    Sizhu.ShichenTables();
    if hour in Sizhu.SrcShichen then Sizhu.SrcShichen[hour] else 0
  }

  /** The body of `getHourPillar` once the day stem index is known: the
      branch from the hour table, the stem counted on from twice the day
      stem. */
  function HourFrom(hour: int, dayTianganIndex: int): (r: SlotPillar)
    ensures r.di == Char(Zhi(ShichenIndex(hour)))
    ensures 0 <= dayTianganIndex < 10 ==> r == Spelled(SimpleHour(dayTianganIndex, ShichenIndex(hour)))
    ensures dayTianganIndex == -1 ==> (r.tian == Undefined <==> ShichenIndex(hour) < 2)
  {
    var shichenIndex := ShichenIndex(hour);
    var hourTianganIndex := Rem(dayTianganIndex * 2 + shichenIndex, 10);
    SlotPillar(StemAt(hourTianganIndex), BranchAt(shichenIndex))
  }

  /** `getHourPillar`: the day stem found again with indexOf; a day stem
      that is `undefined` counts as index -1. */
  function HourPillar(hour: int, dayTiangan: Slot): (r: SlotPillar)
    ensures r == HourFrom(hour, IndexOfStem(dayTiangan))
  {
    var dayTianganIndex := IndexOfStem(dayTiangan);
    HourFrom(hour, dayTianganIndex)
  }

  /** The hour pillar the calculator means for a day stem `ds` and an hour's
      branch `b`. */
  function SimpleHour(ds: int, b: int): Pillar
  {
    Pillar((ds * 2 + b) % 10, b)
  }

  /** Given a day stem, the hour pillar is the five-rat rule's pillar. */
  lemma HourPillarOfStem(hour: int, d: int)
    requires 0 <= d < 10
    ensures HourPillar(hour, Char(Gan(d))) == Spelled(SimpleHour(d, ShichenIndex(hour)))
  {
    StemIndexOf(d);
  }

  /** Stem and branch parity of the hour pillar match for every day stem
      and hour. */
  lemma SimpleHourParity(d: int, hour: int)
    ensures SimpleHour(d, ShichenIndex(hour)).ParityValid()
  {
    var b := ShichenIndex(hour);
    Sizhu.ModParity(d * 2 + b);
    Sizhu.SameRem2(d * 2 + b, b, d);
  }

  /** The chart the calculator returns: four pillar texts and two captions. */
  datatype SimpleChart = SimpleChart(year: JsValue, month: JsValue, day: JsValue, hour: JsValue,
                                     solarDate: string, lunarDate: string)

  /** The chart returned from the `catch` branch. */
  const Fallback: SimpleChart :=
    SimpleChart(Str("甲子"), Str("乙丑"), Str("丙寅"), Str("丁卯"), "计算错误", "计算错误")

  /** `calculateSizhu`. The only call that can throw is `minute.toString()`,
      which does so when no minute is given (None). */
  function CalculateSizhu(year: int, month: int, day: int, hour: int, minute: Option<int>): (c: SimpleChart)
    ensures minute.None? <==> c == Fallback
    ensures minute.Some? ==> c.lunarDate == "公历计算"
  {
    if minute.None? then Fallback
    else
      var yearPillar := YearPillar(year);
      var monthPillar := MonthPillar(year, month);
      var dayPillar := DayPillar(year, month, day);
      var hourPillar := HourPillar(hour, dayPillar.tian);
      var c := SimpleChart(
        Concat(yearPillar.tian, yearPillar.di),
        Concat(monthPillar.tian, monthPillar.di),
        Concat(dayPillar.tian, dayPillar.di),
        Concat(hourPillar.tian, hourPillar.di),
        IntToString(year) + "年" + IntToString(month) + "月" + IntToString(day) + "日 "
          + IntToString(hour) + ":" + PadStart2(IntToString(minute.value)),
        "公历计算");
      assert c.lunarDate[0] != Fallback.lunarDate[0];
      c
  }

  /** For a month from 1 on, the year and month fields of the chart are
      two-character pillar texts: the year pillar from the sixty-pillar
      cycle, the month pillar from SimpleMonth. */
  lemma ChartYearMonth(year: int, month: int, day: int, hour: int, minute: int)
    requires 1 <= month
    ensures var c := CalculateSizhu(year, month, day, hour, Some(minute));
      && c.year == Str(Text(FromOrdinal(year - 1984)))
      && c.month == Str(Text(SimpleMonth((year - 1984) % 10, month)))
  {
    SpelledText(FromOrdinal(year - 1984));
    MonthPillarSpelled(year, month);
    SimpleMonthParity((year - 1984) % 10, month);
    SpelledText(SimpleMonth((year - 1984) % 10, month));
  }

  /** For a date from 1899-12-22 on, the day and hour fields of the chart
      are two-character pillar texts: the day pillar from the sixty-pillar
      cycle, the hour pillar from SimpleHour of the day stem. */
  lemma ChartDayHour(year: int, month: int, day: int, hour: int, minute: int)
    requires DaysSince1900(year, month, day) + 10 >= 0
    ensures var c := CalculateSizhu(year, month, day, hour, Some(minute));
      var n := DaysSince1900(year, month, day);
      && c.day == Str(Text(FromOrdinal(n + 10)))
      && c.hour == Str(Text(SimpleHour((n + 10) % 10, ShichenIndex(hour))))
  {
    var n := DaysSince1900(year, month, day);
    var dp := FromOrdinal(n + 10);
    SpelledText(dp);
    HourOfDay(year, month, day, hour);
    SimpleHourParity(dp.stem, hour);
    SpelledText(SimpleHour(dp.stem, ShichenIndex(hour)));
  }

  /** The hour pillar built from the day pillar's stem element. */
  lemma HourOfDay(year: int, month: int, day: int, hour: int)
    requires DaysSince1900(year, month, day) + 10 >= 0
    ensures HourPillar(hour, DayPillar(year, month, day).tian)
            == Spelled(SimpleHour(FromOrdinal(DaysSince1900(year, month, day) + 10).stem, ShichenIndex(hour)))
  {
    var dp := FromOrdinal(DaysSince1900(year, month, day) + 10);
    assert DayPillar(year, month, day).tian == Char(Gan(dp.stem));
    HourPillarOfStem(hour, dp.stem);
  }

  /** Every pillar of such a chart pairs stem and branch of equal parity. */
  lemma ChartParity(year: int, month: int, day: int, hour: int)
    requires 1 <= month && DaysSince1900(year, month, day) + 10 >= 0
    ensures FromOrdinal(year - 1984).ParityValid()
    ensures SimpleMonth((year - 1984) % 10, month).ParityValid()
    ensures FromOrdinal(DaysSince1900(year, month, day) + 10).ParityValid()
    ensures SimpleHour((DaysSince1900(year, month, day) + 10) % 10, ShichenIndex(hour)).ParityValid()
  {
    SimpleMonthParity((year - 1984) % 10, month);
    SimpleHourParity((DaysSince1900(year, month, day) + 10) % 10, hour);
  }
}
