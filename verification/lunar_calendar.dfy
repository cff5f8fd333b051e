/** The mini-program's table-driven Gregorian-to-lunar conversion,
    lunarCalendar.ts. Each year from 1900 to 2100 is one packed number:
    bits 15..4 say whether lunar months 1..12 have 30 days (else 29), the low
    four bits give the leap month (0 for none), and bit 16 says whether that
    leap month has 30 days. The accessors getLeapMonth, getLeapDays and
    getLunarMonthDays each read `LUNAR_INFO[year - 1900]` and then mask it;
    here the read is `Info(year)` and the accessors take the word it gives. */
module LunarCalendar {
  import opened JsRuntime
  import opened Civil

  /** LUNAR_INFO, for the years 1900..2100 in order. */
  const LunarInfo: seq<int> := [
    0x04bd8, 0x04ae0, 0x0a570, 0x054d5, 0x0d260, 0x0d950, 0x16554, 0x056a0, 0x09ad0, 0x055d2,
    0x04ae0, 0x0a5b6, 0x0a4d0, 0x0d250, 0x1d255, 0x0b540, 0x0d6a0, 0x0ada2, 0x095b0, 0x14977,
    0x04970, 0x0a4b0, 0x0b4b5, 0x06a50, 0x06d40, 0x1ab54, 0x02b60, 0x09570, 0x052f2, 0x04970,
    0x06566, 0x0d4a0, 0x0ea50, 0x06e95, 0x05ad0, 0x02b60, 0x186e3, 0x092e0, 0x1c8d7, 0x0c950,
    0x0d4a0, 0x1d8a6, 0x0b550, 0x056a0, 0x1a5b4, 0x025d0, 0x092d0, 0x0d2b2, 0x0a950, 0x0b557,
    0x06ca0, 0x0b550, 0x15355, 0x04da0, 0x0a5b0, 0x14573, 0x052b0, 0x0a9a8, 0x0e950, 0x06aa0,
    0x0aea6, 0x0ab50, 0x04b60, 0x0aae4, 0x0a570, 0x05260, 0x0f263, 0x0d950, 0x05b57, 0x056a0,
    0x096d0, 0x04dd5, 0x04ad0, 0x0a4d0, 0x0d4d4, 0x0d250, 0x0d558, 0x0b540, 0x0b6a0, 0x195a6,
    0x095b0, 0x049b0, 0x0a974, 0x0a4b0, 0x0b27a, 0x06a50, 0x06d40, 0x0af46, 0x0ab60, 0x09570,
    0x04af5, 0x04970, 0x064b0, 0x074a3, 0x0ea50, 0x06b58, 0x055c0, 0x0ab60, 0x096d5, 0x092e0,
    0x0c960, 0x0d954, 0x0d4a0, 0x0da50, 0x07552, 0x056a0, 0x0abb7, 0x025d0, 0x092d0, 0x0cab5,
    0x0a950, 0x0b4a0, 0x0baa4, 0x0ad50, 0x055d9, 0x04ba0, 0x0a5b0, 0x15176, 0x052b0, 0x0a930,
    0x07954, 0x06aa0, 0x0ad50, 0x05b52, 0x04b60, 0x0a6e6, 0x0a4e0, 0x0d260, 0x0ea65, 0x0d530,
    0x05aa0, 0x076a3, 0x096d0, 0x04afb, 0x04ad0, 0x0a4d0, 0x1d0b6, 0x0d250, 0x0d520, 0x0dd45,
    0x0b5a0, 0x056d0, 0x055b2, 0x049b0, 0x0a577, 0x0a4b0, 0x0aa50, 0x1b255, 0x06d20, 0x0ada0,
    0x14b63, 0x09370, 0x049f8, 0x04970, 0x064b0, 0x168a6, 0x0ea50, 0x06b20, 0x1a6c4, 0x0aae0,
    0x0a2e0, 0x0d2e3, 0x0c960, 0x0d557, 0x0d4a0, 0x0da50, 0x05d55, 0x056a0, 0x0a6d0, 0x055d4,
    0x052d0, 0x0a9b8, 0x0a950, 0x0b4a0, 0x0b6a6, 0x0ad50, 0x055a0, 0x0aba4, 0x0a5b0, 0x052b0,
    0x0b273, 0x06930, 0x07337, 0x06aa0, 0x0ad50, 0x14b55, 0x04b60, 0x0a570, 0x054e4, 0x0d160,
    0x0e968, 0x0d520, 0x0daa0, 0x16aa6, 0x056d0, 0x04ae0, 0x0a9d4, 0x0a2d0, 0x0d150, 0x0f252,
    0x0d520
  ]

  /** LUNAR_MONTH_NAMES. */
  const MonthNames: seq<string> := ["正月", "二月", "三月", "四月", "五月", "六月",
                                    "七月", "八月", "九月", "十月", "冬月", "腊月"]

  /** LUNAR_DAY_NAMES; entry 0 is empty. */
  const DayNames: seq<string> := [
    "", "初一", "初二", "初三", "初四", "初五", "初六", "初七", "初八", "初九", "初十",
    "十一", "十二", "十三", "十四", "十五", "十六", "十七", "十八", "十九", "二十",
    "廿一", "廿二", "廿三", "廿四", "廿五", "廿六", "廿七", "廿八", "廿九", "三十"]

  /** `LUNAR_INFO[year - 1900]` as the bit operations read it: outside the
      table the element is `undefined`, which `&` treats as 0. */
  function Info(year: int): int
  {
    if 0 <= year - 1900 < |LunarInfo| then LunarInfo[year - 1900] else 0
  }

  function Pow2(k: nat): (p: int)
    ensures p >= 1
  {
    if k == 0 then 1 else 2 * Pow2(k - 1)
  }

  /** Bit `k` of a non-negative number: `(x & (1 << k)) != 0`. */
  predicate Bit(x: int, k: nat)
  {
    (x / Pow2(k)) % 2 == 1
  }

  /** `getLeapMonth` of a year whose word is `info`: the low four bits. */
  function LeapMonth(info: int): (m: int)
    ensures 0 <= m < 16
  {
    info % 16
  }

  /** `getLeapDays`: 0 when there is no leap month, otherwise 29 or 30
      (see LeapDaysBit). */
  function LeapDays(info: int): (n: int)
    ensures n == 0 <==> LeapMonth(info) == 0
    ensures n == 0 || n == 29 || n == 30
  {
    if LeapMonth(info) != 0 then
      (if (info / 0x10000) % 2 == 1 then 30 else 29)
    else 0
  }

  /** A leap month has 30 days exactly when bit 16 is set. */
  lemma LeapDaysBit(info: int)
    ensures LeapDays(info) == 30 <==> LeapMonth(info) != 0 && Bit(info, 16)
  {
    Pow2Sixteen();
  }

  /** `getLunarMonthDays`: -1 outside months 1..12, otherwise 29 or 30 (see
      MonthDaysBit). */
  function MonthDays(info: int, month: int): (n: int)
    ensures !(1 <= month <= 12) <==> n == -1
    ensures 1 <= month <= 12 ==> n == 29 || n == 30
  {
    if month > 12 || month < 1 then -1
    else
      MaskIsBit(month);
      if (info / ShiftRight(0x10000, month)) % 2 == 1 then 30 else 29
  }

  /** Month `month` has 30 days exactly when bit `16 - month` is set. */
  lemma MonthDaysBit(info: int, month: int)
    requires 1 <= month <= 12
    ensures MonthDays(info, month) == 30 <==> Bit(info, 16 - month)
  {
    MaskIsBit(month);
  }

  /** `x >> n` for non-negative `x`. */
  function ShiftRight(x: int, n: nat): int
    requires 0 <= x
  {
    if n == 0 then x else ShiftRight(x / 2, n - 1)
  }

  lemma Pow2Sixteen()
    ensures Pow2(3) == 0x8 && Pow2(15) == 0x8000 && Pow2(16) == 0x10000
  {
    assert Pow2(1) == 2;
    assert Pow2(2) == 4;
    assert Pow2(3) == 8;
    assert Pow2(4) == 16;
    assert Pow2(5) == 32;
    assert Pow2(6) == 64;
    assert Pow2(7) == 128;
    assert Pow2(8) == 256;
    assert Pow2(9) == 512;
    assert Pow2(10) == 1024;
    assert Pow2(11) == 2048;
    assert Pow2(12) == 4096;
    assert Pow2(13) == 8192;
    assert Pow2(14) == 16384;
    assert Pow2(15) == 32768;
  }

  /** The mask `0x10000 >> month` is bit `16 - month`. */
  lemma MaskIsBit(month: int)
    requires 1 <= month <= 12
    ensures ShiftRight(0x10000, month) == Pow2(16 - month)
  {
    Pow2Sixteen();
    ShiftRightPow2(16, month);
  }

  /** Shifting bit `k` right by `n` leaves bit `k - n`. */
  lemma {:induction false} ShiftRightPow2(k: nat, n: nat)
    requires n <= k
    ensures ShiftRight(Pow2(k), n) == Pow2(k - n)
  {
    if n > 0 {
      assert Pow2(k) / 2 == Pow2(k - 1);
      ShiftRightPow2(k - 1, n - 1);
    }
  }

  /** The lengths of months 1..n of a year, leap month aside. */
  function MonthsTotal(info: int, n: nat): int
    requires n <= 12
  {
    if n == 0 then 0 else MonthsTotal(info, n - 1) + MonthDays(info, n)
  }

  /** The lunar year's length: its twelve months and its leap month. */
  function YearDays(info: int): int
  {
    MonthsTotal(info, 12) + LeapDays(info)
  }

  /** Twelve months of 29 or 30 days and a leap month of 0, 29 or 30 days
      make a year of 348 to 390 days. */
  lemma {:induction false} YearDaysRange(info: int)
    ensures 348 <= YearDays(info) <= 390
  {
    MonthsTotalRange(info, 12);
  }

  lemma {:induction false} MonthsTotalRange(info: int, n: nat)
    requires n <= 12
    ensures 29 * n <= MonthsTotal(info, n) <= 30 * n
  {
    if n > 0 {
      MonthsTotalRange(info, n - 1);
    }
  }

  lemma {:induction false} Pow2AboveEight(k: nat)
    requires k >= 3
    ensures k == 3 <==> Pow2(k) <= 8
  {
    if k > 4 {
      Pow2AboveEight(k - 1);
    } else {
      Pow2Sixteen();
    }
  }

  /** Month `16 - k` of the year adds 30 days when bit `k` is set. */
  lemma MonthsTotalStep(info: int, k: nat)
    requires 4 <= k <= 15
    ensures MonthsTotal(info, 16 - k)
            == MonthsTotal(info, 15 - k) + (if (info / Pow2(k)) % 2 == 1 then 30 else 29)
  {
    MonthDaysBit(info, 16 - k);
  }

  /** `getLunarYearDays`: 348 plus one for every set bit among bits 15..4
      (the mask halving from 0x8000 while it exceeds 0x8), plus the leap
      month's days. */
  method LunarYearDays(year: int) returns (sum: int)
    ensures sum == YearDays(Info(year))
  {
    var info := Info(year);
    Pow2Sixteen();
    sum := 348;
    var i := 0x8000;
    ghost var k := 15;
    while i > 0x8
      invariant 3 <= k <= 15 && i == Pow2(k) && (k == 3 <==> i <= 0x8)
      invariant sum == 348 - 29 * (15 - k) + MonthsTotal(info, 15 - k)
      decreases k
    {
      MonthsTotalStep(info, k);
      Pow2AboveEight(k - 1);
      if (info / i) % 2 == 1 {
        sum := sum + 1;
      }
      i := i / 2;
      k := k - 1;
    }
    sum := sum + LeapDays(info);
  }

  /** The days of the lunar years `from` .. `to - 1`. */
  function YearsDays(from: int, to: int): int
    decreases to - from
  {
    if to <= from then 0 else YearsDays(from, to - 1) + YearDays(Info(to - 1))
  }

  /** The result of `solarToLunarAccurate`. A month past the twelfth reads
      `LUNAR_MONTH_NAMES[12]`, which is `undefined`. */
  datatype LunarDate = LunarDate(year: int, month: int, day: int, isLeap: bool,
                                 monthName: Option<string>, dayName: string)

  /** `LUNAR_MONTH_NAMES[month - 1]`. */
  function MonthName(month: int): (r: Option<string>)
    ensures r.Some? <==> 1 <= month <= 12
    ensures 1 <= month <= 12 ==> r.value == MonthNames[month - 1]
  {
    if 1 <= month <= 12 then Some(MonthNames[month - 1]) else None
  }

  /** `LUNAR_DAY_NAMES[day] || day.toString()`: the table's name for days
      1..30; entry 0 is the empty string, which is falsy, so day 0 and every
      day outside the table read as the decimal number. */
  function DayName(day: int): (r: string)
    ensures 1 <= day <= 30 ==> r == DayNames[day]
    ensures !(1 <= day <= 30) ==> r == IntToString(day)
  {
    if 0 <= day < |DayNames| && DayNames[day] != "" then DayNames[day] else IntToString(day)
  }

  /** The year loop of `solarToLunarAccurate`: starting at 1900, take whole
      lunar years off a positive offset while they fit, stopping at 2100.
      The year found is the one whose start the offset has reached and, below
      2100, whose end it has not. */
  method ScanYears(offset: int) returns (lunarYear: int, rest: int)
    ensures 1900 <= lunarYear <= 2100
    ensures offset <= 0 ==> lunarYear == 1900 && rest == offset
    ensures offset > 0 ==> 0 <= rest && rest == offset - YearsDays(1900, lunarYear)
    ensures offset > 0 && lunarYear < 2100 ==> offset < YearsDays(1900, lunarYear + 1)
  {
    lunarYear := 1900;
    rest := offset;
    while lunarYear < 2100 && rest > 0
      invariant 1900 <= lunarYear <= 2100
      invariant rest == offset - YearsDays(1900, lunarYear)
      invariant offset <= 0 ==> lunarYear == 1900
      invariant offset > 0 ==> 0 <= rest
      decreases 2100 - lunarYear
    {
      var yearDays := LunarYearDays(lunarYear);
      if rest >= yearDays {
        rest := rest - yearDays;
        lunarYear := lunarYear + 1;
      } else {
        break;
      }
    }
    YearDaysRange(Info(lunarYear));
  }

  /** The month loop of `solarToLunarAccurate` over one lunar year, as
      written. Once months 1..L are used up (L the leap month), the month
      counter stands at L + 1 and the leap month is taken off instead; after
      it `isLeap` is cleared and the counter returns to L + 1, so the leap
      month is taken off again and again and months L + 1 .. 12 are never
      reached. The loop ends because every pass takes 29 or 30 days off the
      offset. `leapPasses` counts the leap months taken off. */
  method ScanMonths(info: int, offset: int)
    returns (monthCount: int, isLeap: bool, rest: int, ghost leapPasses: nat)
    ensures 1 <= monthCount <= 13
    ensures offset <= 0 ==> monthCount == 1 && !isLeap && rest == offset
    ensures offset > 0 ==> 0 <= rest
    ensures isLeap ==> 0 < LeapMonth(info) <= 11 && monthCount == LeapMonth(info)
                       && rest < LeapDays(info)
    ensures offset - rest
            == MonthsTotal(info, if isLeap then monthCount else monthCount - 1)
               + leapPasses * LeapDays(info)
    ensures !isLeap && monthCount <= 12 && offset > 0 ==> rest < MonthDays(info, monthCount)
    ensures leapPasses > 0 ==> 0 < LeapMonth(info) <= 11
                               && monthCount >= LeapMonth(info)
    ensures leapPasses > 0 && !isLeap ==> monthCount == LeapMonth(info) + 1
    ensures 0 < LeapMonth(info) <= 11 ==>
              monthCount <= LeapMonth(info) + 1
              && (monthCount == LeapMonth(info) + 1 ==> !isLeap && rest <= 0)
  {
    var leapMonth := LeapMonth(info);
    monthCount := 1;
    isLeap := false;
    rest := offset;
    leapPasses := 0;
    while monthCount <= 12 && rest > 0
      invariant 1 <= monthCount <= 13 && !isLeap
      invariant offset <= 0 ==> monthCount == 1 && rest == offset
      invariant offset > 0 ==> 0 <= rest
      invariant offset - rest == MonthsTotal(info, monthCount - 1) + leapPasses * LeapDays(info)
      invariant leapPasses > 0 ==> 0 < leapMonth <= 11 && monthCount == leapMonth + 1
      invariant 0 < leapMonth <= 11 ==> monthCount <= leapMonth + 1
      decreases rest
    {
      var monthDays: int;
      if leapMonth > 0 && monthCount == leapMonth + 1 && !isLeap {
        isLeap := true;
        monthDays := LeapDays(info);
        monthCount := monthCount - 1;
      } else {
        monthDays := MonthDays(info, monthCount);
      }
      if rest >= monthDays {
        rest := rest - monthDays;
        if isLeap && monthCount == leapMonth {
          isLeap := false;
          leapPasses := leapPasses + 1;
        }
        monthCount := monthCount + 1;
      } else {
        break;
      }
    }
  }

  /** The packed word 0x5b52, the table's entry for the lunar year 2023:
      the leap month follows the second month, the first two months have 29
      and 30 days and the leap month 29. */
  lemma Word5b52()
    ensures LeapMonth(0x5b52) == 2 && LeapDays(0x5b52) == 29
    ensures MonthDays(0x5b52, 1) == 29 && MonthDays(0x5b52, 2) == 30
    ensures MonthsTotal(0x5b52, 1) == 29 && MonthsTotal(0x5b52, 2) == 59
  {
    assert ShiftRight(0x10000, 1) == 0x8000 && ShiftRight(0x10000, 2) == 0x4000;
  }

  /** The month loop counts the leap month again in place of the month after
      it: in the year of word 0x5b52 (2023), 92 days in, which is the fifth
      day of the third month, come back as the fifth day of the leap second
      month. */
  method LeapMonthRecounted() returns (monthCount: int, isLeap: bool, rest: int)
    ensures isLeap && monthCount == 2 && rest == 4
  {
    Word5b52();
    assert MonthsTotal(0x5b52, 2) + LeapDays(0x5b52) + 4 == 92;
    ghost var passes: nat;
    monthCount, isLeap, rest, passes := ScanMonths(0x5b52, 92);
  }

  /** `solarToLunarAccurate`: the whole days from 1900-01-31 (lunar 1900,
      first month, first day) to the given civil date, then the conversion of
      that offset. */
  method SolarToLunarAccurate(year: int, month: int, day: int) returns (r: LunarDate)
    ensures 1900 <= r.year <= 2100 && 1 <= r.month <= 13
    ensures r.monthName == MonthName(r.month) && r.dayName == DayName(r.day)
    ensures r.isLeap ==> LeapMonth(Info(r.year)) != 0 && r.month == LeapMonth(Info(r.year))
    ensures r.isLeap ==> r.month <= 11
    ensures Offset(year, month, day) > 0 ==>
              exists p: nat :: Offset(year, month, day) == Elapsed(r, p)
    ensures Offset(year, month, day) > 0 && r.year < 2100 ==>
              Offset(year, month, day) < YearsDays(1900, r.year + 1)
    ensures Offset(year, month, day) <= 0 ==>
              r == LunarDate(1900, 1, Offset(year, month, day) + 1, false, Some("正月"),
                             DayName(Offset(year, month, day) + 1))
    ensures (year, month, day) == (1900, 1, 31) ==>
              r == LunarDate(1900, 1, 1, false, Some("正月"), "初一")
  {
    BaseDate();
    r := OffsetToLunar(Offset(year, month, day));
  }

  /** The base date is offset 0, lunar day 1. */
  lemma BaseDate()
    ensures Offset(1900, 1, 31) == 0 && DayName(1) == "初一" && MonthName(1) == Some("正月")
  {
  }

  /** The year loop and the month loop of `solarToLunarAccurate` on the day
      offset from the base date. An offset of zero or less is not converted:
      it comes back in 1900's first month with a day of `offset + 1`.
      Otherwise the day lies within its month (or its leap month). */
  method OffsetToLunar(offset: int) returns (r: LunarDate)
    ensures 1900 <= r.year <= 2100 && 1 <= r.month <= 13
    ensures r.monthName == MonthName(r.month) && r.dayName == DayName(r.day)
    ensures r.isLeap ==> LeapMonth(Info(r.year)) != 0 && r.month == LeapMonth(Info(r.year))
    ensures offset > 0 ==> 1 <= r.day
    ensures r.isLeap ==> 1 <= r.day <= LeapDays(Info(r.year))
    ensures !r.isLeap && r.month <= 12 && offset > 0 ==>
              1 <= r.day <= MonthDays(Info(r.year), r.month)
    ensures r.isLeap ==> r.month <= 11
    ensures offset > 0 ==>
              exists p: nat :: offset == Elapsed(r, p)
    ensures offset > 0 && r.year < 2100 ==> offset < YearsDays(1900, r.year + 1)
    ensures offset <= 0 ==>
              r == LunarDate(1900, 1, offset + 1, false, Some("正月"), DayName(offset + 1))
  {
    var lunarYear, yearRest := ScanYears(offset);
    var monthCount, isLeap, rest, leapPasses := ScanMonths(Info(lunarYear), yearRest);
    r := LunarDate(lunarYear, monthCount, rest + 1, isLeap,
                   MonthName(monthCount), DayName(rest + 1));
    if offset > 0 {
      assert offset == Elapsed(r, leapPasses);
    }
  }

  /** The days from the base date to lunar date `r` when the leap month has
      been taken off `passes` times: the whole years before `r.year`, the
      months of that year before `r.month` (the leap month's own regular
      month included when `r` is in the leap month), the passes over the
      leap month, and the days of `r`'s month before `r.day`. */
  function Elapsed(r: LunarDate, passes: nat): int
    requires 1 <= r.month <= 13 && (r.isLeap ==> r.month <= 12)
  {
    YearsDays(1900, r.year)
    + MonthsTotal(Info(r.year), if r.isLeap then r.month else r.month - 1)
    + passes * LeapDays(Info(r.year))
    + r.day - 1
  }

  /** `Math.floor((new Date(year, month - 1, day) - new Date(1900, 0, 31)) / day)`:
      both dates are midnights, so the quotient is a whole number of days. */
  function Offset(year: int, month: int, day: int): int
  {
    ConstructorDay(year, month - 1, day) - ConstructorDay(1900, 0, 31)
  }

  /** `formatLunarInfo`: "农历", the year, "年", "闰" for a leap month, the
      month name (`undefined` when there is none) and the day name. */
  function FormatLunarInfo(info: LunarDate): (s: string)
    ensures |s| >= 3 && s[..2] == "农历"
  {
    "农历" + IntToString(info.year) + "年" + (if info.isLeap then "闰" else "")
    + (match info.monthName case Some(n) => n case None => "undefined") + info.dayName
  }

  /** The leap text is exactly "闰" inserted after the year: the two
      formattings of the same date differ in that one character alone. */
  lemma FormatLunarInfoLeap(info: LunarDate)
    ensures var plain := FormatLunarInfo(info.(isLeap := false));
            var prefix := |"农历" + IntToString(info.year) + "年"|;
            FormatLunarInfo(info.(isLeap := true)) == plain[..prefix] + "闰" + plain[prefix..]
  {
  }
}
