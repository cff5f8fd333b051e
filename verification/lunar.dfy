/** The web app's Gregorian-to-lunar conversion, src/utils/lunar.ts: the
    lunar-javascript library when it is there, otherwise a rough fallback that
    moves the date back about a month; and the lunar date's display text. */
module Lunar {
  import opened JsRuntime
  import LunarCalendar

  datatype SolarDate = SolarDate(year: int, month: int, day: int, hour: int, minute: int)

  datatype LunarDate = LunarDate(year: int, month: int, day: int, isLeap: bool,
                                 monthName: string, yearInGanZhi: string,
                                 monthInGanZhi: string, dayInGanZhi: string)

  /** What the library's lunar object reports: a leap month comes as a
      negative month number. */
  datatype LibraryLunar = LibraryLunar(year: int, month: int, day: int,
                                       monthInChinese: string, yearInGanZhi: string,
                                       monthInGanZhi: string, dayInGanZhi: string)

  /** The lunar-javascript library: either not loaded, or a conversion that
      gives the lunar date or throws (None). */
  datatype Library = Missing | Loaded(fromSolar: SolarDate -> Option<LibraryLunar>)

  /** `lunarMonthNames[month - 1] || `${month}月``: the same twelve names as
      the mini-program's table, and the number followed by 月 for any other
      month. */
  function MonthNameOr(month: int): (r: string)
    ensures 1 <= month <= 12 ==> r == LunarCalendar.MonthNames[month - 1]
    ensures !(1 <= month <= 12) ==> r == IntToString(month) + "月"
  {
    if 1 <= month <= 12 then LunarCalendar.MonthNames[month - 1] else IntToString(month) + "月"
  }

  /** `solarToLunarSimple`: the month one back and the day ten back; a month
      that falls to 0 or below becomes the twelfth of the previous year, and
      a day that falls to 0 or below gains 30 and takes one more month back,
      wrapping again. Never a leap month; no sexagenary names. Counting months
      from year 0, a date from the 11th on goes back one month (and 10 days),
      an earlier one two months (and gains 20 days); a real calendar date
      lands on a month 1..12, a day 1..30 and the same year or the one
      before. */
  function SolarToLunarSimple(date: SolarDate): (r: LunarDate)
    ensures !r.isLeap
    ensures r.yearInGanZhi == "" && r.monthInGanZhi == "" && r.dayInGanZhi == ""
    ensures r.monthName == MonthNameOr(r.month)
    ensures r.month >= 1
    ensures date.month >= 1 ==>
              r.year * 12 + r.month - 1
              == date.year * 12 + date.month - 1 - (if date.day >= 11 then 1 else 2)
    ensures r.day == (if date.day >= 11 then date.day - 10 else date.day + 20)
    ensures 1 <= date.month <= 12 && 1 <= date.day <= 31 ==>
              1 <= r.month <= 12 && 1 <= r.day <= 30
              && (r.year == date.year || r.year == date.year - 1)
  {
    var month0 := date.month - 1;
    var month1 := if month0 <= 0 then 12 else month0;
    var year1 := if month0 <= 0 then date.year - 1 else date.year;
    var day0 := date.day - 10;
    var month2 := if day0 <= 0 then (if month1 - 1 <= 0 then 12 else month1 - 1) else month1;
    var year2 := if day0 <= 0 && month1 - 1 <= 0 then year1 - 1 else year1;
    var day1 := if day0 <= 0 then 30 + day0 else day0;
    LunarDate(year2, month2, day1, false, MonthNameOr(month2), "", "", "")
  }

  /** `solarToLunar`: the library's conversion when it is loaded and does not
      throw, with a negative month read as a leap month; otherwise the
      fallback. */
  function SolarToLunar(date: SolarDate, library: Library): (r: LunarDate)
    ensures library.Missing? || library.fromSolar(date).None? ==> r == SolarToLunarSimple(date)
    ensures library.Loaded? && library.fromSolar(date).Some? ==>
              var l := library.fromSolar(date).value;
              r.month >= 0 && (if r.isLeap then -r.month else r.month) == l.month
              && (r.isLeap <==> l.month < 0)
              && (r.year, r.day, r.monthName) == (l.year, l.day, l.monthInChinese)
              && (r.yearInGanZhi, r.monthInGanZhi, r.dayInGanZhi)
                 == (l.yearInGanZhi, l.monthInGanZhi, l.dayInGanZhi)
  {
    match library
    case Missing => SolarToLunarSimple(date)
    case Loaded(fromSolar) =>
      match fromSolar(date)
      case None => SolarToLunarSimple(date)
      case Some(l) =>
        LunarDate(l.year, if l.month < 0 then -l.month else l.month, l.day, l.month < 0,
                  l.monthInChinese, l.yearInGanZhi, l.monthInGanZhi, l.dayInGanZhi)
  }

  /** A leap month is reported only by the library: whatever the library
      does, a leap result came from it. */
  lemma LeapOnlyFromLibrary(date: SolarDate, library: Library)
    ensures SolarToLunar(date, library).isLeap ==>
              library.Loaded? && library.fromSolar(date).Some?
              && library.fromSolar(date).value.month < 0
  {
  }

  /** `formatLunarDate`: "农历", the year, "年", "闰" for a leap month, the
      month name and the day's name from `getLunarDayName`, whose table and
      fallback are those of LunarCalendar.DayName. */
  function FormatLunarDate(date: LunarDate): (s: string)
    ensures |s| >= 3 && s[..2] == "农历"
  {
    "农历" + IntToString(date.year) + "年" + (if date.isLeap then "闰" else "")
    + date.monthName + LunarCalendar.DayName(date.day)
  }

  /** The leap text is "闰" inserted after the year and nothing else. */
  lemma FormatLunarDateLeap(date: LunarDate)
    ensures var plain := FormatLunarDate(date.(isLeap := false));
            var prefix := |"农历" + IntToString(date.year) + "年"|;
            FormatLunarDate(date.(isLeap := true)) == plain[..prefix] + "闰" + plain[prefix..]
  {
  }
}
