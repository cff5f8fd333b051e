/** Searching the calendar for the moments that carry a given chart,
    src/utils/sizhuReverse.ts: a check that the four pillars are pairs of
    the sixty-pillar cycle, the maps between an hour and its branch, the
    display text of a found date, and the day-by-day scan. The scan asks
    the lunar-javascript library for the chart of each moment; that library
    is a function parameter here. */
module SizhuReverse {
  import opened JsRuntime
  import opened Civil
  import opened Ganzhi
  import Sizhu

  /** The four pillars searched for, as stem and branch texts. */
  datatype SizhuInput = SizhuInput(year: Sizhu.GanZhiText, month: Sizhu.GanZhiText,
                                   day: Sizhu.GanZhiText, hour: Sizhu.GanZhiText)

  /** `checkGanzhi`: both texts are found, and the stem and the branch have
      the same parity. */
  predicate CheckGanzhi(tian: string, di: string)
  {
    var tianIndex := StemIndex(tian);
    var diIndex := BranchIndex(di);
    tianIndex != -1 && diIndex != -1 && tianIndex % 2 == diIndex % 2
  }

  /** The pairs `checkGanzhi` accepts are exactly the sixty pillars of the
      cycle. */
  lemma CheckGanzhiCycle(tian: string, di: string)
    ensures CheckGanzhi(tian, di) <==>
              exists n :: 0 <= n < 60 && tian == Gan(FromOrdinal(n).stem) && di == Zhi(FromOrdinal(n).branch)
  {
    var s, b := StemIndex(tian), BranchIndex(di);
    if CheckGanzhi(tian, di) {
      var p := Pillar(s, b);
      FromOrdinalOfOrdinal(p);
      var n := Ordinal(p);
      assert tian == Gan(FromOrdinal(n).stem) && di == Zhi(FromOrdinal(n).branch);
    } else if n :| 0 <= n < 60 && tian == Gan(FromOrdinal(n).stem) && di == Zhi(FromOrdinal(n).branch) {
      var p := FromOrdinal(n);
      StemIndexOf(p.stem);
      BranchIndexOf(p.branch);
      assert false;
    }
  }

  /** `isValidSizhu`: all four pillars pass `checkGanzhi`. */
  predicate IsValidSizhu(sizhu: SizhuInput)
  {
    && CheckGanzhi(sizhu.year.tian, sizhu.year.di)
    && CheckGanzhi(sizhu.month.tian, sizhu.month.di)
    && CheckGanzhi(sizhu.day.tian, sizhu.day.di)
    && CheckGanzhi(sizhu.hour.tian, sizhu.hour.di)
  }

  /** The texts of one of the sixty pillars of the cycle. */
  predicate CyclePillar(p: Sizhu.GanZhiText)
  {
    exists n :: 0 <= n < 60 && p.tian == Gan(FromOrdinal(n).stem) && p.di == Zhi(FromOrdinal(n).branch)
  }

  /** A chart is accepted exactly when each of its four pillars is a pillar
      of the cycle. */
  lemma IsValidSizhuCycle(sizhu: SizhuInput)
    ensures IsValidSizhu(sizhu) <==>
              CyclePillar(sizhu.year) && CyclePillar(sizhu.month)
              && CyclePillar(sizhu.day) && CyclePillar(sizhu.hour)
  {
    CheckGanzhiCycle(sizhu.year.tian, sizhu.year.di);
    CheckGanzhiCycle(sizhu.month.tian, sizhu.month.di);
    CheckGanzhiCycle(sizhu.day.tian, sizhu.day.di);
    CheckGanzhiCycle(sizhu.hour.tian, sizhu.hour.di);
  }

  /** The `hourMap` of getHourFromDizhi, by branch index. */
  const HourMap: seq<int> := [0, 2, 4, 6, 8, 10, 12, 14, 16, 18, 20, 22]

  /** `getHourFromDizhi`: the hour taken for a branch, twice its index;
      an unknown branch finds no key, and `?? 12` gives noon. */
  function HourFromDizhi(dizhi: string): (h: int)
    ensures IsBranch(dizhi) ==> h == 2 * BranchIndex(dizhi)
    ensures !IsBranch(dizhi) ==> h == 12
    ensures 0 <= h <= 22
  {
    var dizhiIndex := BranchIndex(dizhi);
    if 0 <= dizhiIndex < |HourMap| then
      HourMapDoubles(dizhiIndex);
      HourMap[dizhiIndex]
    else 12
  }

  lemma HourMapDoubles(i: int)
    requires 0 <= i < 12
    ensures HourMap[i] == 2 * i
  {
    assert HourMap == seq(12, j => 2 * j);
  }

  /** `getHourDizhi`: 子 (`DIZHI[0]`) for 23 and 0, otherwise `DIZHI[floor((hour + 1) / 2)]`,
      which is `undefined` (None) outside the table. The branch found is the
      one whose two-hour period, from the odd hour before twice its index,
      holds the hour; hours -1..23 have one. */
  function HourDizhi(hour: int): (r: Option<string>)
    ensures r.None? <==> hour < -1 || hour > 23
    ensures r.Some? ==> IsBranch(r.value)
                        && var b := BranchIndex(r.value);
                           (hour == 23 && b == 0) || 2 * b - 1 <= hour <= 2 * b
  {
    if hour == 23 || hour == 0 then
      BranchIndexOf(0);
      Some(Zhi(0))
    else
      var i := (hour + 1) / 2;
      if 0 <= i < 12 then
        BranchIndexOf(i);
        Some(Zhi(i))
      else None
  }

  /** The hour taken for a branch lies in that branch's period, so reading
      its branch back gives the branch; an unknown branch reads back as 午. */
  lemma HourRoundTrip(dizhi: string)
    ensures IsBranch(dizhi) ==> HourDizhi(HourFromDizhi(dizhi)) == Some(dizhi)
    ensures !IsBranch(dizhi) ==> HourDizhi(HourFromDizhi(dizhi)) == Some(Zhi(6))
  {
    var h := HourFromDizhi(dizhi);
    var r := HourDizhi(h);
    var b := BranchIndex(r.value);
    if IsBranch(dizhi) {
      assert b == BranchIndex(dizhi);
    } else {
      assert b == 6;
    }
  }

  /** `formatSolarDate`: "<year>年<MM>月<DD>日 <HH>:00". */
  function FormatSolarDate(year: int, month: int, day: int, hour: int): (s: string)
    ensures |s| >= 13
  {
    IntToString(year)
    + ("年" + PadStart2(IntToString(month)) + "月" + PadStart2(IntToString(day)) + "日 "
       + PadStart2(IntToString(hour)) + ":00")
  }

  /** For a month, a day and an hour below 100, the text after the year is
      fixed in layout: two digits of each field that read back as the field,
      and ":00" at the end. */
  lemma FormatSolarDateFields(year: int, month: nat, day: nat, hour: nat)
    requires month < 100 && day < 100 && hour < 100
    ensures var s := FormatSolarDate(year, month, day, hour);
            var y := |IntToString(year)|;
            var t := s[y..];
            && |t| == 13 && s[..y] == IntToString(year) && t[0] == '年'
            && TwoDigits(t[1..3], month) && t[3] == '月'
            && TwoDigits(t[4..6], day) && t[6..8] == "日 "
            && TwoDigits(t[8..10], hour) && t[10..] == ":00"
  {
    assert IntToString(month) == NatToString(month) && IntToString(day) == NatToString(day)
           && IntToString(hour) == NatToString(hour);
    var mm, dd, hh := PadStart2(IntToString(month)), PadStart2(IntToString(day)), PadStart2(IntToString(hour));
    assert TwoDigits(mm, month) by { PadStart2Digits(month); }
    assert TwoDigits(dd, day) by { PadStart2Digits(day); }
    assert TwoDigits(hh, hour) by { PadStart2Digits(hour); }
    var t := "年" + mm + "月" + dd + "日 " + hh + ":00";
    var s := FormatSolarDate(year, month, day, hour);
    assert s == IntToString(year) + t;
    var y := |IntToString(year)|;
    assert s[y..] == t && s[..y] == IntToString(year);
    TailLayout(mm, dd, hh);
  }

  /** Two decimal digits that read as `n`. */
  predicate TwoDigits(p: string, n: int)
  {
    |p| == 2 && IsDigit(p[0]) && IsDigit(p[1]) && DigitsValue(p) == n
  }

  /** Where the three padded fields sit in the text after the year. */
  lemma TailLayout(mm: string, dd: string, hh: string)
    requires |mm| == 2 && |dd| == 2 && |hh| == 2
    ensures var t := "年" + mm + "月" + dd + "日 " + hh + ":00";
            && |t| == 13 && t[0] == '年' && t[1..3] == mm && t[3] == '月' && t[4..6] == dd
            && t[6..8] == "日 " && t[8..10] == hh && t[10..] == ":00"
  {
    var t := "年" + mm + "月" + dd + "日 " + hh + ":00";
    var u := "年" + mm + "月" + dd;
    assert |u| == 6 && t == u + "日 " + hh + ":00";
    assert u[1..3] == mm && u[4..6] == dd;
    assert t[..6] == u;
  }

  /** What the library's lunar object of a moment reports for the text. */
  datatype LunarFields = LunarFields(year: int, month: int, monthInChinese: string,
                                     dayInChinese: string)

  /** A library call for a moment (year, month, day, hour) that either
      answers or throws (None). */
  type LunarOf = (int, int, int, int) -> Option<LunarFields>

  /** `${getHourDizhi(hour)}` in a template: `undefined` prints as such. */
  function HourText(hour: int): string
  {
    match HourDizhi(hour)
    case Some(b) => b
    case None => "undefined"
  }

  /** `getLunarString`: "农历<year>年[闰]<month>月<day> <branch>时", or '' when
      the library throws. */
  function LunarString(lunarOf: LunarOf, year: int, month: int, day: int, hour: int): (s: string)
    ensures s == "" <==> lunarOf(year, month, day, hour).None?
    ensures s != "" ==> |s| >= 4 && s[..2] == "农历" && s[|s| - 1] == '时'
  {
    match lunarOf(year, month, day, hour)
    case None => ""
    case Some(lunar) => "农历" + LunarTail(lunar, hour)
  }

  /** The text after "农历": the year, 年, 闰 for a leap month (a negative
      month), the month and day names, and the hour's branch followed by 时. */
  function LunarTail(lunar: LunarFields, hour: int): (t: string)
    ensures |t| >= 2 && t[|t| - 1] == '时'
  {
    (IntToString(lunar.year) + "年" + (if lunar.month < 0 then "闰" else "")
     + lunar.monthInChinese + "月" + lunar.dayInChinese + " " + HourText(hour)) + "时"
  }

  /** `new Date(year, month, 0).getDate()`: the length of the month, where the
      Date constructor reads a year 0..99 as 1900..1999. */
  function MonthLength(year: int, month: int): (n: int)
    requires 1 <= month <= 12
    ensures 28 <= n <= 31
  {
    DaysInMonth(ConstructorYear(year), month)
  }

  /** The month lengths are the Gregorian ones for every year but 0, whose
      February the constructor takes from 1900 and so gets 28 days rather
      than 29. */
  lemma MonthLengthGregorian(year: int, month: int)
    requires 1 <= month <= 12
    ensures year != 0 ==> MonthLength(year, month) == DaysInMonth(year, month)
    ensures year == 0 && month == 2 ==> MonthLength(year, month) == 28 != DaysInMonth(year, month)
  {
  }

  /** A day the scan visits: a month 1..12 and a day of it. */
  predicate Visited(year: int, month: int, day: int)
  {
    1 <= month <= 12 && 1 <= day <= MonthLength(year, month)
  }

  /** A search: the target chart, the year range and the library calls. */
  datatype Search = Search(sizhu: SizhuInput, startYear: int, endYear: int,
                           chartOf: (int, int, int, int) -> Option<SizhuInput>,
                           lunarOf: LunarOf)
  {
    /** The hour tried on every day. */
    function Hour(): int
    {
      HourFromDizhi(sizhu.hour.di)
    }

    /** The library gives the moment's chart, and it equals the target in
        all eight texts. */
    predicate Hit(year: int, month: int, day: int)
    {
      chartOf(year, month, day, Hour()) == Some(sizhu)
    }

    /** The entry pushed for a day that matches. */
    function Entry(year: int, month: int, day: int): MatchedDate
    {
      MatchedDate(DateTime(year, month, day, Hour(), 0), FormatSolarDate(year, month, day, Hour()),
                  LunarString(lunarOf, year, month, day, Hour()))
    }

    /** An entry of the result: a visited day in range whose chart matches,
        at the searched hour and minute 0, with its texts. */
    predicate Matched(r: MatchedDate)
    {
      var t := r.solar;
      && startYear <= t.year <= endYear && Visited(t.year, t.month, t.day)
      && t.hour == Hour() && t.minute == 0 && Hit(t.year, t.month, t.day)
      && r == Entry(t.year, t.month, t.day)
    }
  }

  datatype MatchedDate = MatchedDate(solar: DateTime, solarString: string, lunarString: string)

  /** The scan's position of a day: increasing in scan order. */
  function Key(year: int, month: int, day: int): int
  {
    416 * year + 32 * month + day
  }

  function KeyOf(r: MatchedDate): int
  {
    Key(r.solar.year, r.solar.month, r.solar.day)
  }

  /** Scan order is calendar order. */
  lemma KeyOrder(y: int, m: int, d: int, y': int, m': int, d': int)
    requires 1 <= m <= 12 && 1 <= d <= 31 && 1 <= m' <= 12 && 1 <= d' <= 31
    ensures Key(y, m, d) < Key(y', m', d') <==> DateBefore(y, m, d, y', m', d')
  {
  }

  predicate Found(results: seq<MatchedDate>, t: DateTime)
  {
    exists i :: 0 <= i < |results| && results[i].solar == t
  }

  /** Every result is a match scanned before position `k`. */
  ghost predicate Sound(q: Search, results: seq<MatchedDate>, k: int)
  {
    forall i :: 0 <= i < |results| ==> q.Matched(results[i]) && KeyOf(results[i]) < k
  }

  /** The results are in scan order, each day once. */
  ghost predicate Ordered(results: seq<MatchedDate>)
  {
    forall i, j :: 0 <= i < j < |results| ==> KeyOf(results[i]) < KeyOf(results[j])
  }

  /** Every match scanned before position `k` is among the results. */
  ghost predicate Complete(q: Search, results: seq<MatchedDate>, k: int)
  {
    forall y, m, d ::
      q.startYear <= y <= q.endYear && Visited(y, m, d) && Key(y, m, d) < k && q.Hit(y, m, d)
      ==> Found(results, DateTime(y, m, d, q.Hour(), 0))
  }

  /** The results hold every match scanned before position `k`, and nothing
      else, in scan order. */
  ghost predicate Scanned(q: Search, results: seq<MatchedDate>, k: int)
  {
    Sound(q, results, k) && Ordered(results) && Complete(q, results, k)
  }

  /** A day that is not a match leaves the results as they are. */
  lemma SkipDay(q: Search, results: seq<MatchedDate>, year: int, month: int, day: int)
    requires Visited(year, month, day) && !q.Hit(year, month, day)
    requires Scanned(q, results, Key(year, month, day))
    ensures Scanned(q, results, Key(year, month, day + 1))
  {
    forall y, m, d | q.startYear <= y <= q.endYear && Visited(y, m, d) && Key(y, m, d) < Key(year, month, day + 1)
        && q.Hit(y, m, d)
      ensures Found(results, DateTime(y, m, d, q.Hour(), 0))
    {
      if Key(y, m, d) < Key(year, month, day) {
        assert Complete(q, results, Key(year, month, day));
      } else {
        KeySame(y, m, d, year, month, day);
        assert false;
      }
    }
  }

  /** A matching day is appended after everything found so far. */
  lemma PushDay(q: Search, results: seq<MatchedDate>, year: int, month: int, day: int)
    requires q.startYear <= year <= q.endYear && Visited(year, month, day) && q.Hit(year, month, day)
    requires Scanned(q, results, Key(year, month, day))
    ensures Scanned(q, results + [q.Entry(year, month, day)], Key(year, month, day + 1))
  {
    var e := q.Entry(year, month, day);
    assert q.Matched(e) && KeyOf(e) == Key(year, month, day);
    AppendSound(q, results, e, Key(year, month, day), Key(year, month, day + 1));
    AppendOrdered(results, e, Key(year, month, day));
    PushComplete(q, results, year, month, day);
  }

  /** A match past every result, appended, keeps the results sound. */
  lemma AppendSound(q: Search, results: seq<MatchedDate>, e: MatchedDate, k: int, k': int)
    requires Sound(q, results, k)
    requires q.Matched(e) && k <= KeyOf(e) < k'
    ensures Sound(q, results + [e], k')
  {
    var r := results + [e];
    forall i | 0 <= i < |r|
      ensures q.Matched(r[i]) && KeyOf(r[i]) < k'
    {
      if i < |results| {
        assert r[i] == results[i];
      }
    }
  }

  /** An entry past every result, appended, keeps the results in order. */
  lemma AppendOrdered(results: seq<MatchedDate>, e: MatchedDate, k: int)
    requires Ordered(results) && forall i :: 0 <= i < |results| ==> KeyOf(results[i]) < k
    requires k <= KeyOf(e)
    ensures Ordered(results + [e])
  {
    var r := results + [e];
    forall i, j | 0 <= i < j < |r|
      ensures KeyOf(r[i]) < KeyOf(r[j])
    {
      assert r[i] == results[i];
      if j < |results| {
        assert r[j] == results[j];
      }
    }
  }

  /** The day's entry, appended, completes the results up to the next day. */
  lemma PushComplete(q: Search, results: seq<MatchedDate>, year: int, month: int, day: int)
    requires Visited(year, month, day)
    requires Complete(q, results, Key(year, month, day))
    ensures Complete(q, results + [q.Entry(year, month, day)], Key(year, month, day + 1))
  {
    var results' := results + [q.Entry(year, month, day)];
    assert results'[|results|] == q.Entry(year, month, day);
    forall y, m, d | q.startYear <= y <= q.endYear && Visited(y, m, d) && Key(y, m, d) < Key(year, month, day + 1)
        && q.Hit(y, m, d)
      ensures Found(results', DateTime(y, m, d, q.Hour(), 0))
    {
      if Key(y, m, d) < Key(year, month, day) {
        var i :| 0 <= i < |results| && results[i].solar == DateTime(y, m, d, q.Hour(), 0);
        assert results'[i] == results[i];
      } else {
        KeyWithin(y, m, d, year, month);
        assert d == day;
        assert results'[|results|].solar == DateTime(y, m, d, q.Hour(), 0);
      }
    }
  }

  /** The days of a month lie between its first and the next month's first,
      and no others do. */
  lemma KeyWithin(y: int, m: int, d: int, year: int, month: int)
    requires 1 <= m <= 12 && 1 <= d <= 31 && 1 <= month <= 12
    requires Key(year, month, 1) <= Key(y, m, d) < Key(year, month + 1, 1)
    ensures y == year && m == month
  {
  }

  /** Two days of the scan at the same position are the same day. */
  lemma KeySame(y: int, m: int, d: int, year: int, month: int, day: int)
    requires 1 <= m <= 12 && 1 <= d <= 31 && 1 <= month <= 12 && 1 <= day <= 31
    requires Key(y, m, d) == Key(year, month, day)
    ensures y == year && m == month && d == day
  {
    KeyWithin(y, m, d, year, month);
  }

  /** After the last day of a month comes the first of the next. */
  lemma MonthEnd(q: Search, results: seq<MatchedDate>, year: int, month: int)
    requires 1 <= month <= 12
    requires Scanned(q, results, Key(year, month, MonthLength(year, month) + 1))
    ensures Scanned(q, results, Key(year, month + 1, 1))
  {
    forall y, m, d | q.startYear <= y <= q.endYear && Visited(y, m, d) && Key(y, m, d) < Key(year, month + 1, 1)
        && q.Hit(y, m, d)
      ensures Found(results, DateTime(y, m, d, q.Hour(), 0))
    {
      if Key(y, m, d) >= Key(year, month, 1) {
        KeyWithin(y, m, d, year, month);
      }
    }
  }

  /** After the twelfth month comes the first of the next year. */
  lemma YearEnd(q: Search, results: seq<MatchedDate>, year: int)
    requires Scanned(q, results, Key(year, 13, 1))
    ensures Scanned(q, results, Key(year + 1, 1, 1))
  {
    forall y, m, d | q.startYear <= y <= q.endYear && Visited(y, m, d) && Key(y, m, d) < Key(year + 1, 1, 1)
        && q.Hit(y, m, d)
      ensures Found(results, DateTime(y, m, d, q.Hour(), 0))
    {
      assert y <= year;
    }
  }

  /** `sizhuToSolar`: every day of every month of the years from
      `startYear` to `endYear`, tried at the target's hour; a day whose chart
      equals the target in all eight texts is pushed, one the library throws
      on is skipped. The results are exactly the matching days of the range,
      each once, in calendar order. */
  method SizhuToSolar(sizhu: SizhuInput,
                      chartOf: (int, int, int, int) -> Option<SizhuInput>, lunarOf: LunarOf,
                      startYear: int := 1801, endYear: int := 2099)
    returns (results: seq<MatchedDate>)
    ensures var q := Search(sizhu, startYear, endYear, chartOf, lunarOf);
            forall i :: 0 <= i < |results| ==> q.Matched(results[i])
    ensures forall i, j :: 0 <= i < j < |results| ==>
              var a, b := results[i].solar, results[j].solar;
              DateBefore(a.year, a.month, a.day, b.year, b.month, b.day)
    ensures forall y, m, d ::
              startYear <= y <= endYear && Visited(y, m, d)
              && chartOf(y, m, d, HourFromDizhi(sizhu.hour.di)) == Some(sizhu)
              ==> Found(results, DateTime(y, m, d, HourFromDizhi(sizhu.hour.di), 0))
  {
    var q := Search(sizhu, startYear, endYear, chartOf, lunarOf);
    results := [];
    var year := startYear;
    while year <= endYear
      invariant startYear <= year && (year <= endYear + 1 || year == startYear)
      invariant Scanned(q, results, Key(year, 1, 1))
    {
      results := ScanYear(q, year, results);
      year := year + 1;
    }
    forall i, j | 0 <= i < j < |results|
      ensures var a, b := results[i].solar, results[j].solar;
              DateBefore(a.year, a.month, a.day, b.year, b.month, b.day)
    {
      var a, b := results[i].solar, results[j].solar;
      KeyOrder(a.year, a.month, a.day, b.year, b.month, b.day);
    }
  }

  /** The months of one year. */
  method ScanYear(q: Search, year: int, results: seq<MatchedDate>) returns (results': seq<MatchedDate>)
    requires q.startYear <= year <= q.endYear
    requires Scanned(q, results, Key(year, 1, 1))
    ensures Scanned(q, results', Key(year + 1, 1, 1))
  {
    results' := results;
    var month := 1;
    while month <= 12
      invariant 1 <= month <= 13
      invariant Scanned(q, results', Key(year, month, 1))
    {
      results' := ScanMonth(q, year, month, results');
      month := month + 1;
    }
    YearEnd(q, results', year);
  }

  /** The days of one month, `new Date(year, month, 0).getDate()` of them. */
  method ScanMonth(q: Search, year: int, month: int, results: seq<MatchedDate>)
    returns (results': seq<MatchedDate>)
    requires q.startYear <= year <= q.endYear && 1 <= month <= 12
    requires Scanned(q, results, Key(year, month, 1))
    ensures Scanned(q, results', Key(year, month + 1, 1))
  {
    results' := results;
    var daysInMonth := MonthLength(year, month);
    var day := 1;
    while day <= daysInMonth
      invariant 1 <= day <= daysInMonth + 1
      invariant Scanned(q, results', Key(year, month, day))
    {
      results' := TryDay(q, year, month, day, results');
      day := day + 1;
    }
    MonthEnd(q, results', year, month);
  }

  /** One day: the library's chart for the moment at the target's hour,
      compared with the target; a throw is skipped. */
  method TryDay(q: Search, year: int, month: int, day: int, results: seq<MatchedDate>)
    returns (results': seq<MatchedDate>)
    requires q.startYear <= year <= q.endYear && Visited(year, month, day)
    requires Scanned(q, results, Key(year, month, day))
    ensures Scanned(q, results', Key(year, month, day + 1))
  {
    results' := results;
    match q.chartOf(year, month, day, q.Hour())
    case None =>
      SkipDay(q, results, year, month, day);
    case Some(chart) =>
      if chart == q.sizhu {
        PushDay(q, results, year, month, day);
        results' := results + [q.Entry(year, month, day)];
      } else {
        SkipDay(q, results, year, month, day);
      }
  }
}
