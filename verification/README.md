# BaZi four-pillar engine, modelled in Dafny

This project models the calculation core of a BaZi (八字, "four pillars of
destiny") application. The application comes in two parts: a web app (`src/`)
and a WeChat mini-program (`sizhu-miniprogram/`). From a civil date and hour
it derives four sexagenary pillars (year, month, day and hour). Each pillar is
a heavenly stem (天干) paired with an earthly branch (地支). Around these
pillars the core computes the following:

- the 24 solar terms (节气) around a date, and the start age of the luck
  cycles (起运);
- the ten-year luck pillars (大运) and the yearly pillars (流年);
- the life, body and conception palaces (命宫, 身宫, 胎元);
- the twelve growth phases (十二长生) of each stem in the month branch, and
  their strength levels;
- the sound element (纳音) of a pillar;
- a packed-table lunar calendar, and the web app's rough lunar fallback;
- the twelve year spirits (太岁十二神);
- the travelling horse, salary, goat blade and heavenly noble spirits (神煞);
- the reverse search from four pillars back to the civil dates that produce
  them.

The modules follow the source files:

| module | file | models |
|---|---|---|
| `JsRuntime` | js_runtime.dfy | JavaScript `%`, `indexOf`, `toString`, `padStart` |
| `Civil` | civil.dfy | proleptic Gregorian dates, day numbers, the `Date` constructor's day overflow |
| `Ganzhi` | ganzhi.dfy | the TIANGAN/DIZHI arrays and the sixty-pillar cycle |
| `Shengwang` | shengwang.dfy | src/utils/shengwang.ts and its mini-program twin |
| `Nayin` | nayin.dfy | sizhu-miniprogram/src/utils/nayin.ts |
| `Jieqi` | jieqi.dfy | src/utils/jieqi.ts (the mini-program copy is identical) |
| `Sizhu` | sizhu.dfy | the pillar functions of both sizhu.ts files |
| `Chart` | chart.dfy | palaces, start age, luck and yearly pillars of src/utils/sizhu.ts |
| `SimpleSizhu` | sizhu_simple.dfy | sizhu-miniprogram/src/utils/sizhu-simple.js |
| `LunarCalendar` | lunar_calendar.dfy | sizhu-miniprogram/src/utils/lunarCalendar.ts |
| `Lunar` | lunar.dfy | src/utils/lunar.ts |
| `Taisui` | taisui.dfy | src/utils/taisui.ts |
| `Shensha` | shensha.dfy | src/utils/shensha.ts |
| `SizhuReverse` | sizhu_reverse.dfy | src/utils/sizhuReverse.ts |

**How the model represents the source.**

- Pillars are pairs of indices (`Ganzhi.Pillar`). Text appears only where the
  source itself works on strings, as in its table lookups keyed by stem or
  branch characters.
- JavaScript's `%` keeps the sign of the dividend. It is `JsRuntime.Rem`
  wherever a dividend can be negative.
- A `Date` is a valid civil date-time with minute resolution. Instants are
  minutes counted from a fixed day.
- Code that loops in the source is a method with loop invariants, proved
  against a specification function:
  - the solar-term scans;
  - the hour-table scan;
  - the luck and yearly pillar lists;
  - the lunar year and month scans;
  - the reverse date search.
- Everything else is a function.

**Parameters in place of outside code.**

- The lunar-javascript library enters as function parameters: a conversion
  that may throw (`None`), or a chart or lunar lookup per date.
- The clock (`new Date()`) enters as a parameter: `now` where its moment is used, `clockYear` where only its year is.
- src/utils/nayin.ts is not part of this model. Where the web app calls its
  `getNayin`, the model takes the lookup as a parameter `nayinOf`. The
  mini-program passes its own `Nayin.GetNayin`.

## Model

| member | source | states |
|---|---|---|
| JsRuntime.Rem | src/utils/sizhu.ts:100-101 | the remainder of `%` lies strictly between -b and b, carries the sign of the dividend, and equals the Euclidean remainder for a non-negative dividend |
| JsRuntime.RemNormalised | src/utils/sizhu.ts:100-101 | `(a % b + b) % b`, and adding b to a negative remainder, both give the Euclidean remainder |
| JsRuntime.IndexOf | src/utils/sizhu.ts:118 | `indexOf` returns the first position holding the value, or -1 exactly when the value is absent |
| JsRuntime.NatToStringRoundTrip | src/utils/sizhuReverse.ts:57-62 | reading back the decimal digits of `toString()` gives the number |
| JsRuntime.IntToStringInjective | src/utils/jieqi.ts:170-189 | different integers print differently |
| JsRuntime.PadStart2Digits | src/utils/sizhuReverse.ts:57-62 | `padStart(2, '0')` of a number below 100 is two digits that read back as the number |
| Civil.DaysInMonth | src/utils/sizhuReverse.ts:108 | month lengths are 28 to 31 days, and February has 29 exactly in a leap year |
| Civil.DayNumberOrder | src/utils/sizhuReverse.ts:104-110 | calendar order of valid dates is the order of their day numbers |
| Civil.FlooredDayDifference | src/utils/sizhu.ts:155 | the floored difference in days from a midnight is the difference of day numbers |
| Civil.InstantOrder | src/utils/jieqi.ts:88 | comparing two date-times is comparing their instants |
| Civil.ConstructorYear | src/utils/sizhuReverse.ts:108 | the Date constructor changes a year exactly when it is 0..99, and moves it into 1900..1999 keeping its last two digits |
| Civil.ConstructorDayValid | sizhu-miniprogram/src/utils/lunarCalendar.ts:96 | `new Date(y, m - 1, d)` of an in-range month is the day number of that date in the constructor's year |
| Civil.ConstructorDayZero | src/utils/sizhuReverse.ts:108 | `new Date(y, m, 0)` is the last day of month m of the constructor's year |
| Ganzhi.FromOrdinal | src/utils/sizhu.ts:95-107 | every pillar on the sixty-pillar cycle pairs stem and branch of equal parity |
| Ganzhi.FromOrdinalOfOrdinal | src/utils/sizhu.ts:7-10 | a pillar of equal parity comes back from its position on the cycle |
| Ganzhi.OrdinalOfFromOrdinal | src/utils/sizhu.ts:95-107 | the position of the n-th pillar is n modulo 60 |
| Ganzhi.NotInCycle | src/utils/sizhu.ts:7-10 | a pillar of mixed parity is not on the cycle |
| Ganzhi.ShiftFromOrdinal | src/utils/sizhu.ts:533-560 | stepping a cycle pillar by k is taking the pillar k positions on |
| Ganzhi.StemIndex | src/utils/sizhu.ts:7 | `TIANGAN.indexOf(s)` finds a stem at its own index, and gives -1 exactly for a string that is not a stem |
| Ganzhi.BranchIndex | src/utils/sizhu.ts:10 | `DIZHI.indexOf(s)` finds a branch at its own index, and gives -1 exactly for a string that is not a branch |
| Ganzhi.StemIndexOf | src/utils/sizhu.ts:7 | indexOf of the i-th stem is i |
| Ganzhi.BranchIndexOf | src/utils/sizhu.ts:10 | indexOf of the i-th branch is i |
| Ganzhi.Text | src/utils/sizhu.ts:104-105 | a pillar's text is its stem character followed by its branch character |
| Ganzhi.YangStemEven | src/utils/sizhu.ts:464-465 | the yang stems are exactly the stems at even index |
| Shengwang.ProgressionPermutation | src/utils/shengwang.ts:20-58 | the twelve phases run forward or backward round the branches, so each row is a permutation of the branches |
| Shengwang.SrcTableRows | src/utils/shengwang.ts:20-58 | every row of the web app's table is a progression from its first branch, forward for yang stems and backward for yin stems, and 戊/己 repeat 丙/丁 |
| Shengwang.MiniTableRows | sizhu-miniprogram/src/utils/shengwang.ts:19-40 | the same shape holds for the mini-program's table |
| Shengwang.StateIn | src/utils/shengwang.ts:63-78 | the lookup gives 未知 for an unknown stem or branch, one of the twelve phases otherwise, and in a progression-shaped table exactly the phase the table lists for that stem and branch |
| Shengwang.StateInProgression | src/utils/shengwang.ts:20-58 | in a progression-shaped table a yang stem moves one phase forward per branch and a yin stem one phase back |
| Shengwang.StateInKnown | sizhu-miniprogram/src/utils/shengwang.ts:45-60 | for a stem and a branch the state is known, and different branches give different phases |
| Shengwang.StatesDistinct | src/utils/shengwang.ts:13-15 | the twelve phase names are distinct, and 未知 is none of them |
| Shengwang.TablesDisagreeOnJiaHai | sizhu-miniprogram/src/utils/shengwang.ts:19-40 | the two tables differ: for 甲 in 亥 the web app gives 长生 and the mini-program 胎 |
| Shengwang.LevelOf | src/utils/shengwang.ts:127-135 | strong exactly for the strong phases, and medium exactly for the medium ones that are not strong |
| Shengwang.LevelPartition | sizhu-miniprogram/src/utils/shengwang.ts:109-117 | strong is 长生, 临官, 帝旺 and 养; weak is 沐浴, 病, 死, 墓 and 绝, and every unknown state |
| Shengwang.InfoOf | src/utils/shengwang.ts:99-122 | the strength is 1 to 10 and keeps the state; an unknown state has strength 5 and 状态未知 |
| Shengwang.LevelMatchesStrength | sizhu-miniprogram/src/utils/shengwang.ts:81-104 | strong is strength at least 7, medium 4 to 6, and weak at most 3 |
| Shengwang.Measure | src/utils/shengwang.ts:83-85 | a stem's state in the month branch, with its level |
| Shengwang.SizhuStates | src/utils/shengwang.ts:147-165 | each pillar's stem is measured in the month branch |
| Shengwang.SizhuStatesMonthBranch | sizhu-miniprogram/src/utils/shengwang.ts:129-147 | a month branch that is not a branch makes all four unknown and weak; a known stem in a branch gets a phase |
| Nayin.NamesDistinct | sizhu-miniprogram/src/utils/nayin.ts:12-19 | the thirty sound names are distinct |
| Nayin.GetNayin | sizhu-miniprogram/src/utils/nayin.ts:24-36 | 未知 exactly when either part is not a stem or branch; otherwise a name ending in an element |
| Nayin.LookupPillar | sizhu-miniprogram/src/utils/nayin.ts:24-36 | the lookup reads the name at position (6·stem + branch) mod 60, halved |
| Nayin.LookupAgreesIff | sizhu-miniprogram/src/utils/nayin.ts:24-36 | for a cycle pillar, that index gives the traditional sound exactly when the branch is 子 or 戌 |
| Nayin.GetNayinYiChou | sizhu-miniprogram/src/utils/nayin.ts:24-36 | 乙丑 is a pillar where the lookup differs from the traditional sound |
| Nayin.GetNayinByGanZhi | sizhu-miniprogram/src/utils/nayin.ts:42-51 | 未知 unless the text has two characters; otherwise the lookup of its two halves |
| Nayin.ByGanZhiOfText | sizhu-miniprogram/src/utils/nayin.ts:42-51 | the text form agrees with the pair form for every pillar |
| Nayin.Wuxing | sizhu-miniprogram/src/utils/nayin.ts:56-63 | 未知 exactly when no character of the name is an element; otherwise an element character that occurs in the name, and no element before it in the order 金, 木, 水, 火, 土 occurs |
| Nayin.GetNayinInfo | sizhu-miniprogram/src/utils/nayin.ts:73-81 | the element is 未知 exactly when the name is, and otherwise is the name's last character |
| Jieqi.Name | src/utils/jieqi.ts:8-13 | every term name has two characters |
| Jieqi.TermTable | src/utils/jieqi.ts:16-41 | months and days of the table are in range, and only the last two terms fall in January |
| Jieqi.JieqiDate | src/utils/jieqi.ts:53-62 | a term date is a valid midnight, its year read by the `Date` constructor (0..99 become 1900..1999) |
| Jieqi.JieqiYear | src/utils/jieqi.ts:53-62 | the first 22 terms fall in the given year and 小寒 and 大寒 in January of the next, each year as the constructor reads it, never before the year asked for |
| Jieqi.JieqiChronological | sizhu-miniprogram/src/utils/jieqi.ts:14-39 | the terms of a year are in strictly increasing time and the last comes before the next year's first, except in year 99, where 冬至 lands in 1999 after 小寒 of the year 100 |
| Jieqi.PreviousJieqiCorrect | src/utils/jieqi.ts:67-103 | when some term of this year or the last lies at or before the date (always outside the years 1..100), the previous term is found, lies at or before the date and is the latest such term; otherwise the placeholder with no name comes back |
| Jieqi.PreviousTermExists | src/utils/jieqi.ts:53-62 | outside the years 1..100 a term of the previous year lies before the date |
| Jieqi.NoPreviousTermInEarlyYears | src/utils/jieqi.ts:53-62 | in the years 1..99 every term looked at lands in 1900 or later, after the date |
| Jieqi.PreviousJieqiPlaceholder | src/utils/jieqi.ts:71-75 | without such a term the result is the placeholder: no name, the clock's moment, no days |
| Jieqi.PreviousJieqiYear50 | src/utils/jieqi.ts:67-103 | a date in the year 50 gets the nameless placeholder |
| Jieqi.PreviousJieqiDays | src/utils/jieqi.ts:89-96 | its day count is the number of calendar days back to the term, and never negative |
| Jieqi.NextJieqiCorrect | src/utils/jieqi.ts:108-144 | the next term is found, lies strictly after the date, and is the earliest such term of this year and the next |
| Jieqi.NextJieqiDays | sizhu-miniprogram/src/utils/jieqi.ts:106-142 | its day count is the floored number of days to it |
| Jieqi.ExactTerm | sizhu-miniprogram/src/utils/jieqi.ts:65-101 | on the instant of a term, the previous term is that one at 0 days, and the next is a different one |
| Jieqi.PreviousInYear | src/utils/jieqi.ts:83-99 | one pass of the inner loop is the fold of the closer-term step over the year's 24 terms |
| Jieqi.PreviousJieqi | src/utils/jieqi.ts:67-103 | the two passes give the specification search over this year and the last |
| Jieqi.NextInYear | src/utils/jieqi.ts:124-140 | the same for the forward scan |
| Jieqi.NextJieqi | src/utils/jieqi.ts:108-144 | the two passes give the specification search over this year and the next |
| Jieqi.SearchBest | sizhu-miniprogram/src/utils/jieqi.ts:78-99 | the scan finds nothing exactly when no term qualifies; otherwise it picks a qualifying term at the least distance |
| Jieqi.DayTextCases | src/utils/jieqi.ts:149-165 | 今日 exactly for 0 days; 次日 or 前日 exactly for 1 day; otherwise 后 or 前, the number and 日 |
| Jieqi.DayTextInjective | sizhu-miniprogram/src/utils/jieqi.ts:147-163 | different day counts read differently |
| Jieqi.Format | src/utils/jieqi.ts:149-165 | empty exactly for a missing term; otherwise it starts with the month and day, the term name and the opening bracket, and ends with the day text (今日, 次日/前日 or 后N日/前N日) and the closing bracket |
| Jieqi.FormatWithYear | src/utils/jieqi.ts:170-189 | the year and 年 put in front of the formatted term; empty for a missing term |
| Jieqi.DescribeYear | sizhu-miniprogram/src/utils/jieqi.ts:168-187 | the year is shown exactly when the term falls in another year than the date |
| Jieqi.JieqiFullInfo | src/utils/jieqi.ts:201-220 | the previous and next terms are the searches' results; the next text is never empty and the previous text is empty exactly when there is no previous term; each carries a year exactly when its term lies in another year |
| Sizhu.ShichenTables | src/utils/sizhu.ts:13-26 | both hour tables map each of the 24 hours to a branch |
| Sizhu.MiniShichenTraditional | sizhu-miniprogram/src/utils/sizhu.ts:11-24 | the mini-program's table is the traditional double hour (23 and 0 are 子, then two hours per branch) |
| Sizhu.SrcShichenEarly | src/utils/sizhu.ts:13-26 | the web app's table gives the odd hours 5 to 21 the branch one before the traditional one |
| Sizhu.YearGanZhi | src/utils/sizhu.ts:95-107 | the year pillar is the cycle pillar counted from 1984 |
| Sizhu.YearGanZhiCycle | sizhu-miniprogram/src/utils/sizhu.ts:51-63 | 1984 is 甲子, the year pillar repeats every 60 years, and stem and branch have equal parity |
| Sizhu.MonthTianStart | src/utils/sizhu.ts:117-139 | the month's starting stem is 2*(year stem)+2 mod 10 for a known year stem, and 甲 otherwise |
| Sizhu.MonthGanZhi | src/utils/sizhu.ts:112-147 | the month branch is MONTH_DIZHI, i.e. (month+10) mod 12, and the stem is (2*(year stem)+month+1) mod 10 |
| Sizhu.MonthGanZhiParity | sizhu-miniprogram/src/utils/sizhu.ts:68-103 | as written, the month pillar's stem and branch always have different parity, so it is never on the cycle |
| Sizhu.DaysSince1900 | src/utils/sizhu.ts:154-155 | the floored day difference from 1900-01-01 is the difference of day numbers |
| Sizhu.DayGanZhi | src/utils/sizhu.ts:152-165 | the day pillar is the cycle pillar at (days since 1900) + 36 |
| Sizhu.DayGanZhiBase | sizhu-miniprogram/src/utils/sizhu.ts:108-121 | 1900-01-01 is 庚子 |
| Sizhu.DayGanZhiStep | src/utils/sizhu.ts:152-165 | the next day is the next pillar, 60 days on is the same pillar, and parity always matches |
| Sizhu.HourTianStart | src/utils/sizhu.ts:182-204 | the five-rat rule: the 子 hour's stem is 2*(day stem) mod 10, and 甲 for an unknown day stem |
| Sizhu.ScanShichenHour | src/utils/sizhu.ts:174-179 | the scan over hours 0 to 23 finds the table's branch for the hour |
| Sizhu.HourGanZhi | src/utils/sizhu.ts:170-212 | the hour branch is the table's, the stem is 2*(day stem)+branch mod 10, and the parity matches |
| Sizhu.MiniHourPillar | sizhu-miniprogram/src/utils/sizhu.ts:126-168 | the branch is the traditional double hour, the stem counts from 甲, 丙, 戊, 庚 or 壬 by the day stem modulo five, and the parity matches |
| Sizhu.ParseText | src/utils/sizhu.ts:219-224 | parsing a pillar's text gives back its stem and branch |
| Sizhu.Assemble | src/utils/sizhu.ts:226-264 | each pillar gets its sound, its phase in the month branch and that phase's level |
| Sizhu.CalculateSizhuWithLunar | src/utils/sizhu.ts:217-264 | the chart is assembled from the first and second characters of each pillar text; `birthYear` is the clock's year and `lunarInfo` is handed back unchanged |
| Sizhu.WithLunarUnknownMonth | src/utils/sizhu.ts:232-238 | without a month branch every phase is 未知 and every level weak |
| Sizhu.CalculateSizhu | sizhu-miniprogram/src/utils/sizhu.ts:224-268 | the chart of the year, month, day and hour pillars of the date; all four have a known sound and phase |
| Sizhu.PillarKnown | sizhu-miniprogram/src/utils/sizhu.ts:173-219 | every in-range pillar has a known sound, and a known phase in every month branch |
| Chart.TianganForDizhi | src/utils/sizhu.ts:368-380 | the stem given to a branch is the one whose cycle pillar has that branch as its position |
| Chart.PalaceAt | src/utils/sizhu.ts:387-406 | a palace on a branch is that cycle pillar, with its sound, its phase in the month branch and its level |
| Chart.Minggong | src/utils/sizhu.ts:387-406 | the life palace sits on branch (14 - month - hour) mod 12 |
| Chart.Shengong | src/utils/sizhu.ts:412-428 | the body palace sits on branch (month + hour) mod 12 |
| Chart.Taigong | src/utils/sizhu.ts:434-450 | the conception palace sits on branch (day + month + 1) mod 12 |
| Chart.PalacesBalance | src/utils/sizhu.ts:387-428 | the life and body palace branches always add up to 2 mod 12 |
| Chart.ShunxingByIndex | src/utils/sizhu.ts:464-469 | forward counting is a male with a yang year stem or a female with a yin one |
| Chart.Qiyun | src/utils/sizhu.ts:459-502 | the day count is to the next term going forward and from the previous term going backward; three days make a year and one day four months |
| Chart.QiyunYearsMonotone | src/utils/sizhu.ts:485-492 | more days to the term never gives an earlier start age |
| Chart.DayunContiguous | src/utils/sizhu.ts:533-560 | each luck period lasts ten years and begins the year after the previous one ends |
| Chart.DayunNeighbours | src/utils/sizhu.ts:533-560 | the i-th luck pillar is the month pillar moved i+1 steps forward or backward round the cycle |
| Chart.DayunFrom | src/utils/sizhu.ts:533-560 | the loop builds exactly the ten luck entries |
| Chart.Dayun | src/utils/sizhu.ts:511-563 | ten entries, in the direction and from the start age of the start-age calculation |
| Chart.YearGanZhiNext | src/utils/sizhu.ts:571-604 | each year's pillar is the previous year's moved one step |
| Chart.Liunian | src/utils/sizhu.ts:571-604 | count entries (10 unless given, none for a count below 1), each with its year, age and year pillar |
| SimpleSizhu.YearPillarAgrees | sizhu-miniprogram/src/utils/sizhu-simple.js:24-35 | the calculator's year pillar is the web app's, and 1984 is 甲子 |
| SimpleSizhu.SimpleMonthParity | sizhu-miniprogram/src/utils/sizhu-simple.js:38-48 | this month pillar always has matching parity |
| SimpleSizhu.MonthFrom | sizhu-miniprogram/src/utils/sizhu-simple.js:38-48 | for a month from 1 it is the intended month pillar; below -1 the branch reads past the array |
| SimpleSizhu.MonthPillarSpelled | sizhu-miniprogram/src/utils/sizhu-simple.js:38-48 | from the first month on, the month pillar is the intended one |
| SimpleSizhu.YearPillar | sizhu-miniprogram/src/utils/sizhu-simple.js:24-35 | the cycle pillar (year − 1984) steps from 甲子, for years before 1984 as well |
| SimpleSizhu.MonthPillar | sizhu-miniprogram/src/utils/sizhu-simple.js:38-48 | the month pillar counted from the year pillar's stem |
| SimpleSizhu.DaysSince1900Agrees | sizhu-miniprogram/src/utils/sizhu-simple.js:51-62 | the calculator's day count is the day-number difference in the constructor's year, and the web app's outside the years 0..99 |
| SimpleSizhu.RecentYearKept | sizhu-miniprogram/src/utils/sizhu-simple.js:51-53 | a date no more than ten days before 1900 keeps its year in the Date constructor |
| SimpleSizhu.DayPillar | sizhu-miniprogram/src/utils/sizhu-simple.js:51-62 | the cycle pillar at days + 10 from 1899-12-22 on; earlier dates can read an undefined stem |
| SimpleSizhu.DayFrom | sizhu-miniprogram/src/utils/sizhu-simple.js:51-62 | from a day count n with n + 10 >= 0 the cycle pillar at n + 10; for smaller counts the stem reads undefined unless n + 10 is a multiple of 10 |
| SimpleSizhu.DayPillarBase | sizhu-miniprogram/src/utils/sizhu-simple.js:51-62 | 1900-01-01 is 甲戌 here |
| SimpleSizhu.DayPillarVsWebApp | sizhu-miniprogram/src/utils/sizhu-simple.js:51-62 | the calculator's day pillar is the web app's moved 26 steps back, never the same pillar |
| SimpleSizhu.ShichenIndex | sizhu-miniprogram/src/utils/sizhu-simple.js:8-21 | the table is the web app's for each hour, and 子 for any other hour |
| SimpleSizhu.HourFrom | sizhu-miniprogram/src/utils/sizhu-simple.js:65-74 | the five-rat hour pillar for a known day stem; for an undefined day stem, the stem is undefined exactly in the first two branches |
| SimpleSizhu.HourPillar | sizhu-miniprogram/src/utils/sizhu-simple.js:65-74 | the hour pillar from the double hour and the index of the day stem text |
| SimpleSizhu.HourPillarOfStem | sizhu-miniprogram/src/utils/sizhu-simple.js:65-74 | given a day stem, the hour pillar is the five-rat pillar |
| SimpleSizhu.SimpleHourParity | sizhu-miniprogram/src/utils/sizhu-simple.js:65-74 | the hour pillar always has matching parity |
| SimpleSizhu.CalculateSizhu | sizhu-miniprogram/src/utils/sizhu-simple.js:77-103 | the fixed fallback chart exactly when there is no minute; otherwise a chart with the 公历计算 caption |
| SimpleSizhu.ChartYearMonth | sizhu-miniprogram/src/utils/sizhu-simple.js:77-103 | the year and month fields are the texts of the year and month pillars |
| SimpleSizhu.ChartDayHour | sizhu-miniprogram/src/utils/sizhu-simple.js:77-103 | the day and hour fields are the texts of the day pillar and its five-rat hour pillar |
| SimpleSizhu.ChartParity | sizhu-miniprogram/src/utils/sizhu-simple.js:77-103 | every pillar of such a chart has matching parity |
| LunarCalendar.LeapMonth | sizhu-miniprogram/src/utils/lunarCalendar.ts:78-80 | the leap month is the low four bits, 0 to 15 |
| LunarCalendar.LeapDays | sizhu-miniprogram/src/utils/lunarCalendar.ts:68-73 | 0 exactly when there is no leap month; otherwise 29 or 30 |
| LunarCalendar.LeapDaysBit | sizhu-miniprogram/src/utils/lunarCalendar.ts:68-73 | 30 exactly when there is a leap month and bit 16 is set |
| LunarCalendar.MonthDays | sizhu-miniprogram/src/utils/lunarCalendar.ts:85-88 | -1 exactly for a month outside 1..12; otherwise 29 or 30 |
| LunarCalendar.MonthDaysBit | sizhu-miniprogram/src/utils/lunarCalendar.ts:85-88 | month m has 30 days exactly when bit 16-m is set |
| LunarCalendar.YearDaysRange | sizhu-miniprogram/src/utils/lunarCalendar.ts:57-63 | a lunar year has 348 to 390 days |
| LunarCalendar.LunarYearDays | sizhu-miniprogram/src/utils/lunarCalendar.ts:57-63 | the bit loop adds 348 and one day per long month and the leap month's days |
| LunarCalendar.ScanYears | sizhu-miniprogram/src/utils/lunarCalendar.ts:106-114 | the year loop stops in 1900..2100, leaving what remains after the whole years before it, and that remainder is inside the year |
| LunarCalendar.ScanMonths | sizhu-miniprogram/src/utils/lunarCalendar.ts:117-141 | the month loop subtracts whole months and the leap month in order; a leap result is the leap month with fewer days left than it has |
| LunarCalendar.LeapMonthRecounted | sizhu-miniprogram/src/utils/lunarCalendar.ts:117-141 | in the year of word 0x5b52 (2023), the fifth day of the third month is reported as the fifth day of the leap second month |
| LunarCalendar.OffsetToLunar | sizhu-miniprogram/src/utils/lunarCalendar.ts:100-153 | the lunar date lies in 1900..2100, its names are the tables', a leap month is the year's leap month (1..11), and the day fits its month; a positive offset is exactly the days of the years before, the months before (with some number of passes over the leap month) and the days before in the month, and falls before the next year below 2100 |
| LunarCalendar.SolarToLunarAccurate | sizhu-miniprogram/src/utils/lunarCalendar.ts:93-154 | the same properties for the day offset of a civil date (two-digit years read as 19xx); 1900-01-31 is the first day of 正月 of 1900, and earlier dates stay in that month |
| LunarCalendar.MonthName | sizhu-miniprogram/src/utils/lunarCalendar.ts:33-36 | a name exactly for months 1..12 (undefined for the 13th) |
| LunarCalendar.DayName | sizhu-miniprogram/src/utils/lunarCalendar.ts:39-43 | the table's name for days 1..30, otherwise the number as text |
| LunarCalendar.FormatLunarInfo | sizhu-miniprogram/src/utils/lunarCalendar.ts:159-162 | the text begins with 农历 |
| LunarCalendar.FormatLunarInfoLeap | sizhu-miniprogram/src/utils/lunarCalendar.ts:159-162 | a leap month only inserts 闰 after the year |
| Lunar.MonthNameOr | src/utils/lunar.ts:109 | the table's name for months 1..12, otherwise the number followed by 月 |
| Lunar.SolarToLunarSimple | src/utils/lunar.ts:71-114 | no leap and no sexagenary names; the month goes back one (or two before the 11th) and the day back 10 (or on 20); a real date lands on a month 1..12, a day 1..30 and the same or the previous year |
| Lunar.SolarToLunar | src/utils/lunar.ts:28-66 | the fallback when the library is missing or throws; otherwise the library's date and 干支 fields, leap exactly when the library's month is negative, with the month's magnitude |
| Lunar.LeapOnlyFromLibrary | src/utils/lunar.ts:28-66 | a leap month can only come from the library |
| Lunar.FormatLunarDate | src/utils/lunar.ts:178-193 | the text begins with 农历 |
| Lunar.FormatLunarDateLeap | src/utils/lunar.ts:178-181 | a leap month only inserts 闰 after the year |
| Taisui.ShenshaIndex | src/utils/taisui.ts:62 | the index is the forward distance from the year branch to the target, 0..11 |
| Taisui.TaisuiShensha | src/utils/taisui.ts:53-64 | 未知 unless both are branches; otherwise the spirit at that distance |
| Taisui.SpiritAtDistance | src/utils/taisui.ts:10-13 | the branch k places after the year branch meets the k-th spirit |
| Taisui.SameBranchTaisui | src/utils/taisui.ts:53-64 | the year's own branch meets 太岁 |
| Taisui.OppositeBranchSuipo | src/utils/taisui.ts:53-64 | the opposite branch meets 岁破 |
| Taisui.ShenshaJixiong | src/utils/taisui.ts:69-71 | the table's verdict for a spirit, 凶 for any other string |
| Taisui.JiSpirits | src/utils/taisui.ts:16-29 | exactly 太阳, 太阴, 龙德 and 福德 are auspicious |
| Taisui.ShenshaDesc | src/utils/taisui.ts:76-78 | the table's sentence for a spirit, empty for any other string |
| Taisui.CalculateTaisuiShensha | src/utils/taisui.ts:89-99 | the spirit with its verdict and sentence; 未知, 凶 and empty when an input is not a branch |
| Taisui.CalculateAllTaisuiShensha | src/utils/taisui.ts:104-114 | one result per entry in order; a missing or empty entry gives the placeholder |
| Shensha.IsYima | src/utils/shensha.ts:75-77 | holds only for a branch base and a branch target, and the horse is opposite a member of the base's trine |
| Shensha.IsYangren | src/utils/shensha.ts:82-84 | holds only for a stem and a branch, and exactly for the branch right after the stem's salary |
| Shensha.IsLu | src/utils/shensha.ts:89-91 | holds only for a stem and a branch |
| Shensha.IsTianyi | src/utils/shensha.ts:96-99 | holds only for a stem and a branch, and never on 辰 or 戌 |
| Shensha.YimaOfTrine | src/utils/shensha.ts:14-19 | the three branches of a trine share one horse, and it is opposite a member of the trine |
| Shensha.YimaUnique | src/utils/shensha.ts:75-77 | a branch has exactly one horse, and a non-branch has none |
| Shensha.UnknownStem | src/utils/shensha.ts:82-99 | a string that is not a stem has no salary, blade or noble |
| Shensha.BladeFollowsSalary | src/utils/shensha.ts:25-53 | for every stem the blade is the branch right after the salary |
| Shensha.SalaryNotBlade | src/utils/shensha.ts:82-91 | no branch is both salary and blade for one day stem |
| Shensha.TianyiDistinct | src/utils/shensha.ts:59-70 | every stem has two different noble branches |
| Shensha.TianyiBranches | src/utils/shensha.ts:96-99 | a stem's noble branches are exactly the two in its row |
| Shensha.GetShenshaForDizhi | src/utils/shensha.ts:112-129 | the four flags are the four checks, and the labels are exactly the flags that hold, each once, in the order 贵, 禄, 马, 刃 |
| Shensha.PushLabels | src/utils/shensha.ts:122-126 | the pushes give exactly the labels of the flags that hold, in order |
| Shensha.PushIf | src/utils/shensha.ts:123-126 | a conditional push adds the label exactly when the flag holds and keeps the order |
| Shensha.ShenshaClass | src/utils/shensha.ts:134-140 | the first flag that holds in the order tianyi, lu, yima, yangren, or empty when none does |
| Shensha.ClassOfFirstLabel | src/utils/shensha.ts:112-140 | the class is the class of the first label, and empty exactly when there are no labels |
| SizhuReverse.CheckGanzhiCycle | src/utils/sizhuReverse.ts:154-160 | the check passes exactly for a stem and branch that form one of the sixty cycle pillars |
| SizhuReverse.IsValidSizhuCycle | src/utils/sizhuReverse.ts:153-168 | a chart is valid exactly when each of its four pillars is one of the sixty cycle pillars |
| SizhuReverse.HourFromDizhi | src/utils/sizhuReverse.ts:34-52 | a branch gives twice its index as the hour; any other string gives 12 |
| SizhuReverse.HourDizhi | src/utils/sizhuReverse.ts:67-72 | undefined exactly outside -1..23; otherwise the branch whose double hour contains the hour |
| SizhuReverse.HourRoundTrip | src/utils/sizhuReverse.ts:34-72 | the branch of the hour of a branch is that branch; a non-branch comes back as 午 |
| SizhuReverse.FormatSolarDate | src/utils/sizhuReverse.ts:57-62 | the text is at least 13 characters long |
| SizhuReverse.FormatSolarDateFields | src/utils/sizhuReverse.ts:57-62 | after the year come 年, two digits of the month, 月, two of the day, 日 and a space, two of the hour, and :00 |
| SizhuReverse.LunarString | src/utils/sizhuReverse.ts:77-86 | empty exactly when the lookup throws; otherwise it begins with 农历 and ends with 时 |
| SizhuReverse.MonthLengthGregorian | src/utils/sizhuReverse.ts:108 | the month length used is the Gregorian one, except that year 0 is read as 1900 |
| SizhuReverse.KeyOrder | src/utils/sizhuReverse.ts:104-110 | the search key orders valid dates as the calendar does |
| SizhuReverse.SizhuToSolar | src/utils/sizhuReverse.ts:95-148 | over the years 1801..2099 unless given, every result is a visited date in range whose chart at the branch's hour equals the input, results are in strictly increasing date order, and every such date is found |

## Left out

- lunarToSolar, getLunarGanZhi and isValidLunarDate (src/utils/lunar.ts:119-173 and 198-207): they only forward to the lunar-javascript library, which is not part of this model.
- getJieqiTimeline (src/utils/jieqi.ts): it is built on the library's solar-term table, which is not part of this model.
- The web app's calculateSizhu (src/utils/sizhu.ts:269-360): it reads the pillars from the library's eight-character object, so only its assembly steps (palaces, start age, luck and yearly pillars) are modelled in `Chart`.
- src/utils/nayin.ts is not part of this model; the web app's sound lookup is the parameter `nayinOf`.
- Time zones and daylight saving are left out: a `Date` is a civil date-time, and `getTime()` differences are whole minutes.
- `new Date()` is a parameter: `now` fills the term searches' placeholder, and `clockYear` is the web app's `birthYear` in `calculateSizhuWithLunar`.
- A `Date` object that a caller passes in (to the `Sizhu`, `Chart` and `Jieqi` functions) is taken as the real date-time it stands for; how the caller built it is not modelled. Where a year reaches the `Date` constructor as a number, its reading of years 0..99 as 1900..1999 is modelled (`Civil.ConstructorDay`, and through it `SimpleSizhu.DaysSince1900`, `LunarCalendar.Offset`, `Jieqi.JieqiDate` and `SizhuReverse.MonthLength`).
- Table lookups with a key such as `constructor` or `toString`, which JavaScript would find on the object's prototype, are not modelled: a key that is not a stem or branch finds nothing.
- Numbers are integers; fractional or NaN arguments are not modelled.
- The lunar-year table is 201 packed words; the model takes the word as an argument (`Info`), and the accessors are stated over any word.
- SizhuReverse.SizhuToSolar: the chart and lunar lookups are parameters (`chartOf`, `lunarOf`), so the contract states the search against whatever the library computes, not against this model's own pillars.
- Sizhu.CalculateSizhu: the hour pillar of the mini-program uses its own hour table (`MiniHourPillar`).
- LunarCalendar.FormatLunarInfo and Lunar.FormatLunarDate: the ensures state only the 农历 prefix; the layout after it is stated by the 闰 lemmas beside them.
