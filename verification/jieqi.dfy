/** The twenty-four solar terms on fixed approximate civil dates, the search
    for the nearest term before and after a moment, and the texts that
    describe how many days lie between them. */
module Jieqi {
  import opened JsRuntime
  import opened Civil

  /** The term names, 立春 first: name `i` is the `i`-th character of
      NameFirst followed by the `i`-th character of NameSecond. */
  const NameFirst: string := "立雨惊春清谷立小芒夏小大立处白秋寒霜立小大冬小大"
  const NameSecond: string := "春水蛰分明雨夏满种至暑暑秋暑露分露降冬雪雪至寒寒"

  /** `JIEQI_NAMES[i]`. */
  function Name(i: int): (s: string)
    requires 0 <= i < 24
    ensures |s| == 2
  {
    [NameFirst[i], NameSecond[i]]
  }

  /** The month and day of each term in a common year. */
  const TermMonth: seq<int> := [2, 2, 3, 3, 4, 4, 5, 5, 6, 6, 7, 7, 8, 8, 9, 9, 10, 10, 11, 11, 12, 12, 1, 1]
  const TermDay: seq<int> := [4, 19, 6, 21, 5, 20, 6, 21, 6, 22, 7, 23, 8, 23, 8, 23, 8, 24, 8, 22, 7, 22, 6, 20]

  lemma TermTable(i: int)
    requires 0 <= i < 24
    ensures 1 <= TermMonth[i] <= 12 && 1 <= TermDay[i] <= 24
    ensures i < 22 <==> TermMonth[i] >= 2
  {
  }

  /** `calculateJieqiDate(year, i)`: midnight of the term's date; 小寒 and
      大寒 (22 and 23) are taken in January of the following year. The year
      reaches the `Date` constructor as a number, so years 0..99 land in
      1900..1999. */
  function JieqiDate(year: int, i: int): (d: DateTime)
    requires 0 <= i < 24
    ensures d.Valid() && d.hour == 0 && d.minute == 0
  {
    TermTable(i);
    var y := ConstructorYear(if i >= 22 then year + 1 else year);
    Midnight(y, TermMonth[i], TermDay[i])
  }

  /** Terms 0..21 fall in February to December of the given year, terms 22
      and 23 in January of the next, each year as the constructor reads it;
      a term never falls in a year before the one asked for. */
  lemma JieqiYear(year: int, i: int)
    requires 0 <= i < 24
    ensures i < 22 ==> JieqiDate(year, i).year == ConstructorYear(year) && JieqiDate(year, i).month >= 2
    ensures i >= 22 ==> JieqiDate(year, i).year == ConstructorYear(year + 1) && JieqiDate(year, i).month == 1
    ensures JieqiDate(year, i).year >= year
  {
    TermTable(i);
  }

  /** The table lists the terms in calendar order, and the year's last term
      comes before the next year's first; the one break is year 99, whose
      冬至 lands in 1999 and its 小寒 in the year 100. */
  lemma JieqiChronological(year: int, i: int)
    requires 0 <= i < 24
    ensures i < 23 && !(i == 21 && year == 99) ==> JieqiDate(year, i).Instant() < JieqiDate(year, i + 1).Instant()
    ensures i == 23 ==> JieqiDate(year, i).Instant() < JieqiDate(year + 1, 0).Instant()
    ensures i == 21 && year == 99 ==> JieqiDate(year, i + 1).Instant() < JieqiDate(year, i).Instant()
  {
    var a := JieqiDate(year, i);
    var b := if i < 23 then JieqiDate(year, i + 1) else JieqiDate(year + 1, 0);
    if i < 21 {
      TermsAscend(i);
      InstantOrder(a, b);
    } else if i == 21 && year == 99 {
      assert b.year == 100 && a.year == 1999;
      InstantOrder(b, a);
    } else {
      assert a.year < b.year || a.month < b.month || a.day < b.day;
      InstantOrder(a, b);
    }
  }

  /** Within February to December the table's dates increase. */
  lemma TermsAscend(i: int)
    requires 0 <= i < 21
    ensures TermMonth[i] < TermMonth[i + 1] || (TermMonth[i] == TermMonth[i + 1] && TermDay[i] < TermDay[i + 1])
  {
  }

  /** The source's `JieqiInfo`. */
  datatype JieqiInfo = JieqiInfo(name: string, date: DateTime, daysDiff: int)

  /** A term the searches look at: its name, its date and that date's
      instant. */
  datatype Term = Term(name: string, date: DateTime, time: int)

  function TermAt(year: int, i: int): (c: Term)
    requires 0 <= i < 24
    ensures c.date.Valid() && c.time == c.date.Instant() && |c.name| == 2
  {
    var d := JieqiDate(year, i);
    Term(Name(i), d, d.Instant())
  }

  /** The 24 terms of `calculateJieqiDate(year, i)` for i = 0..23. */
  function YearTerms(year: int): (s: seq<Term>)
    ensures |s| == 24
  {
    seq(24, i requires 0 <= i < 24 => TermAt(year, i))
  }

  lemma YearTermsAt(year: int, j: int)
    requires 0 <= j < 24
    ensures YearTerms(year)[j] == TermAt(year, j)
  {
  }

  /** The terms the backward search's loops have visited after `n` passes
      of the outer loop: year offset 0, then -1. */
  function PrevWindow(year: int, n: int): (s: seq<Term>)
    requires 0 <= n <= 2
    ensures |s| == 24 * n
  {
    if n == 0 then [] else PrevWindow(year, n - 1) + YearTerms(year - (n - 1))
  }

  /** The terms the forward search's loops have visited after `n` passes of
      the outer loop: year offset 0, then +1. */
  function NextWindow(year: int, n: int): (s: seq<Term>)
    requires 0 <= n <= 2
    ensures |s| == 24 * n
  {
    if n == 0 then [] else NextWindow(year, n - 1) + YearTerms(year + (n - 1))
  }

  /** Term `i` of the target's year or of the year before has a place in
      the backward window. */
  lemma PrevWindowAt(year: int, y: int, i: int) returns (k: int)
    requires year - 1 <= y <= year && 0 <= i < 24
    ensures 0 <= k < 48 && PrevWindow(year, 2)[k] == TermAt(y, i)
  {
    if y == year {
      k := i;
    } else {
      k := 24 + i;
    }
    YearTermsAt(y, i);
  }

  /** Every place in the backward window holds a term of the target's year
      or of the year before. */
  lemma PrevWindowTerm(year: int, k: int) returns (y: int, i: int)
    requires 0 <= k < 48
    ensures year - 1 <= y <= year && 0 <= i < 24 && PrevWindow(year, 2)[k] == TermAt(y, i)
  {
    if k < 24 {
      y, i := year, k;
    } else {
      y, i := year - 1, k - 24;
    }
    YearTermsAt(y, i);
  }

  /** Term `i` of the target's year or of the year after has a place in the
      forward window. */
  lemma NextWindowAt(year: int, y: int, i: int) returns (k: int)
    requires year <= y <= year + 1 && 0 <= i < 24
    ensures 0 <= k < 48 && NextWindow(year, 2)[k] == TermAt(y, i)
  {
    if y == year {
      k := i;
    } else {
      k := 24 + i;
    }
    YearTermsAt(y, i);
  }

  /** Every place in the forward window holds a term of the target's year or
      of the year after. */
  lemma NextWindowTerm(year: int, k: int) returns (y: int, i: int)
    requires 0 <= k < 48
    ensures year <= y <= year + 1 && 0 <= i < 24 && NextWindow(year, 2)[k] == TermAt(y, i)
  {
    if k < 24 {
      y, i := year, k;
    } else {
      y, i := year + 1, k - 24;
    }
    YearTermsAt(y, i);
  }

  /** The loop state of a search: the smallest distance so far (None stands
      for `Infinity`) and the term it belongs to. */
  datatype Scan = Scan(minDiff: Option<int>, closest: JieqiInfo)

  /** The state before the first term is looked at; `now` is the moment
      `new Date()` reads. */
  function Initial(now: DateTime): Scan
  {
    Scan(None, JieqiInfo("", now, 0))
  }

  /** Whether a term at `time` takes part: the backward search takes terms
      at or before the target, the forward search terms strictly after it. */
  predicate Counts(forward: bool, target: int, time: int)
  {
    if forward then time > target else time <= target
  }

  /** The distance the searches minimise. */
  function Distance(forward: bool, target: int, time: int): int
  {
    if forward then time - target else target - time
  }

  /** One inner-loop step: a term that takes part and is strictly closer
      than the best so far replaces it, with its distance in whole days. */
  function Step(forward: bool, target: int, s: Scan, c: Term): Scan
  {
    if Counts(forward, target, c.time) then
      var diff := Distance(forward, target, c.time);
      if s.minDiff.None? || diff < s.minDiff.value then
        Scan(Some(diff), JieqiInfo(c.name, c.date, diff / 1440))
      else s
    else s
  }

  /** The state after the loops have visited `terms` in order. */
  function Search(forward: bool, target: int, terms: seq<Term>, init: Scan): Scan
  {
    if |terms| == 0 then init
    else Step(forward, target, Search(forward, target, terms[..|terms| - 1], init), terms[|terms| - 1])
  }

  lemma SearchPrefix(forward: bool, target: int, terms: seq<Term>, k: int, init: Scan)
    requires 0 <= k < |terms|
    ensures Search(forward, target, terms[..k + 1], init)
         == Step(forward, target, Search(forward, target, terms[..k], init), terms[k])
  {
    assert terms[..k + 1][..k] == terms[..k];
  }

  /** Visiting `a` and then `b` is visiting `b` from where `a` left off. */
  lemma {:induction false} SearchAppend(forward: bool, target: int, a: seq<Term>, b: seq<Term>, init: Scan)
    ensures Search(forward, target, a + b, init) == Search(forward, target, b, Search(forward, target, a, init))
    decreases |b|
  {
    if |b| == 0 {
      assert a + b == a;
    } else {
      var n := |b| - 1;
      assert (a + b)[..|a + b| - 1] == a + b[..n];
      SearchAppend(forward, target, a, b[..n], init);
    }
  }

  /** One more pass of the backward search's outer loop continues the
      search through the year `passes` years before the target's. */
  lemma PrevPass(target: int, year: int, passes: int, checkYear: int, init: Scan)
    requires 0 <= passes < 2 && checkYear == year - passes
    ensures Search(false, target, PrevWindow(year, passes + 1), init)
         == Search(false, target, YearTerms(checkYear), Search(false, target, PrevWindow(year, passes), init))
  {
    if passes == 0 {
      assert PrevWindow(year, 1) == PrevWindow(year, 0) + YearTerms(year);
    } else {
      assert PrevWindow(year, 2) == PrevWindow(year, 1) + YearTerms(year - 1);
    }
    SearchAppend(false, target, PrevWindow(year, passes), YearTerms(checkYear), init);
  }

  /** One more pass of the forward search's outer loop continues the search
      through the year `passes` years after the target's. */
  lemma NextPass(target: int, year: int, passes: int, checkYear: int, init: Scan)
    requires 0 <= passes < 2 && checkYear == year + passes
    ensures Search(true, target, NextWindow(year, passes + 1), init)
         == Search(true, target, YearTerms(checkYear), Search(true, target, NextWindow(year, passes), init))
  {
    if passes == 0 {
      assert NextWindow(year, 1) == NextWindow(year, 0) + YearTerms(year);
    } else {
      assert NextWindow(year, 2) == NextWindow(year, 1) + YearTerms(year + 1);
    }
    SearchAppend(true, target, NextWindow(year, passes), YearTerms(checkYear), init);
  }

  /** What a search holds after visiting `terms`: nothing found exactly when
      no term takes part, and otherwise a term that takes part and that no
      other such term is closer than. */
  lemma {:induction false} SearchBest(forward: bool, target: int, terms: seq<Term>, init: Scan)
    requires init.minDiff.None?
    ensures var s := Search(forward, target, terms, init);
      (s.minDiff.None? <==> forall k :: 0 <= k < |terms| ==> !Counts(forward, target, terms[k].time))
      && (s.minDiff.None? ==> s == init)
      && (s.minDiff.Some? ==>
            (exists k :: 0 <= k < |terms| && Counts(forward, target, terms[k].time)
              && s.minDiff.value == Distance(forward, target, terms[k].time)
              && s.closest == JieqiInfo(terms[k].name, terms[k].date, s.minDiff.value / 1440))
            && forall k :: 0 <= k < |terms| && Counts(forward, target, terms[k].time) ==>
                 s.minDiff.value <= Distance(forward, target, terms[k].time))
  {
    if |terms| > 0 {
      var n := |terms| - 1;
      var front := terms[..n];
      SearchBest(forward, target, front, init);
      assert forall k :: 0 <= k < n ==> front[k] == terms[k];
      var s := Search(forward, target, front, init);
      var c := terms[n];
      if Counts(forward, target, c.time) {
        var diff := Distance(forward, target, c.time);
        if s.minDiff.None? || diff < s.minDiff.value {
          assert Search(forward, target, terms, init).closest == JieqiInfo(c.name, c.date, diff / 1440);
        }
      }
    }
  }

  /** A search in which some term takes part settles on one of them, and no
      other term that takes part is closer. */
  lemma SearchPick(forward: bool, target: int, terms: seq<Term>, init: Scan, w: int) returns (k: int)
    requires init.minDiff.None? && 0 <= w < |terms| && Counts(forward, target, terms[w].time)
    ensures 0 <= k < |terms| && Counts(forward, target, terms[k].time)
    ensures Search(forward, target, terms, init).closest
         == JieqiInfo(terms[k].name, terms[k].date, Distance(forward, target, terms[k].time) / 1440)
    ensures forall j :: 0 <= j < |terms| && Counts(forward, target, terms[j].time) ==>
              Distance(forward, target, terms[k].time) <= Distance(forward, target, terms[j].time)
  {
    SearchBest(forward, target, terms, init);
    var s := Search(forward, target, terms, init);
    k :| 0 <= k < |terms| && Counts(forward, target, terms[k].time)
      && s.minDiff.value == Distance(forward, target, terms[k].time)
      && s.closest == JieqiInfo(terms[k].name, terms[k].date, s.minDiff.value / 1440);
  }

  /** Whether some term of the target's year or of the year before lies at
      or before the target, so that the backward search has one to take. */
  predicate HasPreviousTerm(t: DateTime)
    requires t.Valid()
  {
    exists y, i :: t.year - 1 <= y <= t.year && 0 <= i < 24 && JieqiDate(y, i).Instant() <= t.Instant()
  }

  /** Outside the years 1..100, 冬至 of the previous year is before every
      moment of the target's year, so the backward search has a term. */
  lemma PreviousTermExists(t: DateTime)
    requires t.Valid() && !(1 <= t.year <= 100)
    ensures HasPreviousTerm(t)
  {
    var d := JieqiDate(t.year - 1, 21);
    assert d.year == t.year - 1;
    InstantOrder(d, t);
  }

  /** In the years 1..99 every term the backward search looks at lands in
      1900 or later, after the target, so it finds none. */
  lemma NoPreviousTermInEarlyYears(t: DateTime)
    requires t.Valid() && 1 <= t.year <= 99
    ensures !HasPreviousTerm(t)
  {
    forall y, i | t.year - 1 <= y <= t.year && 0 <= i < 24
      ensures JieqiDate(y, i).Instant() > t.Instant()
    {
      var d := JieqiDate(y, i);
      JieqiYear(y, i);
      assert d.year > t.year;
      InstantOrder(t, d);
    }
  }

  /** A term that takes part in the backward search has a place in its
      window. */
  lemma PrevWindowHasTerm(t: DateTime) returns (w: int)
    requires t.Valid() && HasPreviousTerm(t)
    ensures 0 <= w < 48 && Counts(false, t.Instant(), PrevWindow(t.year, 2)[w].time)
  {
    var y, i :| t.year - 1 <= y <= t.year && 0 <= i < 24 && JieqiDate(y, i).Instant() <= t.Instant();
    w := PrevWindowAt(t.year, y, i);
  }

  /** Without a term to take, the backward search returns its placeholder:
      no name, the clock's moment and no days. */
  lemma PreviousJieqiPlaceholder(t: DateTime, now: DateTime)
    requires t.Valid() && !HasPreviousTerm(t)
    ensures PrevSearch(t, now) == JieqiInfo("", now, 0)
  {
    var terms := PrevWindow(t.year, 2);
    forall k | 0 <= k < 48 ensures !Counts(false, t.Instant(), terms[k].time) {
      var y, i := PrevWindowTerm(t.year, k);
    }
    SearchBest(false, t.Instant(), terms, Initial(now));
  }

  /** A target in the year 50 has no previous term: the search returns the
      placeholder, and its text is empty. */
  lemma PreviousJieqiYear50(now: DateTime)
    ensures PrevSearch(DateTime(50, 6, 1, 0, 0), now).name == ""
  {
    var t := DateTime(50, 6, 1, 0, 0);
    NoPreviousTermInEarlyYears(t);
    PreviousJieqiPlaceholder(t, now);
  }

  /** 小寒 of the next January is after every moment of the target's year, so
      the forward search always has a term to take. */
  lemma NextWindowHasTerm(t: DateTime) returns (w: int)
    requires t.Valid()
    ensures 0 <= w < 48 && Counts(true, t.Instant(), NextWindow(t.year, 2)[w].time)
  {
    w := NextWindowAt(t.year, t.year, 22);
    var d := JieqiDate(t.year, 22);
    JieqiYear(t.year, 22);
    InstantOrder(t, d);
  }

  /** The backward search over the current and the previous year. */
  function PrevSearch(t: DateTime, now: DateTime): JieqiInfo
    requires t.Valid()
  {
    Search(false, t.Instant(), PrevWindow(t.year, 2), Initial(now)).closest
  }

  /** The forward search over the current and the next year. */
  function NextSearch(t: DateTime, now: DateTime): JieqiInfo
    requires t.Valid()
  {
    Search(true, t.Instant(), NextWindow(t.year, 2), Initial(now)).closest
  }

  /** What the backward search promises about its result `r` for the moment
      `t`: a named term of the previous or the current year at or before
      `t`, no term of those two years between it and `t`, and the whole
      calendar days from it to `t`. */
  predicate IsPreviousTerm(t: DateTime, r: JieqiInfo)
    requires t.Valid()
  {
    r.name != "" && r.date.Valid() && r.date.Instant() <= t.Instant()
    && (exists y, i :: t.year - 1 <= y <= t.year && 0 <= i < 24 && r.date == JieqiDate(y, i) && r.name == Name(i))
    && (forall y, i :: t.year - 1 <= y <= t.year && 0 <= i < 24 && JieqiDate(y, i).Instant() <= t.Instant() ==>
          JieqiDate(y, i).Instant() <= r.date.Instant())
    && r.daysDiff == t.Day() - r.date.Day() >= 0
  }

  /** What the forward search promises about its result `r` for the moment
      `t`: a named term of the current or the next year strictly after `t`,
      no term of those two years between `t` and it, and the whole days from
      `t` to it. */
  predicate IsNextTerm(t: DateTime, r: JieqiInfo)
    requires t.Valid()
  {
    r.name != "" && r.date.Valid() && r.date.Instant() > t.Instant()
    && (exists y, i :: t.year <= y <= t.year + 1 && 0 <= i < 24 && r.date == JieqiDate(y, i) && r.name == Name(i))
    && (forall y, i :: t.year <= y <= t.year + 1 && 0 <= i < 24 && JieqiDate(y, i).Instant() > t.Instant() ==>
          r.date.Instant() <= JieqiDate(y, i).Instant())
    && r.daysDiff == (r.date.Instant() - t.Instant()) / 1440 >= 0
  }

  /** The term the backward search settles on, as a position in its window. */
  lemma PrevPick(t: DateTime, now: DateTime) returns (k: int)
    requires t.Valid() && HasPreviousTerm(t)
    ensures 0 <= k < 48
    ensures var terms := PrevWindow(t.year, 2);
      Counts(false, t.Instant(), terms[k].time)
      && PrevSearch(t, now) == JieqiInfo(terms[k].name, terms[k].date, (t.Instant() - terms[k].time) / 1440)
      && forall j :: 0 <= j < 48 && Counts(false, t.Instant(), terms[j].time) ==> terms[j].time <= terms[k].time
  {
    var w := PrevWindowHasTerm(t);
    k := SearchPick(false, t.Instant(), PrevWindow(t.year, 2), Initial(now), w);
  }

  /** The term the forward search settles on, as a position in its window. */
  lemma NextPick(t: DateTime, now: DateTime) returns (k: int)
    requires t.Valid()
    ensures 0 <= k < 48
    ensures var terms := NextWindow(t.year, 2);
      Counts(true, t.Instant(), terms[k].time)
      && NextSearch(t, now) == JieqiInfo(terms[k].name, terms[k].date, (terms[k].time - t.Instant()) / 1440)
      && forall j :: 0 <= j < 48 && Counts(true, t.Instant(), terms[j].time) ==> terms[k].time <= terms[j].time
  {
    var w := NextWindowHasTerm(t);
    k := SearchPick(true, t.Instant(), NextWindow(t.year, 2), Initial(now), w);
  }

  /** The backward search reports a named term of the previous or the
      current year at or before the target. */
  lemma PreviousJieqiFound(t: DateTime, now: DateTime)
    requires t.Valid() && HasPreviousTerm(t)
    ensures var r := PrevSearch(t, now);
      r.name != "" && r.date.Valid() && r.date.Instant() <= t.Instant()
      && exists y, i :: t.year - 1 <= y <= t.year && 0 <= i < 24 && r.date == JieqiDate(y, i) && r.name == Name(i)
  {
    var k := PrevPick(t, now);
    var y, i := PrevWindowTerm(t.year, k);
    assert PrevSearch(t, now).date == JieqiDate(y, i) && PrevSearch(t, now).name == Name(i);
  }

  /** No term of the previous or the current year lies between the reported
      term and the target. */
  lemma PreviousJieqiLatest(t: DateTime, now: DateTime)
    requires t.Valid() && HasPreviousTerm(t)
    ensures var r := PrevSearch(t, now);
      r.date.Valid()
      && forall y, i :: t.year - 1 <= y <= t.year && 0 <= i < 24 && JieqiDate(y, i).Instant() <= t.Instant() ==>
           JieqiDate(y, i).Instant() <= r.date.Instant()
  {
    var k := PrevPick(t, now);
    var terms := PrevWindow(t.year, 2);
    var y0, i0 := PrevWindowTerm(t.year, k);
    forall y, i | t.year - 1 <= y <= t.year && 0 <= i < 24 && JieqiDate(y, i).Instant() <= t.Instant()
      ensures JieqiDate(y, i).Instant() <= terms[k].time
    {
      var j := PrevWindowAt(t.year, y, i);
    }
  }

  /** The reported day count is the number of calendar days from the term to
      the target, and 0 for the placeholder. */
  lemma PreviousJieqiDays(t: DateTime, now: DateTime)
    requires t.Valid()
    ensures var r := PrevSearch(t, now);
      r.daysDiff >= 0
      && (HasPreviousTerm(t) ==> r.date.Valid() && r.daysDiff == t.Day() - r.date.Day())
  {
    if HasPreviousTerm(t) {
      var k := PrevPick(t, now);
      var y, i := PrevWindowTerm(t.year, k);
      FlooredDayDifference(t, PrevWindow(t.year, 2)[k].date);
    } else {
      PreviousJieqiPlaceholder(t, now);
    }
  }

  /** getPreviousJieqi's promise holds of the backward search whenever a
      term of the two years lies at or before the target, which is so for
      every target outside the years 1..100; otherwise the placeholder comes
      back. */
  lemma PreviousJieqiCorrect(t: DateTime, now: DateTime)
    requires t.Valid()
    ensures HasPreviousTerm(t) ==> IsPreviousTerm(t, PrevSearch(t, now))
    ensures !HasPreviousTerm(t) ==> PrevSearch(t, now) == JieqiInfo("", now, 0)
    ensures !(1 <= t.year <= 100) ==> HasPreviousTerm(t)
  {
    if HasPreviousTerm(t) {
      PreviousJieqiFound(t, now);
      PreviousJieqiLatest(t, now);
      PreviousJieqiDays(t, now);
    } else {
      PreviousJieqiPlaceholder(t, now);
    }
    if !(1 <= t.year <= 100) {
      PreviousTermExists(t);
    }
  }

  /** The forward search reports a named term of the current or the next
      year strictly after the target. */
  lemma NextJieqiFound(t: DateTime, now: DateTime)
    requires t.Valid()
    ensures var r := NextSearch(t, now);
      r.name != "" && r.date.Valid() && r.date.Instant() > t.Instant()
      && exists y, i :: t.year <= y <= t.year + 1 && 0 <= i < 24 && r.date == JieqiDate(y, i) && r.name == Name(i)
  {
    var k := NextPick(t, now);
    var y, i := NextWindowTerm(t.year, k);
  }

  /** No term of the current or the next year lies between the target and
      the reported term. */
  lemma NextJieqiEarliest(t: DateTime, now: DateTime)
    requires t.Valid()
    ensures var r := NextSearch(t, now);
      r.date.Valid()
      && forall y, i :: t.year <= y <= t.year + 1 && 0 <= i < 24 && JieqiDate(y, i).Instant() > t.Instant() ==>
           r.date.Instant() <= JieqiDate(y, i).Instant()
  {
    var k := NextPick(t, now);
    var terms := NextWindow(t.year, 2);
    var y0, i0 := NextWindowTerm(t.year, k);
    forall y, i | t.year <= y <= t.year + 1 && 0 <= i < 24 && JieqiDate(y, i).Instant() > t.Instant()
      ensures terms[k].time <= JieqiDate(y, i).Instant()
    {
      var j := NextWindowAt(t.year, y, i);
    }
  }

  /** The reported day count is the whole days from the target to the term. */
  lemma NextJieqiDays(t: DateTime, now: DateTime)
    requires t.Valid()
    ensures var r := NextSearch(t, now);
      r.date.Valid() && r.daysDiff == (r.date.Instant() - t.Instant()) / 1440 >= 0
  {
    var k := NextPick(t, now);
    var y, i := NextWindowTerm(t.year, k);
  }

  /** getNextJieqi's promise holds of the forward search. */
  lemma NextJieqiCorrect(t: DateTime, now: DateTime)
    requires t.Valid()
    ensures IsNextTerm(t, NextSearch(t, now))
  {
    NextJieqiFound(t, now);
    NextJieqiEarliest(t, now);
    NextJieqiDays(t, now);
  }

  /** A target exactly on a term's instant is reported by the backward search
      with no days of distance, and never by the forward search. */
  lemma ExactTerm(t: DateTime, now: DateTime, y: int, i: int)
    requires t.Valid() && t.year - 1 <= y <= t.year && 0 <= i < 24
    requires JieqiDate(y, i).Instant() == t.Instant()
    ensures PrevSearch(t, now).daysDiff == 0
    ensures PrevSearch(t, now).date.Valid() && PrevSearch(t, now).date.Instant() == t.Instant()
    ensures NextSearch(t, now).date.Valid() && NextSearch(t, now).date.Instant() != t.Instant()
  {
    assert HasPreviousTerm(t);
    PreviousJieqiFound(t, now);
    PreviousJieqiLatest(t, now);
    PreviousJieqiDays(t, now);
    NextJieqiFound(t, now);
  }

  /** The inner loop of `getPreviousJieqi` over the 24 terms of one year,
      continuing from the best term found so far. Term `i` of `yearTerms`
      is `calculateJieqiDate(checkYear, i)` with its name and its instant. */
  method PreviousInYear(yearTerms: seq<Term>, targetTime: int, minDiff0: Option<int>, closest0: JieqiInfo)
    returns (minDiff: Option<int>, closest: JieqiInfo)
    requires |yearTerms| == 24
    ensures Scan(minDiff, closest) == Search(false, targetTime, yearTerms, Scan(minDiff0, closest0))
  {
    minDiff, closest := minDiff0, closest0;
    var i := 0;
    while i < 24
      invariant 0 <= i <= 24
      invariant Scan(minDiff, closest) == Search(false, targetTime, yearTerms[..i], Scan(minDiff0, closest0))
    {
      SearchPrefix(false, targetTime, yearTerms, i, Scan(minDiff0, closest0));
      var jieqiDate := yearTerms[i].date;
      var jieqiTime := yearTerms[i].time;
      if jieqiTime <= targetTime {
        var diff := targetTime - jieqiTime;
        if minDiff.None? || diff < minDiff.value {
          minDiff := Some(diff);
          closest := JieqiInfo(yearTerms[i].name, jieqiDate, diff / 1440);
        }
      }
      i := i + 1;
    }
    assert yearTerms[..24] == yearTerms;
  }

  /** `getPreviousJieqi(date)`: the outer loop over the year offsets 0 and
      -1, each pass running the inner loop over that year's terms. */
  method PreviousJieqi(t: DateTime, now: DateTime) returns (closest: JieqiInfo)
    requires t.Valid()
    ensures closest == PrevSearch(t, now)
  {
    var year := t.year;
    var targetTime := t.Instant();
    closest := JieqiInfo("", now, 0);
    var minDiff: Option<int> := None;
    var yearOffset := 0;
    ghost var passes := 0;
    while yearOffset >= -1
      invariant -2 <= yearOffset <= 0 && passes == -yearOffset
      invariant Scan(minDiff, closest) == Search(false, targetTime, PrevWindow(year, passes), Initial(now))
    {
      var checkYear := year + yearOffset;
      PrevPass(targetTime, year, passes, checkYear, Initial(now));
      minDiff, closest := PreviousInYear(YearTerms(checkYear), targetTime, minDiff, closest);
      yearOffset := yearOffset - 1;
      passes := passes + 1;
    }
    assert passes == 2;
  }

  /** The inner loop of `getNextJieqi` over the 24 terms of one year,
      continuing from the best term found so far. */
  method NextInYear(yearTerms: seq<Term>, targetTime: int, minDiff0: Option<int>, closest0: JieqiInfo)
    returns (minDiff: Option<int>, closest: JieqiInfo)
    requires |yearTerms| == 24
    ensures Scan(minDiff, closest) == Search(true, targetTime, yearTerms, Scan(minDiff0, closest0))
  {
    minDiff, closest := minDiff0, closest0;
    var i := 0;
    while i < 24
      invariant 0 <= i <= 24
      invariant Scan(minDiff, closest) == Search(true, targetTime, yearTerms[..i], Scan(minDiff0, closest0))
    {
      SearchPrefix(true, targetTime, yearTerms, i, Scan(minDiff0, closest0));
      var jieqiDate := yearTerms[i].date;
      var jieqiTime := yearTerms[i].time;
      if jieqiTime > targetTime {
        var diff := jieqiTime - targetTime;
        if minDiff.None? || diff < minDiff.value {
          minDiff := Some(diff);
          closest := JieqiInfo(yearTerms[i].name, jieqiDate, diff / 1440);
        }
      }
      i := i + 1;
    }
    assert yearTerms[..24] == yearTerms;
  }

  /** `getNextJieqi(date)`: the outer loop over the year offsets 0 and +1,
      each pass running the inner loop over that year's terms. */
  method NextJieqi(t: DateTime, now: DateTime) returns (closest: JieqiInfo)
    requires t.Valid()
    ensures closest == NextSearch(t, now)
  {
    var year := t.year;
    var targetTime := t.Instant();
    closest := JieqiInfo("", now, 0);
    var minDiff: Option<int> := None;
    var yearOffset := 0;
    while yearOffset <= 1
      invariant 0 <= yearOffset <= 2
      invariant Scan(minDiff, closest) == Search(true, targetTime, NextWindow(year, yearOffset), Initial(now))
    {
      var checkYear := year + yearOffset;
      NextPass(targetTime, year, yearOffset, checkYear, Initial(now));
      minDiff, closest := NextInYear(YearTerms(checkYear), targetTime, minDiff, closest);
      yearOffset := yearOffset + 1;
    }
    assert yearOffset == 2;
  }

  /** The bracketed day text: 今日 for no days, 次日 / 前日 for one, and
      otherwise 后N日 after the previous term or 前N日 before the next. */
  function DayText(daysDiff: int, isPrevious: bool): string
  {
    if daysDiff == 0 then "今日"
    else if daysDiff == 1 then (if isPrevious then "次日" else "前日")
    else (if isPrevious then "后" else "前") + IntToString(daysDiff) + "日"
  }

  /** The three-way split of the day text, each case in both directions. */
  lemma DayTextCases(daysDiff: int, isPrevious: bool)
    ensures DayText(daysDiff, isPrevious) == "今日" <==> daysDiff == 0
    ensures DayText(daysDiff, isPrevious) == (if isPrevious then "次日" else "前日") <==> daysDiff == 1
    ensures daysDiff != 0 && daysDiff != 1 ==>
      var s := DayText(daysDiff, isPrevious);
      |s| >= 3 && s[0] == (if isPrevious then '后' else '前') && s[|s| - 1] == '日'
      && s[1..|s| - 1] == IntToString(daysDiff)
  {
    var s := DayText(daysDiff, isPrevious);
    if daysDiff != 0 && daysDiff != 1 {
      assert |s| >= 3 && s[0] != '今' && s[0] != '次';
    }
  }

  /** The day count can be read back from the day text. */
  lemma DayTextInjective(m: int, n: int, isPrevious: bool)
    requires DayText(m, isPrevious) == DayText(n, isPrevious)
    ensures m == n
  {
    DayTextCases(m, isPrevious);
    DayTextCases(n, isPrevious);
    if m != 0 && m != 1 && n != 0 && n != 1 {
      IntToStringInjective(m, n);
    }
  }

  /** `${month}月${day}日`. */
  function DateText(d: DateTime): string
  {
    IntToString(d.month) + "月" + IntToString(d.day) + "日"
  }

  /** `formatJieqiInfo(jieqi, isPrevious)`: empty for a term without a name,
      otherwise the date, the name and the bracketed day text. */
  function Format(j: JieqiInfo, isPrevious: bool): (s: string)
    ensures s == "" <==> j.name == ""
    ensures j.name != "" ==> s[|s| - 1] == '）'
    ensures j.name != "" ==>
              var head := DateText(j.date) + j.name + "（";
              |head| < |s| && s[..|head|] == head
    ensures j.name != "" ==>
              var d := DayText(j.daysDiff, isPrevious);
              |d| < |s| && s[|s| - |d| - 1..] == d + "）"
  {
    if j.name == "" then ""
    else (DateText(j.date) + j.name + "（") + (DayText(j.daysDiff, isPrevious) + "）")
  }

  /** `formatJieqiInfoWithYear(jieqi, isPrevious)`: the same text with the
      year in front of the month. */
  function FormatWithYear(j: JieqiInfo, isPrevious: bool): (s: string)
    ensures s == "" <==> j.name == ""
    ensures j.name != "" ==> s == IntToString(j.date.year) + "年" + Format(j, isPrevious)
  {
    if j.name == "" then ""
    else
      IntToString(j.date.year) + "年"
      + ((IntToString(j.date.month) + "月" + IntToString(j.date.day) + "日" + j.name + "（")
         + (DayText(j.daysDiff, isPrevious) + "）"))
  }

  /** The source's `JieqiFullInfo`. */
  datatype FullInfo = FullInfo(previous: JieqiInfo, next: JieqiInfo, previousText: string, nextText: string)

  /** The description of a term, with the year only when it is not the
      query's year. */
  function Describe(j: JieqiInfo, isPrevious: bool, currentYear: int): string
  {
    if j.date.year != currentYear then FormatWithYear(j, isPrevious) else Format(j, isPrevious)
  }

  /** A named term is described without its year exactly when it falls in
      the query's year. */
  lemma DescribeYear(j: JieqiInfo, isPrevious: bool, currentYear: int)
    requires j.name != ""
    ensures Describe(j, isPrevious, currentYear) == Format(j, isPrevious) <==> j.date.year == currentYear
    ensures j.date.year != currentYear ==>
      Describe(j, isPrevious, currentYear) == IntToString(j.date.year) + "年" + Format(j, isPrevious)
  {
    if j.date.year != currentYear {
      assert |FormatWithYear(j, isPrevious)| > |Format(j, isPrevious)|;
    }
  }

  /** A description is empty exactly for a term without a name. */
  lemma DescribeEmpty(j: JieqiInfo, isPrevious: bool, currentYear: int)
    ensures Describe(j, isPrevious, currentYear) == "" <==> j.name == ""
  {
  }

  /** `getJieqiFullInfo(date)`. */
  method JieqiFullInfo(t: DateTime, now: DateTime) returns (r: FullInfo)
    requires t.Valid()
    ensures r.previous == PrevSearch(t, now) && r.next == NextSearch(t, now)
    ensures r.previousText == Describe(r.previous, true, t.year)
    ensures r.nextText == Describe(r.next, false, t.year)
    ensures HasPreviousTerm(t) ==> IsPreviousTerm(t, r.previous)
    ensures IsNextTerm(t, r.next)
    ensures r.previousText == "" <==> !HasPreviousTerm(t)
    ensures r.nextText != ""
    ensures HasPreviousTerm(t) ==> (r.previousText == Format(r.previous, true) <==> r.previous.date.year == t.year)
    ensures r.nextText == Format(r.next, false) <==> r.next.date.year == t.year
  {
    var previous := PreviousJieqi(t, now);
    var next := NextJieqi(t, now);
    PreviousJieqiCorrect(t, now);
    NextJieqiCorrect(t, now);
    var currentYear := t.year;
    var needYearForPrevious := previous.date.year != currentYear;
    var needYearForNext := next.date.year != currentYear;
    r := FullInfo(previous, next,
      if needYearForPrevious then FormatWithYear(previous, true) else Format(previous, true),
      if needYearForNext then FormatWithYear(next, false) else Format(next, false));
    DescribeEmpty(previous, true, currentYear);
    DescribeEmpty(next, false, currentYear);
    if previous.name != "" {
      DescribeYear(previous, true, currentYear);
    }
    DescribeYear(next, false, currentYear);
  }
}
