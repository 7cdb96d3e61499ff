/**
  The trading calendar. Dates are proleptic ordinals (1 is 0001-01-01, a Monday); instants are seconds of China time
  counted from day 0. Holidays are listed for 2026 only, by day of the year.
 */
module TradingCalendar {
  import opened Results

  datatype Market = AShare | UnitedStates | OtherMarket(name: string)

  datatype CalendarError = UnsupportedMarket | LookupExhausted

  const MAX_LOOKUP_DAYS := 370

  const SECONDS_A_DAY := 86400

  /** The day before 2026-01-01. */
  const BEFORE_2026 := 739616

  /** New Year, Spring Festival (Feb 16-20), Apr 6, May 1, Jun 19, Sep 25, National Day (Oct 1, 2, 5, 6, 7). */
  const A_SHARE_HOLIDAYS: seq<int> := [1, 47, 48, 49, 50, 51, 96, 121, 170, 268, 274, 275, 278, 279, 280]

  /** Jan 1, Jan 19, Feb 16, Apr 3, May 25, Jun 19, Jul 3, Sep 7, Nov 26, Dec 25. */
  const US_HOLIDAYS: seq<int> := [1, 19, 47, 93, 145, 170, 184, 250, 330, 359]

  predicate Supported(m: Market) {
    !m.OtherMarket?
  }

  function Holidays(m: Market): seq<int>
    requires Supported(m)
  {
    if m.AShare? then A_SHARE_HOLIDAYS else US_HOLIDAYS
  }

  /** When the daily job runs, in China time: 09:15 for A shares, 21:15 for the United States. */
  function RunTime(m: Market): (t: int)
    requires Supported(m)
    ensures 0 <= t < SECONDS_A_DAY
  {
    if m.AShare? then 9 * 3600 + 15 * 60 else 21 * 3600 + 15 * 60
  }

  /** 0 is Monday. */
  function Weekday(date: int): int {
    (date + 6) % 7
  }

  /** Whether a date is open under a list of weekday holidays of 2026. */
  predicate OpenUnder(holidays: seq<int>, date: int) {
    Weekday(date) < 5 && date - BEFORE_2026 !in holidays
  }

  predicate IsTradingDay(m: Market, date: int)
    requires Supported(m)
  {
    OpenUnder(Holidays(m), date)
  }

  // Counting days -------------------------------------------------------------------------------------------------

  function CountIf(b: bool): int {
    if b then 1 else 0
  }

  function Weekdays(from: int, n: nat): int {
    if n == 0 then 0 else Weekdays(from, n - 1) + CountIf(Weekday(from + n - 1) < 5)
  }

  function OpenDays(holidays: seq<int>, from: int, n: nat): (count: int)
    ensures 0 <= count <= n
  {
    if n == 0 then 0 else OpenDays(holidays, from, n - 1) + CountIf(OpenUnder(holidays, from + n - 1))
  }

  function HolidaysIn(holidays: seq<int>, from: int, n: nat): set<int> {
    set k | k in holidays && from <= BEFORE_2026 + k < from + n
  }

  ghost predicate OnWeekdaysOf2026(holidays: seq<int>) {
    && (forall k :: k in holidays ==> Weekday(BEFORE_2026 + k) < 5 && 1 <= k <= 365)
    && (forall i, j :: 0 <= i < j < |holidays| ==> holidays[i] != holidays[j])
  }

  lemma {:induction false} AscendingStepByStep(s: seq<int>, i: nat, j: nat)
    requires i < j < |s| && forall k :: 0 <= k < |s| - 1 ==> s[k] < s[k + 1]
    ensures s[i] < s[j]
    decreases j
  {
    if i + 1 < j {
      AscendingStepByStep(s, i, j - 1);
    }
  }

  lemma ListedHolidaysAreWeekdays(m: Market)
    requires Supported(m)
    ensures OnWeekdaysOf2026(Holidays(m))
    ensures |Holidays(m)| == if m.AShare? then 15 else 10
  {
    forall k | k in Holidays(m)
      ensures Weekday(BEFORE_2026 + k) < 5 && 1 <= k <= 365
    {
      HolidayIsWeekday(m, k);
    }
    forall i, j | 0 <= i < j < |Holidays(m)|
      ensures Holidays(m)[i] != Holidays(m)[j]
    {
      AscendingStepByStep(Holidays(m), i, j);
    }
  }

  lemma HolidayIsWeekday(m: Market, k: int)
    requires Supported(m) && k in Holidays(m)
    ensures Weekday(BEFORE_2026 + k) < 5 && 1 <= k <= 365
  {
  }

  lemma HolidaysInOneMoreDay(holidays: seq<int>, from: int, n: nat)
    requires n > 0
    ensures |HolidaysIn(holidays, from, n)|
            == |HolidaysIn(holidays, from, n - 1)| + CountIf(from + n - 1 - BEFORE_2026 in holidays)
  {
    var last := from + n - 1 - BEFORE_2026;
    if last in holidays {
      assert HolidaysIn(holidays, from, n) == HolidaysIn(holidays, from, n - 1) + {last};
    } else {
      assert HolidaysIn(holidays, from, n) == HolidaysIn(holidays, from, n - 1);
    }
  }

  lemma {:induction false} OpenIsWeekdaysLessHolidays(holidays: seq<int>, from: int, n: nat)
    requires OnWeekdaysOf2026(holidays)
    ensures OpenDays(holidays, from, n) == Weekdays(from, n) - |HolidaysIn(holidays, from, n)|
  {
    if n > 0 {
      OpenIsWeekdaysLessHolidays(holidays, from, n - 1);
      HolidaysInOneMoreDay(holidays, from, n);
    }
  }

  lemma WeekdayOfLaterDay(from: int, i: nat)
    requires i < 7
    ensures Weekday(from + i) == if Weekday(from) + i < 7 then Weekday(from) + i else Weekday(from) + i - 7
  {
  }

  lemma WeekHasFiveWeekdays(from: int)
    ensures Weekdays(from, 7) == 5
  {
    WeekdayOfLaterDay(from, 1);
    WeekdayOfLaterDay(from, 2);
    WeekdayOfLaterDay(from, 3);
    WeekdayOfLaterDay(from, 4);
    WeekdayOfLaterDay(from, 5);
    WeekdayOfLaterDay(from, 6);
    assert Weekdays(from, 1) == CountIf(Weekday(from) < 5);
    assert Weekdays(from, 3) == Weekdays(from, 1) + CountIf(Weekday(from + 1) < 5) + CountIf(Weekday(from + 2) < 5);
    assert Weekdays(from, 5) == Weekdays(from, 3) + CountIf(Weekday(from + 3) < 5) + CountIf(Weekday(from + 4) < 5);
    assert Weekdays(from, 7) == Weekdays(from, 5) + CountIf(Weekday(from + 5) < 5) + CountIf(Weekday(from + 6) < 5);
  }

  lemma {:induction false} WeekdaysSplit(from: int, a: nat, b: nat)
    ensures Weekdays(from, a + b) == Weekdays(from, a) + Weekdays(from + a, b)
  {
    if b > 0 {
      WeekdaysSplit(from, a, b - 1);
    }
  }

  lemma {:induction false} WeeksHaveFiveWeekdaysEach(from: int, weeks: nat)
    ensures Weekdays(from, 7 * weeks) == 5 * weeks
  {
    if weeks > 0 {
      WeeksHaveFiveWeekdaysEach(from, weeks - 1);
      WeekdaysSplit(from, 7 * (weeks - 1), 7);
      WeekHasFiveWeekdays(from + 7 * (weeks - 1));
    }
  }

  /** 370 days are 52 weeks and six days; the six days leave out one day of a seventh week. */
  lemma WeekdaysOfLookup(from: int)
    ensures Weekdays(from, MAX_LOOKUP_DAYS) == 265 - CountIf(Weekday(from + 370) < 5)
  {
    WeekdaysSplit(from, 364, 6);
    WeeksHaveFiveWeekdaysEach(from, 52);
    WeekHasFiveWeekdays(from + 364);
    assert Weekdays(from + 364, 7) == Weekdays(from + 364, 6) + CountIf(Weekday(from + 370) < 5);
  }

  lemma {:induction false} ElementsOf(s: seq<int>)
    ensures |set x | x in s| <= |s|
    ensures (forall i, j :: 0 <= i < j < |s| ==> s[i] != s[j]) ==> |set x | x in s| == |s|
  {
    if s != [] {
      var n := |s| - 1;
      ElementsOf(s[..n]);
      assert (set x | x in s) == (set x | x in s[..n]) + {s[n]};
    }
  }

  lemma HolidaysAreFew(holidays: seq<int>, from: int, n: nat)
    ensures |HolidaysIn(holidays, from, n)| <= |holidays|
  {
    ElementsOf(holidays);
    var all := set x | x in holidays;
    assert all == HolidaysIn(holidays, from, n) + (all - HolidaysIn(holidays, from, n));
  }

  /** How many open days any 370 days are sure to hold: 264 weekdays less the holidays. */
  lemma LookupMeetsEnough(holidays: seq<int>, from: int)
    requires OnWeekdaysOf2026(holidays)
    ensures OpenDays(holidays, from, MAX_LOOKUP_DAYS) >= 264 - |holidays|
  {
    OpenIsWeekdaysLessHolidays(holidays, from, MAX_LOOKUP_DAYS);
    WeekdaysOfLookup(from);
    HolidaysAreFew(holidays, from, MAX_LOOKUP_DAYS);
  }

  /** The 370 days from 2025-12-30 hold no more: they contain every listed holiday and the fewest weekdays. */
  lemma LeanestLookup(holidays: seq<int>)
    requires OnWeekdaysOf2026(holidays)
    ensures OpenDays(holidays, BEFORE_2026 - 1, MAX_LOOKUP_DAYS) == 264 - |holidays|
  {
    OpenIsWeekdaysLessHolidays(holidays, BEFORE_2026 - 1, MAX_LOOKUP_DAYS);
    WeekdaysOfLookup(BEFORE_2026 - 1);
    ElementsOf(holidays);
    assert (set x | x in holidays) == HolidaysIn(holidays, BEFORE_2026 - 1, MAX_LOOKUP_DAYS);
  }

  lemma {:induction false} NoneMeansZero(holidays: seq<int>, from: int, n: nat)
    requires forall d :: from <= d < from + n ==> !OpenUnder(holidays, d)
    ensures OpenDays(holidays, from, n) == 0
  {
    if n > 0 {
      NoneMeansZero(holidays, from, n - 1);
    }
  }

  /** Somewhere in any 370 days a market is open. */
  lemma SomeDayIsOpen(m: Market, from: int)
    requires Supported(m)
    ensures exists d :: from <= d < from + MAX_LOOKUP_DAYS && IsTradingDay(m, d)
  {
    ListedHolidaysAreWeekdays(m);
    LookupMeetsEnough(Holidays(m), from);
    if !exists d :: from <= d < from + MAX_LOOKUP_DAYS && IsTradingDay(m, d) {
      forall d | from <= d < from + MAX_LOOKUP_DAYS
        ensures !OpenUnder(Holidays(m), d)
      {
        assert !IsTradingDay(m, d);
      }
      NoneMeansZero(Holidays(m), from, MAX_LOOKUP_DAYS);
      assert false;
    }
  }

  // Searching days ------------------------------------------------------------------------------------------------

  ghost predicate IsNext(m: Market, date: int, next: int)
    requires Supported(m)
  {
    date < next && IsTradingDay(m, next) && forall d :: date < d < next ==> !IsTradingDay(m, d)
  }

  ghost predicate IsPrevious(m: Market, date: int, previous: int)
    requires Supported(m)
  {
    previous < date && IsTradingDay(m, previous) && forall d :: previous < d < date ==> !IsTradingDay(m, d)
  }

  method NextTradingDay(m: Market, date: int) returns (r: Result<int, CalendarError>)
    ensures r.Raised? <==> !Supported(m)
    ensures r.Raised? ==> r.error == UnsupportedMarket
    ensures r.Ok? ==> IsNext(m, date, r.value)
  {
    var cursor := date + 1;
    for i := 0 to MAX_LOOKUP_DAYS
      invariant cursor == date + 1 + i
      invariant i > 0 ==> Supported(m)
      invariant Supported(m) ==> forall d :: date < d < cursor ==> !IsTradingDay(m, d)
    {
      if !Supported(m) {
        return Raised(UnsupportedMarket);
      }
      if IsTradingDay(m, cursor) {
        return Ok(cursor);
      }
      cursor := cursor + 1;
    }
    SomeDayIsOpen(m, date + 1);
    assert false;
    r := Raised(LookupExhausted);
  }

  method PreviousTradingDay(m: Market, date: int) returns (r: Result<int, CalendarError>)
    ensures r.Raised? <==> !Supported(m)
    ensures r.Raised? ==> r.error == UnsupportedMarket
    ensures r.Ok? ==> IsPrevious(m, date, r.value)
  {
    var cursor := date - 1;
    for i := 0 to MAX_LOOKUP_DAYS
      invariant cursor == date - 1 - i
      invariant i > 0 ==> Supported(m)
      invariant Supported(m) ==> forall d :: cursor < d < date ==> !IsTradingDay(m, d)
    {
      if !Supported(m) {
        return Raised(UnsupportedMarket);
      }
      if IsTradingDay(m, cursor) {
        return Ok(cursor);
      }
      cursor := cursor - 1;
    }
    SomeDayIsOpen(m, date - MAX_LOOKUP_DAYS);
    assert false;
    r := Raised(LookupExhausted);
  }

  /** On trading days the two searches undo each other. */
  lemma SearchesInvert(m: Market, date: int, other: int)
    requires Supported(m) && IsTradingDay(m, date)
    ensures IsNext(m, date, other) ==> forall back :: IsPrevious(m, other, back) <==> back == date
    ensures IsPrevious(m, date, other) ==> forall back :: IsNext(m, other, back) <==> back == date
  {
  }

  // The last trading days -----------------------------------------------------------------------------------------

  ghost predicate Ascending(days: seq<int>) {
    forall i, j :: 0 <= i < j < |days| ==> days[i] < days[j]
  }

  /** Ascending, all trading days up to `end`, and no trading day from the first of them to `end` is missing. */
  ghost predicate AreLastDays(holidays: seq<int>, end: int, days: seq<int>)
  {
    && Ascending(days)
    && (forall i :: 0 <= i < |days| ==> days[i] <= end && OpenUnder(holidays, days[i]))
    && (days != [] ==> forall d :: days[0] <= d <= end && OpenUnder(holidays, d) ==> d in days)
  }

  lemma {:induction false} OpenDaysFromFront(holidays: seq<int>, from: int, n: nat)
    requires n > 0
    ensures OpenDays(holidays, from, n) == CountIf(OpenUnder(holidays, from)) + OpenDays(holidays, from + 1, n - 1)
    decreases n
  {
    if n > 1 {
      OpenDaysFromFront(holidays, from, n - 1);
    } else {
      assert OpenDays(holidays, from, 1) == OpenDays(holidays, from, 0) + CountIf(OpenUnder(holidays, from));
    }
  }

  lemma {:induction false} OpenDaysGrow(holidays: seq<int>, from: int, n: nat, k: nat)
    requires k <= n
    ensures OpenDays(holidays, from + n - k, k) <= OpenDays(holidays, from, n)
    decreases n - k
  {
    if k < n {
      OpenDaysGrow(holidays, from, n, k + 1);
      OpenDaysFromFront(holidays, from + n - k - 1, k + 1);
    }
  }

  function Reversed(s: seq<int>): (r: seq<int>)
    ensures |r| == |s| && forall i :: 0 <= i < |s| ==> r[i] == s[|s| - 1 - i]
  {
    if s == [] then [] else [s[|s| - 1]] + Reversed(s[..|s| - 1])
  }

  /** What the backward scan has collected, newest first, when it has looked at every day after `cursor`. */
  ghost predicate Scanned(holidays: seq<int>, end: int, cursor: int, found: seq<int>)
  {
    && cursor <= end
    && (forall i, j :: 0 <= i < j < |found| ==> found[i] > found[j])
    && (forall d :: d in found <==> cursor < d <= end && OpenUnder(holidays, d))
    && |found| == OpenDays(holidays, cursor + 1, end - cursor)
  }

  lemma ScanOn(holidays: seq<int>, end: int, cursor: int, found: seq<int>)
    requires Scanned(holidays, end, cursor, found)
    ensures Scanned(holidays, end, cursor - 1, if OpenUnder(holidays, cursor) then found + [cursor] else found)
  {
    OpenDaysFromFront(holidays, cursor, end - cursor + 1);
    assert forall i :: 0 <= i < |found| ==> found[i] in found;
  }

  lemma ScanIsLastDays(holidays: seq<int>, end: int, cursor: int, found: seq<int>)
    requires Scanned(holidays, end, cursor, found)
    ensures AreLastDays(holidays, end, Reversed(found))
  {
    var days := Reversed(found);
    forall i | 0 <= i < |days|
      ensures days[i] in found
    {
    }
    if days != [] {
      forall d | days[0] <= d <= end && OpenUnder(holidays, d)
        ensures d in days
      {
        var i :| 0 <= i < |found| && found[i] == d;
        assert days[|found| - 1 - i] == d;
      }
    }
  }

  /** Open days among the 370 days up to `end`. */
  function MetLookingBack(holidays: seq<int>, end: int): int {
    OpenDays(holidays, end - MAX_LOOKUP_DAYS + 1, MAX_LOOKUP_DAYS)
  }

  lemma ScanCounts(holidays: seq<int>, end: int, cursor: int, found: seq<int>)
    requires Scanned(holidays, end, cursor, found) && end - MAX_LOOKUP_DAYS <= cursor
    ensures |found| <= MetLookingBack(holidays, end)
    ensures cursor == end - MAX_LOOKUP_DAYS ==> |found| == MetLookingBack(holidays, end)
  {
    OpenDaysGrow(holidays, end - MAX_LOOKUP_DAYS + 1, MAX_LOOKUP_DAYS, end - cursor);
  }

  method ScanBack(holidays: seq<int>, end: int, count: int) returns (r: Result<seq<int>, CalendarError>)
    requires count > 0
    ensures r.Ok? <==> MetLookingBack(holidays, end) >= count
    ensures r.Ok? ==> |r.value| == count && AreLastDays(holidays, end, r.value)
    ensures r.Raised? ==> r.error == LookupExhausted
  {
    var result: seq<int> := [];
    var cursor := end;
    for i := 0 to MAX_LOOKUP_DAYS
      invariant cursor == end - i
      invariant |result| < count
      invariant Scanned(holidays, end, cursor, result)
    {
      ScanOn(holidays, end, cursor, result);
      if OpenUnder(holidays, cursor) {
        result := result + [cursor];
        if |result| == count {
          ScanCounts(holidays, end, cursor - 1, result);
          ScanIsLastDays(holidays, end, cursor - 1, result);
          return Ok(Reversed(result));
        }
      }
      cursor := cursor - 1;
    }
    ScanCounts(holidays, end, cursor, result);
    r := Raised(LookupExhausted);
  }

  method RecentTradingDays(m: Market, end: int, count: int) returns (r: Result<seq<int>, CalendarError>)
    ensures count <= 0 ==> r == Ok([])
    ensures count > 0 && !Supported(m) ==> r == Raised(UnsupportedMarket)
    ensures count > 0 && Supported(m) && MetLookingBack(Holidays(m), end) < count ==> r == Raised(LookupExhausted)
    ensures count > 0 && Supported(m) && MetLookingBack(Holidays(m), end) >= count ==>
              r.Ok? && |r.value| == count && AreLastDays(Holidays(m), end, r.value)
  {
    if count <= 0 {
      return Ok([]);
    }
    if !Supported(m) {
      return Raised(UnsupportedMarket);  // raised by the first day looked at
    }
    r := ScanBack(Holidays(m), end, count);
  }

  /**
    The 370-day cap is met for no end date exactly when at most 249 days are asked for (A shares) or 254 (United
    States): 264 weekdays less the listed holidays.
   */
  lemma CapIsNeverHitIff(m: Market, count: int)
    requires Supported(m)
    ensures (forall end: int :: MetLookingBack(Holidays(m), end) >= count) <==> count <= if m.AShare? then 249 else 254
  {
    ListedHolidaysAreWeekdays(m);
    CapUnder(Holidays(m), count);
  }

  lemma CapUnder(holidays: seq<int>, count: int)
    requires OnWeekdaysOf2026(holidays)
    ensures (forall end: int :: MetLookingBack(holidays, end) >= count) <==> count <= 264 - |holidays|
  {
    forall end: int
      ensures MetLookingBack(holidays, end) >= 264 - |holidays|
    {
      LookupMeetsEnough(holidays, end - MAX_LOOKUP_DAYS + 1);
    }
    LeanestLookup(holidays);
    assert MetLookingBack(holidays, BEFORE_2026 - 2 + MAX_LOOKUP_DAYS) == 264 - |holidays|;
  }

  // The next run --------------------------------------------------------------------------------------------------

  predicate IsRunInstant(m: Market, at: int)
    requires Supported(m)
  {
    IsTradingDay(m, at / SECONDS_A_DAY) && at % SECONDS_A_DAY == RunTime(m)
  }

  /** The clock reads 09:15:00 at every run on the A-share market and 21:15:00 at every run on the United States one. */
  lemma RunsAtQuarterPast(m: Market, at: int)
    requires Supported(m)
    ensures IsRunInstant(m, at) ==>
              && at % 86400 / 3600 == (if m == AShare then 9 else 21)
              && at % 3600 / 60 == 15 && at % 60 == 0
              && IsTradingDay(m, at / 86400)
  {
    var time := at % 86400;
    assert at == at / 86400 * 86400 + time;
  }

  lemma RunInstantOf(m: Market, date: int)
    requires Supported(m)
    ensures var at := date * SECONDS_A_DAY + RunTime(m); at / SECONDS_A_DAY == date && at % SECONDS_A_DAY == RunTime(m)
  {
  }

  /** The least run instant that is not before `now`. */
  method NextTradingRunAt(m: Market, now: int) returns (r: Result<int, CalendarError>)
    ensures r.Raised? <==> !Supported(m)
    ensures r.Raised? ==> r.error == UnsupportedMarket
    ensures r.Ok? ==> now <= r.value && IsRunInstant(m, r.value)
    ensures r.Ok? ==> forall at :: now <= at && IsRunInstant(m, at) ==> r.value <= at
  {
    if !Supported(m) {
      return Raised(UnsupportedMarket);
    }
    var today := now / SECONDS_A_DAY;
    var todayRunAt := today * SECONDS_A_DAY + RunTime(m);
    RunInstantOf(m, today);
    if now <= todayRunAt && IsTradingDay(m, today) {
      NothingSooner(m, now, today);
      return Ok(todayRunAt);
    }
    var next := NextTradingDay(m, today);
    RunInstantOf(m, next.value);
    NothingSooner(m, now, next.value);
    r := Ok(next.value * SECONDS_A_DAY + RunTime(m));
  }

  lemma NothingSooner(m: Market, now: int, date: int)
    requires Supported(m) && now / SECONDS_A_DAY <= date
    requires forall d :: now / SECONDS_A_DAY < d < date ==> !IsTradingDay(m, d)
    requires now / SECONDS_A_DAY < date ==>
               !IsTradingDay(m, now / SECONDS_A_DAY) || now > now / SECONDS_A_DAY * SECONDS_A_DAY + RunTime(m)
    ensures forall at :: now <= at && IsRunInstant(m, at) ==> date * SECONDS_A_DAY + RunTime(m) <= at
  {
    forall at | now <= at && IsRunInstant(m, at)
      ensures date * SECONDS_A_DAY + RunTime(m) <= at
    {
      var day := at / SECONDS_A_DAY;
      assert at == day * SECONDS_A_DAY + RunTime(m);
      assert now / SECONDS_A_DAY <= day;
      if day < date {
        assert false;
      }
    }
  }
}
