/** Wall-clock schedules of automations, evaluated in their time zone (app/events/automation_schedule.py). */
module AutomationSchedule {
  import opened Wrappers
  import opened ZoneClock
  import opened ZoneDates

  datatype Mode = Interval | Daily | Weekly

  // `localTime` is in minutes after midnight; the validators keep weekdays sorted and without duplicates.
  datatype Schedule = Schedule(mode: Mode, localTime: Option<nat>, weekdays: set<nat>)

  datatype ScheduleError = NoOccurrence

  // What the field and model validators accept.
  predicate Valid(s: Schedule) {
    && (s.localTime.Some? ==> s.localTime.value < 1440)
    && s.weekdays <= {0, 1, 2, 3, 4, 5, 6}
    && (s.mode != Interval ==> s.localTime.Some?)
    && (s.mode == Weekly <==> s.weekdays != {})
  }

  // The epoch fell on a Thursday; Monday is 0.
  function Weekday(d: int): nat { (d + 3) % 7 }

  predicate Permitted(s: Schedule, d: int) {
    s.mode == Weekly ==> Weekday(d) in s.weekdays
  }

  function WallTime(s: Schedule): int {
    if s.localTime.Some? then s.localTime.value * 60_000_000 else 0
  }

  function Scheduled(s: Schedule, d: int): int {
    Midnight(d) + WallTime(s)
  }

  function Occurrence(s: Schedule, z: Zone, d: int): int {
    var u := Reading(s, z, d);
    Utc(z, Local(z, u), Fold(z, u))
  }

  // The instant at which the wall clock first shows the scheduled time of a date.
  function Reading(s: Schedule, z: Zone, d: int): int {
    Utc(z, Scheduled(s, d), false)
  }

  // All the day loop needs to know: the instant a date's occurrence falls on, and the local date of an instant.
  datatype Almanac = Almanac(occurs: int -> int, date: int -> int)

  function AlmanacOf(s: Schedule, z: Zone): Almanac {
    Almanac(d => Occurrence(s, z, d), u => Date(Local(z, u)))
  }

  // The day loop, from `offset` days after the local date of `after`.
  function FirstDate(s: Schedule, a: Almanac, after: int, offset: nat): (r: Option<int>)
    requires offset <= 9
    decreases 9 - offset
  {
    var d := a.date(after) + offset;
    if offset == 9 then None
    else if Permitted(s, d) && a.occurs(d) > after then Some(d)
    else FirstDate(s, a, after, offset + 1)
  }

  function Next(s: Schedule, a: Almanac, after: int, interval: int): Result<int, ScheduleError> {
    if s.mode == Interval then Ok(after + interval * SECOND)
    else var d := FirstDate(s, a, after, 0);
      if d.Some? then Ok(a.occurs(d.value)) else Err(NoOccurrence)
  }

  function NextRun(s: Schedule, z: Zone, after: int, interval: int): Result<int, ScheduleError> {
    Next(s, AlmanacOf(s, z), after, interval)
  }

  // Day 0 was a Thursday: with Monday as 0, the dates on weekday `w` are those congruent to `w + 4` modulo 7.
  lemma PermittedIff(s: Schedule, d: int)
    requires s.weekdays <= {0, 1, 2, 3, 4, 5, 6}
    ensures Permitted(s, d) <==> (s.mode == Weekly ==> exists w :: w in s.weekdays && d % 7 == (w + 4) % 7)
  {
    forall w | w in s.weekdays ensures Weekday(d) == w <==> d % 7 == (w + 4) % 7 {
      SameWeekday(d, w);
    }
    SameWeekday(d, Weekday(d));
  }

  lemma SameWeekday(d: int, w: nat)
    requires w < 7
    ensures Weekday(d) == w <==> d % 7 == (w + 4) % 7
  {
    var q, r := d / 7, d % 7;
    assert d == 7 * q + r;
    assert d + 3 == 7 * q + (r + 3);
  }

  lemma DateOfWallTime(s: Schedule, d: int)
    requires Valid(s)
    ensures Date(Scheduled(s, d)) == d
  {
    assert 0 <= WallTime(s) < DAY;
  }

  lemma OccurrenceIsReading(s: Schedule, z: Zone, d: int)
    requires WellFormed(z)
    ensures Occurrence(s, z, d) == Reading(s, z, d)
  {
    InstantRoundTrip(z, Reading(s, z, d));
  }

  lemma ReadingIsWholeSecond(s: Schedule, z: Zone, d: int)
    requires WholeSeconds(z)
    ensures Reading(s, z, d) % SECOND == 0
  {
    var k := WallIndex(z, Scheduled(s, d), false, |z.transitions|);
    ScheduledIsWholeSecond(s, d);
    WholeSecondDifference(Scheduled(s, d), Offset(z, k));
  }

  lemma ScheduledIsWholeSecond(s: Schedule, d: int)
    ensures Scheduled(s, d) % SECOND == 0
  {
    var minutes := if s.localTime.Some? then s.localTime.value else 0;
    assert Scheduled(s, d) == (86_400 * d + 60 * minutes) * 1_000_000;
  }

  lemma WholeSecondDifference(w: int, o: int)
    requires w % SECOND == 0 && o % SECOND == 0
    ensures (w - o) % SECOND == 0
  {
    assert w - o == (w / 1_000_000 - o / 1_000_000) * 1_000_000;
  }

  lemma OccurrenceIsWholeSecond(s: Schedule, z: Zone, d: int)
    requires WellFormed(z) && WholeSeconds(z)
    ensures Occurrence(s, z, d) % SECOND == 0
  {
    OccurrenceIsReading(s, z, d);
    ReadingIsWholeSecond(s, z, d);
  }

  /// Zones in which the search works.

  const MINUTE: int := 60_000_000

  // A skipped minute is shown on its own date, up to the instant before it.
  predicate MinuteStays(w: int, before: int, after: int) {
    w % MINUTE == 0 ==> Date(w + (after - before) - 1) == Date(w)
  }

  // A clock set forward moves no skipped minute to another date, and a clock set back shows the start of no date that
  // is two or more days later than the one it goes back to.
  ghost predicate Sound(at: int, before: int, after: int) {
    && (forall w: int | at + before < w < at + after :: MinuteStays(w, before, after))
    && at + before <= Midnight(Date(at + after) + 2)
  }

  ghost predicate SoundAt(z: Zone, i: nat)
    requires i < |z.transitions|
  {
    Sound(z.transitions[i].at, Offset(z, i), Offset(z, i + 1))
  }

  ghost predicate Searchable(z: Zone) {
    forall i | 0 <= i < |z.transitions| :: SoundAt(z, i)
  }

  // What the day loop relies on: earlier dates are past, dates from the second next on are ahead, and later dates come later.
  ghost predicate Reliable(a: Almanac) {
    && (forall d: int, u: int :: Placed(a, d, u))
    && (forall d: int, e: int | d < e :: a.occurs(d) < a.occurs(e))
  }

  predicate Placed(a: Almanac, d: int, u: int) {
    (d < a.date(u) ==> a.occurs(d) <= u) && (a.date(u) + 2 <= d ==> u < a.occurs(d))
  }

  lemma ScheduledIsMinute(s: Schedule, d: int)
    ensures Scheduled(s, d) % MINUTE == 0
  {
    var minutes := if s.localTime.Some? then s.localTime.value else 0;
    assert Scheduled(s, d) == (1440 * d + minutes) * 60_000_000;
  }

  /// No date is passed too early or too late.

  lemma DateGrowsWith(a: int, b: int)
    requires a <= b
    ensures Date(a) <= Date(b)
  {
  }

  lemma EarlierDateIsPast(z: Zone, w: int, u: int)
    requires WellFormed(z) && Searchable(z) && w % MINUTE == 0 && Date(w) < Date(Local(z, u))
    ensures Utc(z, w, false) <= u
  {
    if u < Utc(z, w, false) {
      var k := WallIndex(z, w, false, |z.transitions|);
      NotYetReached(z, w, u);
      if Local(z, u) < w {
        DateGrowsWith(Local(z, u), w);
      } else {
        assert SoundAt(z, k);
        SkippedStays(z.transitions[k].at, Offset(z, k), Offset(z, k + 1), w, u);
      }
    }
  }

  lemma SkippedStays(at: int, before: int, after: int, w: int, u: int)
    requires Sound(at, before, after) && w % MINUTE == 0 && at <= u < w - before && w < at + after
    ensures Date(u + after) <= Date(w)
  {
    assert MinuteStays(w, before, after);
    DateGrowsWith(u + after, w + (after - before) - 1);
  }

  lemma LaterDateIsAhead(z: Zone, w: int, u: int)
    requires WellFormed(z) && Searchable(z) && Date(Local(z, u)) + 2 <= Date(w)
    ensures u < Utc(z, w, false)
  {
    if Utc(z, w, false) <= u {
      DifferentDates(Local(z, u), w);
      ReachedBefore(z, w, u);
      var i := InstantIndex(z, u, |z.transitions|) - 1;
      assert SoundAt(z, i);
      SetBackStays(z.transitions[i].at + Offset(z, i), z.transitions[i].at + Offset(z, i + 1), w, Local(z, u));
    }
  }

  lemma DifferentDates(l: int, w: int)
    requires Date(l) < Date(w)
    ensures l < w
  {
  }

  lemma SetBackStays(shown: int, back: int, w: int, l: int)
    requires w < shown <= Midnight(Date(back) + 2) && back <= l
    ensures Date(w) <= Date(l) + 1
  {
  }

  lemma GapIsShort(at: int, before: int, after: int)
    requires Sound(at, before, after)
    ensures after - before < DAY
  {
    if DAY <= after - before {
      var w := NextMinute(at + before);
      assert MinuteStays(w, before, after) && MinuteStays(w + MINUTE, before, after);
      LongGap(w, after - before);
    }
  }

  function NextMinute(x: int): (w: int)
    ensures x < w <= x + MINUTE && w % MINUTE == 0
  {
    (x / 60_000_000 + 1) * 60_000_000
  }

  lemma LongGap(w: int, gap: int)
    requires DAY <= gap && w % MINUTE == 0
    ensures (w + MINUTE) % MINUTE == 0
    ensures Date(w + gap - 1) != Date(w) || Date(w + MINUTE + gap - 1) != Date(w + MINUTE)
  {
  }

  lemma LaterReadingIsLater(z: Zone, w: int, v: int)
    requires WellFormed(z) && Searchable(z) && w + DAY <= v
    ensures Utc(z, w, false) < Utc(z, v, false)
  {
    var j, k := WallIndex(z, w, false, |z.transitions|), WallIndex(z, v, false, |z.transitions|);
    WallIndexGrows(z, w, v);
    if j < k {
      assert SoundAt(z, j);
      GapIsShort(z.transitions[j].at, Offset(z, j), Offset(z, j + 1));
      ReadingsAcross(z, w, v);
    }
  }

  /// The search.

  // Among `d + 1` to `d + 7` there is a permitted date.
  function NextPermitted(s: Schedule, d: int, ahead: int): (e: int)
    requires Valid(s) && s.mode != Interval && 1 <= ahead <= 7
    requires forall x | d < x < d + ahead :: !Permitted(s, x)
    ensures d < e <= d + 7 && Permitted(s, e) && forall x | d < x < e :: !Permitted(s, x)
    decreases 7 - ahead
  {
    if Permitted(s, d + ahead) then d + ahead
    else if ahead < 7 then NextPermitted(s, d, ahead + 1)
    else (SomeWeekdayComes(s, d); d)
  }

  lemma SomeWeekdayComes(s: Schedule, d: int)
    requires Valid(s) && s.mode != Interval
    ensures exists x | d < x <= d + 7 :: Permitted(s, x)
  {
    if s.mode == Weekly {
      var w :| w in s.weekdays;
      var k := (w - Weekday(d + 1)) % 7;
      assert Permitted(s, d + 1 + k);
    } else {
      assert Permitted(s, d + 1);
    }
  }

  // What the day loop finds: the first permitted date in its window whose occurrence is still ahead.
  lemma {:induction false} FirstDateIsFirst(s: Schedule, a: Almanac, after: int, offset: nat)
    requires offset <= 9
    ensures var today, r := a.date(after), FirstDate(s, a, after, offset);
      && (r.Some? ==> today + offset <= r.value && Permitted(s, r.value) && a.occurs(r.value) > after)
      && (forall d | today + offset <= d < if r.Some? then r.value else today + 9 ::
            Permitted(s, d) ==> a.occurs(d) <= after)
    decreases 9 - offset
  {
    if offset < 9 {
      FirstDateIsFirst(s, a, after, offset + 1);
    }
  }

  // A permitted date still ahead, all earlier ones being past.
  ghost predicate Earliest(s: Schedule, a: Almanac, after: int, d: int) {
    && Permitted(s, d) && a.occurs(d) > after
    && (forall e | Permitted(s, e) && e < d :: a.occurs(e) <= after)
    && (forall e | Permitted(s, e) && d < e :: a.occurs(d) < a.occurs(e))
  }

  lemma FirstDateIsEarliest(s: Schedule, a: Almanac, after: int)
    requires Valid(s) && s.mode != Interval && Reliable(a)
    ensures FindsEarliest(s, a, after)
  {
    FirstDateIsFirst(s, a, after, 0);
    var soon := NextPermitted(s, a.date(after) + 1, 1);
    assert Placed(a, soon, after);
    var d := FirstDate(s, a, after, 0).value;
    forall e | Permitted(s, e) && e < d ensures a.occurs(e) <= after {
      assert Placed(a, e, after);
    }
  }

  ghost predicate FindsEarliest(s: Schedule, a: Almanac, after: int) {
    FirstDate(s, a, after, 0).Some? && Earliest(s, a, after, FirstDate(s, a, after, 0).value)
  }

  lemma AlmanacIsReliable(s: Schedule, z: Zone)
    requires Valid(s) && WellFormed(z) && Searchable(z)
    ensures Reliable(AlmanacOf(s, z))
  {
    var a := AlmanacOf(s, z);
    forall d: int, u: int ensures Placed(a, d, u) {
      OccurrenceIsReading(s, z, d);
      ScheduledIsMinute(s, d);
      DateOfWallTime(s, d);
      if d < a.date(u) {
        EarlierDateIsPast(z, Scheduled(s, d), u);
      } else if a.date(u) + 2 <= d {
        LaterDateIsAhead(z, Scheduled(s, d), u);
      }
    }
    forall d: int, e: int | d < e ensures a.occurs(d) < a.occurs(e) {
      OccurrenceIsReading(s, z, d);
      OccurrenceIsReading(s, z, e);
      LaterReadingIsLater(z, Scheduled(s, d), Scheduled(s, e));
    }
  }

  /**
   The search never fails: the run is the occurrence of a date on a listed weekday, lies strictly ahead, and no earlier date on
   a listed weekday is still ahead.
   */
  lemma NextRunIsEarliest(s: Schedule, z: Zone, after: int, interval: int) returns (d: int)
    requires if s.mode == Daily then s.weekdays == {} else s.mode == Weekly && s.weekdays != {} && s.weekdays <= {0, 1, 2, 3, 4, 5, 6}
    requires s.localTime.Some? && s.localTime.value < 1440 && WellFormed(z) && Searchable(z)
    ensures NextRun(s, z, after, interval) == Ok(Occurrence(s, z, d)) && Occurrence(s, z, d) > after
    ensures s.mode == Weekly ==> exists w :: w in s.weekdays && d % 7 == (w + 4) % 7
    ensures forall e | e < d && (s.mode == Weekly ==> exists w :: w in s.weekdays && e % 7 == (w + 4) % 7) :: Occurrence(s, z, e) <= after
  {
    d := SearchFinds(s, z, after, interval);
    PermittedIff(s, d);
    forall e | e < d && (s.mode == Weekly ==> exists w :: w in s.weekdays && e % 7 == (w + 4) % 7) ensures Occurrence(s, z, e) <= after {
      PermittedIff(s, e);
    }
  }

  lemma SearchFinds(s: Schedule, z: Zone, after: int, interval: int) returns (d: int)
    requires Valid(s) && s.mode != Interval && WellFormed(z) && Searchable(z)
    ensures NextRun(s, z, after, interval) == Ok(Occurrence(s, z, d)) && Occurrence(s, z, d) > after && Permitted(s, d)
    ensures forall e | Permitted(s, e) && e < d :: Occurrence(s, z, e) <= after
  {
    var a := AlmanacOf(s, z);
    AlmanacIsReliable(s, z);
    FirstDateIsEarliest(s, a, after);
    d := FirstDate(s, a, after, 0).value;
    forall e | Permitted(s, e) && e < d ensures Occurrence(s, z, e) <= after {
      assert a.occurs(e) == Occurrence(s, z, e);
    }
  }

  // In such a zone a later date has the later occurrence.
  lemma OccurrencesIncrease(s: Schedule, z: Zone, d: int, e: int)
    requires WellFormed(z) && Searchable(z) && d < e
    ensures Occurrence(s, z, d) < Occurrence(s, z, e)
  {
    OccurrenceIsReading(s, z, d);
    OccurrenceIsReading(s, z, e);
    LaterReadingIsLater(z, Scheduled(s, d), Scheduled(s, e));
  }

  // Asked on Thursday, 1 January 1970, at midnight UTC, a schedule for Mondays at 00:00 answers with Monday, the fifth.
  lemma FirstMonday(interval: int)
    ensures NextRun(Schedule(Weekly, Some(0), {0}), Zone(0, []), 0, interval) == Ok(345_600_000_000)
  {
    var s, z := Schedule(Weekly, Some(0), {0}), Zone(0, []);
    var a := AlmanacOf(s, z);
    assert a.date(0) == 0 && !Permitted(s, 0) && !Permitted(s, 1) && !Permitted(s, 2) && !Permitted(s, 3);
    assert a.occurs(4) == 345_600_000_000 && Permitted(s, 4);
    assert FirstDate(s, a, 0, 4) == Some(4);
    assert FirstDate(s, a, 0, 2) == FirstDate(s, a, 0, 3) == Some(4);
  }

  /**
   The occurrence of a date is the first instant at which the wall clock shows the scheduled time of that date, or, when the
   clock skips that time, it is shown moved forward by the gap.
   */
  lemma OccurrenceShowsScheduledTime(s: Schedule, z: Zone, d: int)
    requires WellFormed(z) && s.localTime.Some?
    ensures var w, u := d * 86_400_000_000 + s.localTime.value * 60_000_000, Occurrence(s, z, d);
      && (forall v | v < u :: Local(z, v) != w)
      && (Local(z, u) != w ==> exists i ::
            && 0 <= i < |z.transitions| && z.transitions[i].at + Offset(z, i) <= w < z.transitions[i].at + Offset(z, i + 1)
            && Local(z, u) == w + Offset(z, i + 1) - Offset(z, i))
  {
    var w := Scheduled(s, d);
    OccurrenceIsReading(s, z, d);
    WallTimeShows(z, w);
    forall v | v < Utc(z, w, false) ensures Local(z, v) != w {
      NotYetReached(z, w, v);
    }
  }

  // One step of the iteration goes from a permitted date to the next permitted one.
  lemma NextIsNextDate(s: Schedule, a: Almanac, d: int, interval: int)
    requires Valid(s) && s.mode != Interval && Reliable(a)
    ensures Next(s, a, a.occurs(d), interval) == Ok(a.occurs(NextPermitted(s, d, 1)))
  {
    FirstDateIsEarliest(s, a, a.occurs(d));
    var e, next := FirstDate(s, a, a.occurs(d), 0).value, NextPermitted(s, d, 1);
    EarliestIsNext(s, a, d, e, next);
  }

  lemma EarliestIsNext(s: Schedule, a: Almanac, d: int, e: int, next: int)
    requires Reliable(a) && Earliest(s, a, a.occurs(d), e)
    requires d < next && Permitted(s, next) && forall x | d < x < next :: !Permitted(s, x)
    ensures e == next
  {
    assert a.occurs(d) < a.occurs(next);
    assert d < e;
  }

  // Whatever the zone, a wall-clock run lies ahead of the given instant, and on a whole second; an interval is simply added.
  lemma NextRunIsAhead(s: Schedule, z: Zone, after: int, interval: int)
    ensures s.mode == Interval ==> NextRun(s, z, after, interval) == Ok(after + interval * 1_000_000)
    ensures s.mode != Interval && NextRun(s, z, after, interval).Ok? ==> NextRun(s, z, after, interval).value > after
    ensures s.mode != Interval && NextRun(s, z, after, interval).Ok? && WellFormed(z) && WholeSeconds(z) ==>
      NextRun(s, z, after, interval).value % SECOND == 0
  {
    var d := FirstDate(s, AlmanacOf(s, z), after, 0);
    if d.Some? {
      FirstDateIsFirst(s, AlmanacOf(s, z), after, 0);
      if WellFormed(z) && WholeSeconds(z) {
        OccurrenceIsWholeSecond(s, z, d.value);
      }
    }
  }

  /// Iterating the schedule.

  function Runs(s: Schedule, a: Almanac, after: int, interval: int, n: nat): Result<seq<int>, ScheduleError>
    decreases n
  {
    if n == 0 then Ok([])
    else
      var next :- Next(s, a, after, interval);
      var rest :- Runs(s, a, next, interval, n - 1);
      Ok([next] + rest)
  }

  // The permitted dates from `d` on, in order.
  function DatesFrom(s: Schedule, d: int, n: nat): (r: seq<int>)
    requires Valid(s) && s.mode != Interval
    ensures |r| == n
    decreases n
  {
    if n == 0 then [] else [d] + DatesFrom(s, NextPermitted(s, d, 1), n - 1)
  }

  // They increase and leave no permitted date out.
  lemma {:induction false} DatesFromIsComplete(s: Schedule, d: int, n: nat)
    requires Valid(s) && s.mode != Interval && Permitted(s, d)
    ensures forall i | 0 <= i < n :: d <= DatesFrom(s, d, n)[i] && Permitted(s, DatesFrom(s, d, n)[i])
    ensures forall i, j | 0 <= i < j < n :: DatesFrom(s, d, n)[i] < DatesFrom(s, d, n)[j]
    ensures forall e | n > 0 && d <= e <= DatesFrom(s, d, n)[n - 1] && Permitted(s, e) :: e in DatesFrom(s, d, n)
    decreases n
  {
    if n > 0 {
      var next := NextPermitted(s, d, 1);
      DatesFromIsComplete(s, next, n - 1);
      var rest := DatesFrom(s, next, n - 1);
      assert DatesFrom(s, d, n) == [d] + rest;
      assert n > 1 ==> DatesFrom(s, d, n)[n - 1] == rest[n - 2];
    }
  }

  function Occurrences(a: Almanac, dates: seq<int>): seq<int> {
    if dates == [] then [] else [a.occurs(dates[0])] + Occurrences(a, dates[1..])
  }

  lemma {:induction false} RunsFromDate(s: Schedule, a: Almanac, d: int, interval: int, n: nat)
    requires Valid(s) && s.mode != Interval && Reliable(a)
    ensures Runs(s, a, a.occurs(d), interval, n) == Ok(Occurrences(a, DatesFrom(s, NextPermitted(s, d, 1), n)))
    decreases n
  {
    if n > 0 {
      NextIsNextDate(s, a, d, interval);
      RunsFromDate(s, a, NextPermitted(s, d, 1), interval, n - 1);
    }
  }

  /** Iterating the schedule visits every permitted local date from the earliest one on, once and in order. */
  lemma RunsVisitEveryDate(s: Schedule, z: Zone, after: int, interval: int, n: nat)
    requires Valid(s) && s.mode != Interval && WellFormed(z) && Searchable(z)
    ensures exists d :: Earliest(s, AlmanacOf(s, z), after, d)
                     && Runs(s, AlmanacOf(s, z), after, interval, n) == Ok(Occurrences(AlmanacOf(s, z), DatesFrom(s, d, n)))
  {
    var a := AlmanacOf(s, z);
    AlmanacIsReliable(s, z);
    RunsVisitDates(s, a, after, interval, n);
  }

  lemma RunsVisitDates(s: Schedule, a: Almanac, after: int, interval: int, n: nat)
    requires Valid(s) && s.mode != Interval && Reliable(a)
    ensures exists d :: Earliest(s, a, after, d) && Runs(s, a, after, interval, n) == Ok(Occurrences(a, DatesFrom(s, d, n)))
  {
    FirstDateIsEarliest(s, a, after);
    var d := FirstDate(s, a, after, 0).value;
    if n > 0 {
      RunsFromDate(s, a, d, interval, n - 1);
    }
    assert Earliest(s, a, after, d);
  }

  /// Exactly those zones.

  ghost predicate AlwaysFindsEarliest(z: Zone) {
    forall s: Schedule, after: int | Valid(s) && s.mode != Interval :: FindsEarliest(s, AlmanacOf(s, z), after)
  }

  function DailyAt(w: int): Schedule {
    Schedule(Daily, Some((w - Midnight(Date(w))) / 60_000_000), {})
  }

  lemma DailyAtIs(w: int)
    requires w % MINUTE == 0
    ensures Valid(DailyAt(w)) && Scheduled(DailyAt(w), Date(w)) == w
  {
    var minutes := w / 60_000_000;
    assert w == minutes * 60_000_000 && Midnight(Date(w)) == 1440 * Date(w) * 60_000_000;
    assert (w - Midnight(Date(w))) / 60_000_000 == minutes - 1440 * Date(w);
  }

  // The last instant before a skipped time is shown, and the date after next when a clock is set back.
  function BeforeShown(z: Zone, i: nat, w: int): int
    requires i < |z.transitions|
  {
    w - Offset(z, i) - 1
  }

  function DateAfterNext(z: Zone, i: nat): int
    requires i < |z.transitions|
  {
    Date(z.transitions[i].at + Offset(z, i + 1)) + 2
  }

  // Just before a skipped minute is shown on a later date, the search starts after the date it belongs to.
  lemma SkippedMinuteIsMissed(z: Zone, i: nat, w: int)
    requires WellFormed(z) && i < |z.transitions| && !MinuteStays(w, Offset(z, i), Offset(z, i + 1))
    requires z.transitions[i].at + Offset(z, i) < w < z.transitions[i].at + Offset(z, i + 1)
    ensures !FindsEarliest(DailyAt(w), AlmanacOf(DailyAt(w), z), BeforeShown(z, i, w))
  {
    var s, d, after := DailyAt(w), Date(w), BeforeShown(z, i, w);
    var a := AlmanacOf(s, z);
    DailyAtIs(w);
    SkippedReading(z, i, w);
    OccurrenceIsReading(s, z, d);
    DateGrowsWith(w, w + (Offset(z, i + 1) - Offset(z, i)) - 1);
    assert a.date(after) == Date(w + (Offset(z, i + 1) - Offset(z, i)) - 1);
    MissedWhenEarlier(s, a, after, d);
  }

  lemma MissedWhenEarlier(s: Schedule, a: Almanac, after: int, d: int)
    requires Permitted(s, d) && a.occurs(d) > after && d < a.date(after)
    ensures !FindsEarliest(s, a, after)
  {
    FirstDateIsFirst(s, a, after, 0);
  }

  // A weekly run at the start of a date shown before a long set back is past, and a week later is out of reach.
  lemma LongSetBackFails(z: Zone, i: nat)
    requires WellFormed(z) && i < |z.transitions|
    requires Midnight(DateAfterNext(z, i)) < z.transitions[i].at + Offset(z, i)
    ensures var s := AtMidnightOf(DateAfterNext(z, i));
      FirstDate(s, AlmanacOf(s, z), z.transitions[i].at, 0).None?
  {
    var t := z.transitions[i].at;
    var d := DateAfterNext(z, i);
    var s := AtMidnightOf(d);
    MidnightAfterNext(t + Offset(z, i + 1));
    assert Scheduled(s, d) == Midnight(d);
    SetBackReading(z, i, Midnight(d));
    OccurrenceIsReading(s, z, d);
    OnlyCandidatePast(s, AlmanacOf(s, z), t, d);
  }

  function AtMidnightOf(d: int): (s: Schedule)
    ensures Valid(s) && s.mode != Interval && s.localTime == Some(0) && forall e :: Permitted(s, e) <==> Weekday(e) == Weekday(d)
  {
    Schedule(Weekly, Some(0), {Weekday(d)})
  }

  lemma MidnightAfterNext(x: int)
    ensures x + DAY < Midnight(Date(x) + 2)
  {
  }

  lemma OnlyCandidatePast(s: Schedule, a: Almanac, after: int, d: int)
    requires a.date(after) == d - 2 && a.occurs(d) <= after
    requires forall e :: Permitted(s, e) <==> Weekday(e) == Weekday(d)
    ensures FirstDate(s, a, after, 0).None?
  {
    FirstDateIsFirst(s, a, after, 0);
  }

  /** For every valid schedule and instant the search finds the earliest occurrence, if and only if the zone is of this kind. */
  lemma SearchIsSoundIff(z: Zone)
    requires WellFormed(z)
    ensures AlwaysFindsEarliest(z) <==> Searchable(z)
  {
    if AlwaysFindsEarliest(z) {
      forall i | 0 <= i < |z.transitions| ensures SoundAt(z, i) {
        SoundSearchMeansSound(z, i);
      }
    }
    if Searchable(z) {
      forall s: Schedule, after: int | Valid(s) && s.mode != Interval ensures FindsEarliest(s, AlmanacOf(s, z), after) {
        AlmanacIsReliable(s, z);
        FirstDateIsEarliest(s, AlmanacOf(s, z), after);
      }
    }
  }

  lemma SoundSearchMeansSound(z: Zone, i: nat)
    requires WellFormed(z) && AlwaysFindsEarliest(z) && i < |z.transitions|
    ensures SoundAt(z, i)
  {
    var t, before, after := z.transitions[i].at, Offset(z, i), Offset(z, i + 1);
    forall w: int | t + before < w < t + after ensures MinuteStays(w, before, after) {
      SoundSearchKeepsMinutes(z, i, w);
    }
    SoundSearchBoundsSetBack(z, i);
  }

  lemma SoundSearchKeepsMinutes(z: Zone, i: nat, w: int)
    requires WellFormed(z) && AlwaysFindsEarliest(z) && i < |z.transitions|
    requires z.transitions[i].at + Offset(z, i) < w < z.transitions[i].at + Offset(z, i + 1)
    ensures MinuteStays(w, Offset(z, i), Offset(z, i + 1))
  {
    if !MinuteStays(w, Offset(z, i), Offset(z, i + 1)) {
      DailyAtIs(w);
      SkippedMinuteIsMissed(z, i, w);
    }
  }

  lemma SoundSearchBoundsSetBack(z: Zone, i: nat)
    requires WellFormed(z) && AlwaysFindsEarliest(z) && i < |z.transitions|
    ensures z.transitions[i].at + Offset(z, i) <= Midnight(DateAfterNext(z, i))
  {
    var d := DateAfterNext(z, i);
    if Midnight(d) < z.transitions[i].at + Offset(z, i) {
      assert FindsEarliest(AtMidnightOf(d), AlmanacOf(AtMidnightOf(d), z), z.transitions[i].at);
      LongSetBackFails(z, i);
    }
  }

  // A zone that keeps its dates is one of them, but not the only kind.
  lemma KeptDatesAreSearchable(z: Zone)
    requires WellFormed(z) && KeepsDates(z)
    ensures Searchable(z)
  {
    forall i | 0 <= i < |z.transitions| ensures SoundAt(z, i) {
      assert KeptAt(z, i);
      KeptIsSound(z.transitions[i].at, Offset(z, i), Offset(z, i + 1));
    }
  }

  lemma KeptIsSound(at: int, before: int, after: int)
    requires DateKept(at, before, after)
    ensures Sound(at, before, after)
  {
    forall w: int | at + before < w < at + after ensures MinuteStays(w, before, after) {
      DateGrowsWith(at + before, w);
      DateGrowsWith(w, w + (after - before) - 1);
      DateGrowsWith(w + (after - before) - 1, at + after + (after - before) - 1);
    }
  }

  // Midnight repeated, as once in Newfoundland (00:01 back to 23:01): dates run backwards, and the search is right all the same.
  lemma RepeatedMidnightIsSearchable()
    ensures var z := Zone(0, [Transition(MINUTE, -HOUR)]); WellFormed(z) && !KeepsDates(z) && AlwaysFindsEarliest(z)
  {
    var z := Zone(0, [Transition(MINUTE, -HOUR)]);
    assert Offset(z, 0) == 0 && Offset(z, 1) == -HOUR;
    assert !KeptAt(z, 0);
    assert SoundAt(z, 0);
    SearchIsSoundIff(z);
  }

  // A gap in the late evening (22:30 to 23:30): asked at 00:05 of the next date, the search for 23:15 misses the run of the
  // skipped time, which is still ten minutes ahead, and answers with the next evening.
  lemma EveningGapMissesRun()
    ensures var z := Zone(0, [Transition(1350 * MINUTE, HOUR)]);
      var s, after := Schedule(Daily, Some(1395), {}), 1385 * MINUTE;
      && Valid(s) && WellFormed(z) && !Searchable(z) && Local(z, after) == Midnight(1) + 5 * MINUTE
      && Occurrence(s, z, 0) == after + 10 * MINUTE
      && FirstDate(s, AlmanacOf(s, z), after, 0) == Some(1) && Occurrence(s, z, 1) == after + 1390 * MINUTE
  {
    var z := Zone(0, [Transition(1350 * MINUTE, HOUR)]);
    var s, after := Schedule(Daily, Some(1395), {}), 1385 * MINUTE;
    assert Offset(z, 0) == 0 && Offset(z, 1) == HOUR;
    OccurrenceIsReading(s, z, 0);
    OccurrenceIsReading(s, z, 1);
    WallIndexIs(z, Scheduled(s, 0), false, 0);
    WallIndexIs(z, Scheduled(s, 1), false, 1);
    InstantIndexIs(z, after, 1);
    assert !MinuteStays(Scheduled(s, 0), 0, HOUR);
    assert !SoundAt(z, 0);
  }

  // A zone that skips a whole date, as Samoa did, gives two dates the same occurrence: the iteration misses one.
  lemma SkippedDateSharesOccurrence(s: Schedule)
    requires Valid(s)
    ensures var z := Zone(-10 * HOUR, [Transition(10 * HOUR, 14 * HOUR)]);
      WellFormed(z) && !Searchable(z) && Occurrence(s, z, 0) == Occurrence(s, z, 1)
  {
    var z := Zone(-10 * HOUR, [Transition(10 * HOUR, 14 * HOUR)]);
    OccurrenceIsReading(s, z, 0);
    OccurrenceIsReading(s, z, 1);
    assert 0 <= WallTime(s) < DAY;
    WallIndexIs(z, Scheduled(s, 0), false, 0);
    WallIndexIs(z, Scheduled(s, 1), false, 1);
    assert !MinuteStays(HOUR, -10 * HOUR, 14 * HOUR);
    assert !SoundAt(z, 0);
  }
}
