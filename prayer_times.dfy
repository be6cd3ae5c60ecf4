/** The prayer-times widget: five `HH:MM` timings become a day's schedule in
  * which the first prayer still ahead is marked next (or, late at night,
  * tomorrow's Fajr), followed by a countdown and a progress bar.
  *
  * Instants are integers counting milliseconds; `midnight` is the instant at
  * which the viewer's current local day began and every day is `DAY` long. */
module PrayerTimes {
  import opened Wrappers
  import opened Text

  const SECOND: int := 1000
  const MINUTE: int := 60000
  const HOUR: int := 3600000
  const DAY: int := 86400000

  const PRAYER_NAMES: seq<string> := ["Fajr", "Dhuhr", "Asr", "Maghrib", "Isha"]

  // ---------------------------------------------------------------------
  // Reminders

  /** Whether the bell of `name` shows as on: a missing key reads as off. */
  predicate ReminderOn(reminders: map<string, bool>, name: string)
  {
    name in reminders && reminders[name]
  }

  /** The reminder map after the bell of `name` is clicked. */
  function Toggled(reminders: map<string, bool>, name: string): (r: map<string, bool>)
    ensures r.Keys == reminders.Keys + {name}
    ensures ReminderOn(r, name) == !ReminderOn(reminders, name)
    ensures forall k :: k in reminders && k != name ==> k in r && r[k] == reminders[k]
  {
    reminders[name := !ReminderOn(reminders, name)]
  }

  /** Clicking the same bell twice restores what every bell shows. */
  lemma ToggleTwiceRestores(reminders: map<string, bool>, name: string, other: string)
    ensures ReminderOn(Toggled(Toggled(reminders, name), name), other) == ReminderOn(reminders, other)
  {
  }

  // ---------------------------------------------------------------------
  // Clock texts

  /** `parseInt(s, 10)` on unsigned decimal text: `None` stands for NaN. */
  function ParseInt(s: string): Option<nat>
  {
    var d := LeadingDigits(s);
    if d == [] then None else Some(DigitsValue(d))
  }

  /** `Number(s)` on unsigned decimal text: the empty string is 0 and any
    * other character makes it NaN (`None`). */
  function NumberValue(s: string): Option<nat>
  {
    if AllDigits(s) then Some(DigitsValue(s)) else None
  }

  /** `convertTo12Hour`: the hour field through `parseInt`, the minute field
    * (the text between the first and second ':') copied as it is. A NaN hour
    * fails `h >= 12` and `h % 12 || 12` falls back to 12, hence "12:… AM". */
  function To12Hour(time24: string): string
  {
    var hours := Before(time24, ':');
    var minutes := match SecondField(time24, ':') case None => "undefined" case Some(m) => m;
    match ParseInt(hours)
    case None => "12:" + minutes + " AM"
    case Some(h) => HourText(h) + ":" + minutes + Meridiem(h)
  }

  /** `h % 12 || 12` rendered. */
  function HourText(h: nat): string
  {
    NatToString(if h % 12 == 0 then 12 else h % 12)
  }

  function Meridiem(h: nat): string
  {
    if h >= 12 then " PM" else " AM"
  }

  /** On a 24-hour clock hour: 0 and 12 both read 12, 13 to 23 lose 12,
    * and the afternoon is exactly the hours from 12 on. */
  lemma HourTextOfClockHour(h: nat)
    requires h < 24
    ensures h == 0 || h == 12 ==> HourText(h) == "12"
    ensures 13 <= h ==> HourText(h) == NatToString(h - 12)
    ensures 1 <= h < 12 ==> HourText(h) == NatToString(h)
    ensures Meridiem(h) == if h < 12 then " AM" else " PM"
  {
    if h == 0 || h == 12 {
      assert NatToString(12) == NatToString(1) + [DigitChar(2)];
    }
  }

  lemma FieldsOfClockText(hh: string, mm: string)
    requires AllDigits(hh) && ':' !in mm
    ensures Before(hh + ":" + mm, ':') == hh
    ensures SecondField(hh + ":" + mm, ':') == Some(mm)
  {
    DigitsHaveNoSeparator(hh, ':');
    SplitAtJoin(hh, ':', mm);
    assert hh + ":" + mm == hh + [':'] + mm;
  }

  /** The 12-hour rendering of a 24-hour `HH:MM`: hour 0 is 12 AM, hour 12 is
    * 12 PM, 13 to 23 lose 12 and are PM, 1 to 11 stay AM; the minutes are
    * copied and the hour is not padded. */
  lemma To12HourOfClock(hh: string, mm: string)
    requires hh != "" && AllDigits(hh) && ':' !in mm && DigitsValue(hh) < 24
    ensures var h, r := DigitsValue(hh), To12Hour(hh + ":" + mm);
      && (h == 0 ==> r == "12" + ":" + mm + " AM")
      && (h == 12 ==> r == "12" + ":" + mm + " PM")
      && (13 <= h ==> r == NatToString(h - 12) + ":" + mm + " PM")
      && (1 <= h < 12 ==> r == NatToString(h) + ":" + mm + " AM")
  {
    To12HourOfDigits(hh, mm);
    var h := DigitsValue(hh);
    HourTextOfClockHour(h);
  }

  /** Half past midnight reads 12:30 AM. */
  lemma To12HourAfterMidnight()
    ensures To12Hour("00:30") == "12:30 AM"
  {
    assert "00:30" == "00" + ":" + "30";
    assert DigitsValue("00") == 0 by { ValueOfTwoDigits(0, 0); }
    To12HourOfDigits("00", "30");
    HourTextOfClockHour(0);
    assert "12" + ":" + "30" + " AM" == "12:30 AM";
  }

  /** Five past one in the afternoon reads 1:05 PM. */
  lemma To12HourAfternoon()
    ensures To12Hour("13:05") == "1:05 PM"
  {
    assert "13:05" == "13" + ":" + "05";
    assert DigitsValue("13") == 13 by { ValueOfTwoDigits(1, 3); }
    To12HourOfDigits("13", "05");
    HourTextOfClockHour(13);
    assert NatToString(1) == "1";
    assert "1" + ":" + "05" + " PM" == "1:05 PM";
  }

  lemma To12HourOfDigits(hh: string, mm: string)
    requires hh != "" && AllDigits(hh) && ':' !in mm
    ensures To12Hour(hh + ":" + mm) == HourText(DigitsValue(hh)) + ":" + mm + Meridiem(DigitsValue(hh))
  {
    FieldsOfClockText(hh, mm);
    LeadingDigitsOfDigits(hh);
  }

  /** A time of day as the timings provider gives it. */
  datatype Clock = Clock(hours: nat, minutes: nat)

  /** `time.split(':').map(Number)` destructured as `[h, m]`; a missing minute
    * field or a non-numeric one is NaN (`None`). */
  function ParseClock(time: string): Option<Clock>
  {
    match SecondField(time, ':')
    case None => None
    case Some(ms) =>
      match (NumberValue(Before(time, ':')), NumberValue(ms))
      case (Some(h), Some(m)) => Some(Clock(h, m))
      case _ => None
  }

  lemma ParseClockOfDigits(hh: string, mm: string)
    requires AllDigits(hh) && AllDigits(mm)
    ensures ParseClock(hh + ":" + mm) == Some(Clock(DigitsValue(hh), DigitsValue(mm)))
  {
    DigitsHaveNoSeparator(mm, ':');
    FieldsOfClockText(hh, mm);
  }

  /** `setHours(h, m, 0, 0)` on a copy of now: the instant that many hours and
    * minutes after today's midnight (hours past 23 roll into the next day). */
  function TodayInstant(c: Clock, midnight: int): int
  {
    midnight + c.hours * HOUR + c.minutes * MINUTE
  }

  // ---------------------------------------------------------------------
  // The schedule

  datatype PrayerEntry = PrayerEntry(name: string, time: string, displayTime: string, isNext: bool, instant: int)

  /** The list shown, the next prayer and the reference instant its progress
    * bar starts from. */
  datatype Schedule = Schedule(prayers: seq<PrayerEntry>, next: PrayerEntry, prevInstant: int)

  predicate Parses(timings: map<string, string>, name: string)
  {
    name in timings && ParseClock(timings[name]).Some?
  }

  predicate AllTimingsParse(timings: map<string, string>)
  {
    forall i :: 0 <= i < |PRAYER_NAMES| ==> Parses(timings, PRAYER_NAMES[i])
  }

  function InstantOf(timings: map<string, string>, name: string, midnight: int): int
    requires Parses(timings, name)
  {
    TodayInstant(ParseClock(timings[name]).value, midnight)
  }

  function TodayInstants(timings: map<string, string>, midnight: int): (r: seq<int>)
    requires AllTimingsParse(timings)
    ensures |r| == |PRAYER_NAMES|
    ensures forall i :: 0 <= i < |r| ==> r[i] == InstantOf(timings, PRAYER_NAMES[i], midnight)
    ensures forall i :: 0 <= i < |r| ==> r[i] == EntryOf(timings, i, midnight).instant
  {
    seq(|PRAYER_NAMES|, i requires 0 <= i < |PRAYER_NAMES| => InstantOf(timings, PRAYER_NAMES[i], midnight))
  }

  /** The entry for the prayer at position `i`, as the scan first builds it. */
  function EntryOf(timings: map<string, string>, i: nat, midnight: int): PrayerEntry
    requires i < |PRAYER_NAMES| && Parses(timings, PRAYER_NAMES[i])
  {
    var name := PRAYER_NAMES[i];
    PrayerEntry(name, timings[name], To12Hour(timings[name]), false, InstantOf(timings, name, midnight))
  }

  /** The five entries as the scan first builds them, none marked next. */
  function BaseEntries(timings: map<string, string>, midnight: int): (r: seq<PrayerEntry>)
    requires AllTimingsParse(timings)
    ensures |r| == |PRAYER_NAMES|
    ensures forall i :: 0 <= i < |r| ==> r[i] == EntryOf(timings, i, midnight)
  {
    seq(|PRAYER_NAMES|, i requires 0 <= i < |PRAYER_NAMES| => EntryOf(timings, i, midnight))
  }

  /** The position of the first instant strictly after `now`. */
  function FirstAfter(instants: seq<int>, now: int): (r: Option<nat>)
    ensures r.Some? ==> r.value < |instants| && instants[r.value] > now
    ensures r.Some? ==> forall j :: 0 <= j < r.value ==> instants[j] <= now
    ensures r.None? ==> forall j :: 0 <= j < |instants| ==> instants[j] <= now
  {
    if instants == [] then None
    else if instants[0] > now then Some(0)
    else match FirstAfter(instants[1..], now)
      case None => None
      case Some(k) => Some(k + 1)
  }

  lemma {:induction false} FirstAfterFinds(instants: seq<int>, now: int, k: nat)
    requires k < |instants| && instants[k] > now
    requires forall j :: 0 <= j < k ==> instants[j] <= now
    ensures FirstAfter(instants, now) == Some(k)
  {
    if k > 0 {
      assert instants[0] <= now;
      FirstAfterFinds(instants[1..], now, k - 1);
    }
  }

  lemma {:induction false} FirstAfterNone(instants: seq<int>, now: int)
    requires forall j :: 0 <= j < |instants| ==> instants[j] <= now
    ensures FirstAfter(instants, now) == None
  {
    if instants != [] {
      assert instants[0] <= now;
      FirstAfterNone(instants[1..], now);
    }
  }

  /** The schedule the builder produces, stated as a value. */
  function ScheduleOf(timings: map<string, string>, midnight: int, now: int): Option<Schedule>
  {
    if !AllTimingsParse(timings) then None
    else
      var today := TodayInstants(timings, midnight);
      var base := BaseEntries(timings, midnight);
      match FirstAfter(today, now)
      case Some(k) =>
        var ps := base[k := base[k].(isNext := true)];
        Some(Schedule(ps, ps[k], if k > 0 then today[k - 1] else now - DAY))
      case None =>
        var first := base[0].(isNext := true, instant := today[0] + DAY);
        Some(Schedule(base[0 := first], first, today[|PRAYER_NAMES| - 1]))
  }

  /** What the scan knows after the first `n` names: all of them parsed, the
    * entries built in order, `k` the one marked next (or -1), every earlier
    * one at or before now, and the next prayer and reference instant that
    * go with `k`. */
  predicate Scanned(timings: map<string, string>, midnight: int, now: int, n: nat, k: int,
                    prayers: seq<PrayerEntry>, found: bool, nextPrayer: Option<PrayerEntry>, prev: int)
  {
    && n <= |PRAYER_NAMES| && |prayers| == n && -1 <= k < n
    && (forall j :: 0 <= j < n ==> Parses(timings, PRAYER_NAMES[j]))
    && (forall j :: 0 <= j < n ==> prayers[j] == EntryOf(timings, j, midnight).(isNext := j == k))
    && (found <==> 0 <= k)
    && (0 <= k ==> prayers[k].instant > now && nextPrayer == Some(prayers[k]))
    && (forall j :: 0 <= j < n && (k < 0 || j < k) ==> prayers[j].instant <= now)
    && prev == (if 0 < k then prayers[k - 1].instant else now - DAY)
  }

  /** One more name scanned keeps `Scanned`. */
  lemma ScannedStep(timings: map<string, string>, midnight: int, now: int, index: nat, k: int,
                    prayers: seq<PrayerEntry>, found: bool, nextPrayer: Option<PrayerEntry>, prev: int,
                    marks: bool, entry: PrayerEntry, found': bool, nextPrayer': Option<PrayerEntry>, prev': int)
    requires index < |PRAYER_NAMES| && Scanned(timings, midnight, now, index, k, prayers, found, nextPrayer, prev)
    requires Parses(timings, PRAYER_NAMES[index])
    requires marks == (!found && EntryOf(timings, index, midnight).instant > now)
    requires entry == EntryOf(timings, index, midnight).(isNext := marks)
    requires found' == (found || marks) && nextPrayer' == (if marks then Some(entry) else nextPrayer)
    requires prev' == (if marks && 0 < index then EntryOf(timings, index - 1, midnight).instant else prev)
    ensures Scanned(timings, midnight, now, index + 1, if marks then index else k,
                    prayers + [entry], found', nextPrayer', prev')
  {
  }

  /** The callback of the `map` over the five names: it builds the entry at
    * `index` and, for the first prayer strictly after now, records it as
    * next and moves the reference instant to the prayer before it. `None`
    * stands for the timing that is missing or not numeric. */
  method ScanPrayer(timings: map<string, string>, midnight: int, now: int, index: nat,
                    found: bool, nextPrayer: Option<PrayerEntry>, prev: int)
    returns (entry: Option<PrayerEntry>, found': bool, nextPrayer': Option<PrayerEntry>, prev': int)
    requires index < |PRAYER_NAMES|
    requires 0 < index ==> Parses(timings, PRAYER_NAMES[index - 1])
    ensures entry.None? <==> !Parses(timings, PRAYER_NAMES[index])
    ensures entry.Some? ==>
      var marks := !found && EntryOf(timings, index, midnight).instant > now;
      && entry.value == EntryOf(timings, index, midnight).(isNext := marks)
      && found' == (found || marks)
      && nextPrayer' == (if marks then entry else nextPrayer)
      && prev' == (if marks && 0 < index then EntryOf(timings, index - 1, midnight).instant else prev)
  {
    found', nextPrayer', prev' := found, nextPrayer, prev;
    var name := PRAYER_NAMES[index];
    if name !in timings {
      return None, found', nextPrayer', prev';
    }
    var clock := ParseClock(timings[name]);
    if clock.None? {
      return None, found', nextPrayer', prev';
    }
    var prayerInstant := TodayInstant(clock.value, midnight);
    var isNext := false;
    if !found && prayerInstant > now {
      isNext := true;
      found' := true;
      nextPrayer' := Some(PrayerEntry(name, timings[name], To12Hour(timings[name]), isNext, prayerInstant));
      if index > 0 {
        var prevName := PRAYER_NAMES[index - 1];
        var prevClock := ParseClock(timings[prevName]).value;
        prev' := TodayInstant(prevClock, midnight);
      }
    }
    entry := Some(PrayerEntry(name, timings[name], To12Hour(timings[name]), isNext, prayerInstant));
  }

  /** The schedule construction of `fetchPrayerTimes`: one pass over the five
    * names with a found-flag, then the wrap to tomorrow's Fajr. A missing
    * timing makes the source throw, which it reports as a fetch failure. */
  method BuildSchedule(timings: map<string, string>, midnight: int, now: int) returns (r: Option<Schedule>)
    ensures r == ScheduleOf(timings, midnight, now)
  {
    var nextPrayerFound := false;
    var nextPrayer: Option<PrayerEntry> := None;
    var prevPrayerTime := now - DAY;
    var prayers: seq<PrayerEntry> := [];
    ghost var k: int := -1;
    var index := 0;
    while index < |PRAYER_NAMES|
      invariant Scanned(timings, midnight, now, index, k, prayers, nextPrayerFound, nextPrayer, prevPrayerTime)
    {
      var entry, found', nextPrayer', prev' :=
        ScanPrayer(timings, midnight, now, index, nextPrayerFound, nextPrayer, prevPrayerTime);
      if entry.None? {
        ScheduleOfFails(timings, midnight, now, index);
        return None;
      }
      ghost var marks := !nextPrayerFound && EntryOf(timings, index, midnight).instant > now;
      ScannedStep(timings, midnight, now, index, k, prayers, nextPrayerFound, nextPrayer, prevPrayerTime,
                  marks, entry.value, found', nextPrayer', prev');
      if marks {
        k := index;
      }
      prayers, nextPrayerFound, nextPrayer, prevPrayerTime := prayers + [entry.value], found', nextPrayer', prev';
      index := index + 1;
    }
    ghost var scanned, scannedNext, scannedPrev := prayers, nextPrayer, prevPrayerTime;
    if !nextPrayerFound && |prayers| > 0 {
      var tomorrowFajr := prayers[0].instant + DAY;
      prayers := prayers[0 := prayers[0].(isNext := true, instant := tomorrowFajr)];
      nextPrayer := Some(prayers[0]);
      prevPrayerTime := prayers[|prayers| - 1].instant;
    }
    r := Some(Schedule(prayers, nextPrayer.value, prevPrayerTime));
    ScanGivesSchedule(timings, midnight, now, k, scanned, nextPrayerFound, scannedNext, scannedPrev);
  }

  /** One missing or non-numeric timing and there is no schedule. */
  lemma ScheduleOfFails(timings: map<string, string>, midnight: int, now: int, i: nat)
    requires i < |PRAYER_NAMES| && !Parses(timings, PRAYER_NAMES[i])
    ensures ScheduleOf(timings, midnight, now) == None
  {
  }

  /** A full scan, followed by the wrap when nothing was marked, has built
    * `ScheduleOf`. */
  lemma ScanGivesSchedule(timings: map<string, string>, midnight: int, now: int, k: int,
                          scanned: seq<PrayerEntry>, found: bool, nextPrayer: Option<PrayerEntry>, prev: int)
    requires Scanned(timings, midnight, now, |PRAYER_NAMES|, k, scanned, found, nextPrayer, prev)
    ensures AllTimingsParse(timings)
    ensures 0 <= k ==>
      ScheduleOf(timings, midnight, now) == Some(Schedule(scanned, nextPrayer.value, prev))
    ensures k < 0 ==>
      var first := scanned[0].(isNext := true, instant := scanned[0].instant + DAY);
      ScheduleOf(timings, midnight, now) == Some(Schedule(scanned[0 := first], first, scanned[4].instant))
  {
    if 0 <= k {
      ScanFoundGivesSchedule(timings, midnight, now, k, scanned, found, nextPrayer, prev);
    } else {
      ScanWrapGivesSchedule(timings, midnight, now, k, scanned, found, nextPrayer, prev);
    }
  }

  lemma ScanFoundGivesSchedule(timings: map<string, string>, midnight: int, now: int, k: int,
                               scanned: seq<PrayerEntry>, found: bool, nextPrayer: Option<PrayerEntry>, prev: int)
    requires Scanned(timings, midnight, now, |PRAYER_NAMES|, k, scanned, found, nextPrayer, prev) && 0 <= k
    ensures AllTimingsParse(timings)
    ensures ScheduleOf(timings, midnight, now) == Some(Schedule(scanned, nextPrayer.value, prev))
  {
    var base := BaseEntries(timings, midnight);
    ScheduleOfFound(timings, midnight, now, k);
    assert scanned == base[k := base[k].(isNext := true)];
  }

  lemma ScanWrapGivesSchedule(timings: map<string, string>, midnight: int, now: int, k: int,
                              scanned: seq<PrayerEntry>, found: bool, nextPrayer: Option<PrayerEntry>, prev: int)
    requires Scanned(timings, midnight, now, |PRAYER_NAMES|, k, scanned, found, nextPrayer, prev) && k < 0
    ensures AllTimingsParse(timings)
    ensures var first := scanned[0].(isNext := true, instant := scanned[0].instant + DAY);
      ScheduleOf(timings, midnight, now) == Some(Schedule(scanned[0 := first], first, scanned[4].instant))
  {
    var base := BaseEntries(timings, midnight);
    ScheduleOfWrap(timings, midnight, now);
    assert scanned == base;
  }

  /** `ScheduleOf` when the prayer at `k` is the first still ahead. */
  lemma ScheduleOfFound(timings: map<string, string>, midnight: int, now: int, k: nat)
    requires AllTimingsParse(timings) && k < |PRAYER_NAMES|
    requires EntryOf(timings, k, midnight).instant > now
    requires forall j :: 0 <= j < k ==> EntryOf(timings, j, midnight).instant <= now
    ensures var base := BaseEntries(timings, midnight);
      ScheduleOf(timings, midnight, now) ==
        Some(Schedule(base[k := base[k].(isNext := true)], base[k].(isNext := true),
                      if k > 0 then base[k - 1].instant else now - DAY))
  {
    FirstAfterFinds(TodayInstants(timings, midnight), now, k);
  }

  /** `ScheduleOf` when every prayer of today is at or before now. */
  lemma ScheduleOfWrap(timings: map<string, string>, midnight: int, now: int)
    requires AllTimingsParse(timings)
    requires forall j :: 0 <= j < |PRAYER_NAMES| ==> EntryOf(timings, j, midnight).instant <= now
    ensures var base := BaseEntries(timings, midnight);
      var first := base[0].(isNext := true, instant := base[0].instant + DAY);
      ScheduleOf(timings, midnight, now) == Some(Schedule(base[0 := first], first, base[4].instant))
  {
    FirstAfterNone(TodayInstants(timings, midnight), now);
  }

  /** A schedule is built exactly when all five timings are present and
    * numeric; it then lists the five prayers in order with their own texts. */
  lemma ScheduleListsFivePrayers(timings: map<string, string>, midnight: int, now: int)
    ensures ScheduleOf(timings, midnight, now).Some? <==> AllTimingsParse(timings)
    ensures ScheduleOf(timings, midnight, now).Some? ==>
      var s := ScheduleOf(timings, midnight, now).value;
      && |s.prayers| == 5
      && forall i :: 0 <= i < 5 ==>
           && s.prayers[i].name == PRAYER_NAMES[i]
           && s.prayers[i].time == timings[PRAYER_NAMES[i]]
           && s.prayers[i].displayTime == To12Hour(timings[PRAYER_NAMES[i]])
  {
  }

  /** Exactly one entry is marked next, and it is the schedule's next prayer. */
  lemma ScheduleHasOneNext(timings: map<string, string>, midnight: int, now: int)
    requires ScheduleOf(timings, midnight, now).Some?
    ensures var s := ScheduleOf(timings, midnight, now).value;
      exists k :: 0 <= k < |s.prayers| && s.prayers[k].isNext && s.next == s.prayers[k]
        && forall j :: 0 <= j < |s.prayers| && j != k ==> !s.prayers[j].isNext
  {
    var s := ScheduleOf(timings, midnight, now).value;
    var today := TodayInstants(timings, midnight);
    match FirstAfter(today, now)
    case Some(k) =>
      assert s.prayers[k].isNext && s.next == s.prayers[k];
    case None =>
      assert s.prayers[0].isNext && s.next == s.prayers[0];
  }

  /** When some prayer is still ahead today, the next one is the first in list
    * order whose instant is strictly after now (a prayer exactly at now is
    * not next); instants stay today's and the progress reference is the
    * previous prayer, or now minus one day for Fajr. */
  lemma ScheduleNextIsFirstAhead(timings: map<string, string>, midnight: int, now: int, k: nat)
    requires AllTimingsParse(timings) && k < 5
    requires InstantOf(timings, PRAYER_NAMES[k], midnight) > now
    requires forall j :: 0 <= j < k ==> InstantOf(timings, PRAYER_NAMES[j], midnight) <= now
    ensures var s := ScheduleOf(timings, midnight, now).value;
      && s.next == s.prayers[k] && s.next.name == PRAYER_NAMES[k]
      && s.next.instant == InstantOf(timings, PRAYER_NAMES[k], midnight)
      && (forall j :: 0 <= j < 5 ==> (s.prayers[j].isNext <==> j == k))
      && (forall j :: 0 <= j < 5 ==> s.prayers[j].instant == InstantOf(timings, PRAYER_NAMES[j], midnight))
      && s.prevInstant == (if k > 0 then InstantOf(timings, PRAYER_NAMES[k - 1], midnight) else now - DAY)
  {
    FirstAfterFinds(TodayInstants(timings, midnight), now, k);
  }

  /** When every prayer of today has passed, Fajr becomes next and moves
    * forward by exactly one day, the reference is today's Isha and the other
    * four entries stay as built. */
  lemma ScheduleWrapsToTomorrowsFajr(timings: map<string, string>, midnight: int, now: int)
    requires AllTimingsParse(timings)
    requires forall j :: 0 <= j < 5 ==> InstantOf(timings, PRAYER_NAMES[j], midnight) <= now
    ensures var s := ScheduleOf(timings, midnight, now).value;
      && s.next == s.prayers[0] && s.next.name == "Fajr" && s.next.isNext
      && s.next.instant == InstantOf(timings, "Fajr", midnight) + DAY
      && s.prevInstant == InstantOf(timings, "Isha", midnight)
      && (forall j :: 1 <= j < 5 ==> s.prayers[j] == EntryOf(timings, j, midnight) && !s.prayers[j].isNext)
  {
    FirstAfterNone(TodayInstants(timings, midnight), now);
  }

  /** With now inside the day that starts at `midnight`, now always lies in
    * [reference, next): the countdown is positive and the progress bar's
    * interval is never empty. */
  lemma ScheduleBracketsNow(timings: map<string, string>, midnight: int, now: int)
    requires AllTimingsParse(timings)
    requires midnight <= now < midnight + DAY
    ensures var s := ScheduleOf(timings, midnight, now).value;
      s.prevInstant <= now < s.next.instant
  {
    var today := TodayInstants(timings, midnight);
    match FirstAfter(today, now)
    case Some(k) =>
      if k > 0 { assert today[k - 1] <= now; }
    case None =>
      assert today[0] >= midnight;
      assert today[4] <= now;
  }

  // ---------------------------------------------------------------------
  // Countdown and progress

  /** `HH:MM:SS`, each field `padStart(2, '0')`. */
  function ClockText(h: nat, m: nat, s: nat): string
  {
    PadStart2(NatToString(h)) + ":" + PadStart2(NatToString(m)) + ":" + PadStart2(NatToString(s))
  }

  /** Reads an `HH:MM:SS` text back into its three fields. */
  function ReadClockText(t: string): Option<(nat, nat, nat)>
  {
    if |t| == 8 && t[2] == ':' && t[5] == ':' && AllDigits(t[..2]) && AllDigits(t[3..5]) && AllDigits(t[6..])
    then Some((DigitsValue(t[..2]), DigitsValue(t[3..5]), DigitsValue(t[6..])))
    else None
  }

  /** The countdown of `updateTimer` for a positive difference: whole hours of
    * the difference modulo one day, then minutes and seconds. */
  function CountdownText(diff: int): string
    requires diff > 0
  {
    ClockText((diff % DAY) / HOUR, (diff % HOUR) / MINUTE, (diff % MINUTE) / SECOND)
  }

  lemma CountdownArithmetic(diff: int)
    requires diff > 0
    ensures (diff % DAY) / HOUR < 24 && (diff % HOUR) / MINUTE < 60 && (diff % MINUTE) / SECOND < 60
    ensures ((diff % DAY) / HOUR) * HOUR + ((diff % HOUR) / MINUTE) * MINUTE + ((diff % MINUTE) / SECOND) * SECOND
            == diff % DAY - diff % SECOND
  {
    var x := diff % DAY;
    var q := diff / DAY;
    assert diff == q * DAY + x;
    var h := x / HOUR;
    var xh := x % HOUR;
    assert x == h * HOUR + xh;
    assert diff == (q * 24 + h) * HOUR + xh;
    assert diff % HOUR == xh;
    var m := xh / MINUTE;
    var xm := xh % MINUTE;
    assert xh == m * MINUTE + xm;
    assert diff == ((q * 24 + h) * 60 + m) * MINUTE + xm;
    assert diff % MINUTE == xm;
    var s := xm / SECOND;
    var xs := xm % SECOND;
    assert diff == (((q * 24 + h) * 60 + m) * 60 + s) * SECOND + xs;
    assert diff % SECOND == xs;
  }

  lemma ClockTextReadsBack(h: nat, m: nat, s: nat)
    requires h < 100 && m < 100 && s < 100
    ensures ReadClockText(ClockText(h, m, s)) == Some((h, m, s))
  {
    TwoDigitField(h);
    TwoDigitField(m);
    TwoDigitField(s);
    ClockFields(PadStart2(NatToString(h)), PadStart2(NatToString(m)), PadStart2(NatToString(s)));
  }

  /** Where the three two-character fields sit in `HH:MM:SS`. */
  lemma ClockFields(x: string, y: string, z: string)
    requires |x| == 2 && |y| == 2 && |z| == 2
    ensures var t := x + ":" + y + ":" + z;
      |t| == 8 && t[..2] == x && t[2] == ':' && t[3..5] == y && t[5] == ':' && t[6..] == z
  {
  }

  /** The countdown text is always eight characters `HH:MM:SS` with hours
    * below 24 and minutes and seconds below 60, and it spells the time left
    * modulo one day, rounded down to whole seconds. */
  lemma CountdownReadsBack(diff: int)
    requires diff > 0
    ensures |CountdownText(diff)| == 8
    ensures ReadClockText(CountdownText(diff)).Some?
    ensures var f := ReadClockText(CountdownText(diff)).value;
      && f.0 < 24 && f.1 < 60 && f.2 < 60
      && f.0 * HOUR + f.1 * MINUTE + f.2 * SECOND == diff % DAY - diff % SECOND
  {
    CountdownArithmetic(diff);
    ClockTextReadsBack((diff % DAY) / HOUR, (diff % HOUR) / MINUTE, (diff % MINUTE) / SECOND);
  }

  /** `Math.min(100, Math.max(0, x))`. */
  function Clamp(x: real): (r: real)
    ensures 0.0 <= r <= 100.0
    ensures 0.0 <= x <= 100.0 ==> r == x
    ensures x < 0.0 ==> r == 0.0
    ensures x > 100.0 ==> r == 100.0
  {
    if x < 0.0 then 0.0 else if x > 100.0 then 100.0 else x
  }

  /** `Math.min(100, Math.max(0, (elapsed / totalDuration) * 100))` when the
    * next prayer is still ahead. A zero duration with now before the next
    * prayer means the elapsed time is negative, so JavaScript divides to
    * -Infinity and the clamp gives 0. */
  function Percent(prev: int, next: int, now: int): (r: real)
    requires now < next
    ensures 0.0 <= r <= 100.0
  {
    var total := next - prev;
    var elapsed := now - prev;
    if total == 0 then 0.0 else Clamp((elapsed as real / total as real) * 100.0)
  }

  datatype TimerReading = TimerReading(remaining: string, progress: real)

  /** The countdown text and progress `updateTimer` sets. */
  function TimerOf(next: int, prev: int, now: int): (r: TimerReading)
    ensures 0.0 <= r.progress <= 100.0
    ensures next - now <= 0 ==> r == TimerReading("00:00:00", 100.0)
  {
    var diff := next - now;
    if diff <= 0 then TimerReading("00:00:00", 100.0)
    else TimerReading(CountdownText(diff), Percent(prev, next, now))
  }

  lemma RatioBelowOne(e: real, t: real)
    requires 0.0 <= e < t
    ensures 0.0 <= (e / t) * 100.0 < 100.0
  {
    assert e / t < 1.0 by {
      assert (e / t) * t == e;
    }
  }

  /** Inside [previous, next) the progress is the elapsed share of the
    * interval, as a percentage, with no clamping needed. */
  lemma ProgressIsElapsedShare(next: int, prev: int, now: int)
    requires prev <= now < next
    ensures TimerOf(next, prev, now).progress == ((now - prev) as real / (next - prev) as real) * 100.0
    ensures TimerOf(next, prev, now).progress < 100.0
    ensures now == prev ==> TimerOf(next, prev, now).progress == 0.0
  {
    RatioBelowOne((now - prev) as real, (next - prev) as real);
  }

  lemma ScaledRatioMonotone(e1: real, e2: real, t: real)
    requires e1 <= e2 && t > 0.0
    ensures (e1 / t) * 100.0 <= (e2 / t) * 100.0
  {
    assert e1 / t <= e2 / t by {
      assert (e2 / t) - (e1 / t) == (e2 - e1) / t;
    }
  }

  /** For a well-formed interval the progress never goes backwards as time
    * advances, and it is 100 from the next prayer's instant on. */
  lemma ProgressMonotone(next: int, prev: int, now1: int, now2: int)
    requires prev < next && now1 <= now2
    ensures TimerOf(next, prev, now1).progress <= TimerOf(next, prev, now2).progress
    ensures now2 >= next ==> TimerOf(next, prev, now2).progress == 100.0
  {
    if now2 < next {
      ScaledRatioMonotone((now1 - prev) as real, (now2 - prev) as real, (next - prev) as real);
    }
  }

  /** The text the one-second tick shows: "Now" once the prayer has passed,
    * otherwise hours NOT reduced modulo 24, then minutes and seconds. */
  function TickText(diff: int): string
  {
    if diff < 0 then "Now" else ClockText(diff / HOUR, (diff % HOUR) / MINUTE, (diff % MINUTE) / SECOND)
  }

  /** Within one day the tick and `updateTimer` show the same countdown, and
    * at the instant itself the tick shows zeros (not "Now"). */
  lemma TickAgreesWithTimerWithinADay(diff: int)
    requires 0 < diff < DAY
    ensures TickText(diff) == CountdownText(diff)
    ensures TickText(0) == "00:00:00"
  {
    assert diff % DAY == diff;
    assert TickText(0) == ClockText(0, 0, 0);
  }

  /** The tick's hour field reads back as the whole hours left, however many;
    * "Now" appears exactly when the prayer has passed. */
  lemma TickHoursNotWrapped(diff: int)
    ensures TickText(diff) == "Now" <==> diff < 0
    ensures diff >= 0 ==>
      var hh := Before(TickText(diff), ':');
      AllDigits(hh) && DigitsValue(hh) == diff / HOUR
  {
    if diff >= 0 {
      var t := TickText(diff);
      var hh := PadStart2(NatToString(diff / HOUR));
      var rest := PadStart2(NatToString((diff % HOUR) / MINUTE)) + ":" + PadStart2(NatToString((diff % MINUTE) / SECOND));
      assert AllDigits(hh) by {
        assert forall i :: 0 <= i < |hh| - |NatToString(diff / HOUR)| ==> hh[i] == '0';
        forall i | 0 <= i < |hh| ensures IsDigit(hh[i]) {
          var n := NatToString(diff / HOUR);
          if i >= |hh| - |n| {
            assert hh[i] == hh[|hh| - |n|..][i - (|hh| - |n|)];
          }
        }
      }
      assert t == hh + [':'] + rest;
      DigitsHaveNoSeparator(hh, ':');
      SplitAtJoin(hh, ':', rest);
      NatToStringRoundTrip(diff / HOUR);
      if |NatToString(diff / HOUR)| == 1 {
        LeadingZeroValue(NatToString(diff / HOUR));
      }
    }
  }

  /** After a full day the tick and `updateTimer` disagree: 25 hours left is
    * "25:00:00" on the tick ... */
  lemma TickBeyondADay()
    ensures TickText(25 * HOUR) == "25:00:00"
  {
    var diff := 25 * HOUR;
    assert diff / HOUR == 25 && (diff % HOUR) / MINUTE == 0 && (diff % MINUTE) / SECOND == 0;
    assert PadStart2(NatToString(25)) == "25" by {
      assert NatToString(25) == NatToString(2) + [DigitChar(5)];
    }
    assert PadStart2(NatToString(0)) == "00";
  }

  /** ... but "01:00:00" right after a rebuild, which reduces it modulo a
    * day. */
  lemma TimerBeyondADay()
    ensures CountdownText(25 * HOUR) == "01:00:00"
  {
    var diff := 25 * HOUR;
    assert (diff % HOUR) / MINUTE == 0 && (diff % MINUTE) / SECOND == 0;
    assert (diff % DAY) / HOUR == 1;
    assert PadStart2(NatToString(1)) == "01";
    assert PadStart2(NatToString(0)) == "00";
  }

  // ---------------------------------------------------------------------
  // Timeline positions

  /** `now.getHours() * 60 + now.getMinutes()`. */
  function DayMinutes(now: int, midnight: int): nat
  {
    ((now - midnight) % DAY) / MINUTE
  }

  /** The "now" marker of the day timeline, in percent. */
  function DayPosition(now: int, midnight: int): (r: real)
    ensures 0.0 <= r < 100.0
  {
    RatioBelowOne(DayMinutes(now, midnight) as real, 1440.0);
    (DayMinutes(now, midnight) as real / 1440.0) * 100.0
  }

  /** `getPrayerPosition`: a prayer's dot on the day timeline, in percent;
    * `None` when a field is NaN. */
  function PrayerPosition(time: string): Option<real>
  {
    match ParseClock(time)
    case None => None
    case Some(c) => Some(((c.hours * 60 + c.minutes) as real / 1440.0) * 100.0)
  }

  /** A prayer's dot sits exactly where the "now" marker is at that prayer's
    * instant, so it lies in [0, 100). */
  lemma PrayerDotMatchesNowMarker(time: string, midnight: int)
    requires ParseClock(time).Some?
    requires ParseClock(time).value.hours < 24 && ParseClock(time).value.minutes < 60
    ensures PrayerPosition(time) == Some(DayPosition(TodayInstant(ParseClock(time).value, midnight), midnight))
  {
    var c := ParseClock(time).value;
    var offset := c.hours * HOUR + c.minutes * MINUTE;
    assert TodayInstant(c, midnight) - midnight == offset;
    assert offset == (c.hours * 60 + c.minutes) * MINUTE;
    assert offset % DAY == offset;
    assert offset / MINUTE == c.hours * 60 + c.minutes;
  }

  // ---------------------------------------------------------------------
  // Location label

  /** The label shown for the location: a non-empty manual name, else the
    * timezone's second '/'-field with its first '_' made a space, else the
    * whole timezone. */
  function LocationLabel(manualName: Option<string>, timezone: string): string
  {
    if manualName.Some? && manualName.value != "" then manualName.value
    else
      var city := SecondField(timezone, '/');
      if city.Some? && city.value != "" then ReplaceFirstChar(city.value, '_', ' ') else timezone
  }

  /** For `Area/City` or `Area/City/More` the label is `City` with only its
    * first underscore replaced, or the whole timezone when `City` is empty. */
  lemma LocationLabelOfTimezone(area: string, city: string, more: Option<string>)
    requires '/' !in area && '/' !in city
    ensures var tz := area + "/" + city + (if more.Some? then "/" + more.value else "");
      LocationLabel(None, tz) == if city == "" then tz else ReplaceFirstChar(city, '_', ' ')
  {
    var rest := city + (if more.Some? then "/" + more.value else "");
    var tz := area + "/" + city + (if more.Some? then "/" + more.value else "");
    assert tz == area + ['/'] + rest;
    SplitAtJoin(area, '/', rest);
    assert Before(rest, '/') == city by {
      if more.Some? {
        assert rest == city + ['/'] + more.value;
        SplitAtJoin(city, '/', more.value);
      } else {
        SplitFirst(city, '/');
      }
    }
    assert SecondField(tz, '/') == Some(city);
  }

  /** A timezone without a '/' is shown whole. */
  lemma LocationLabelWithoutSlash(timezone: string)
    requires '/' !in timezone
    ensures LocationLabel(None, timezone) == timezone
    ensures LocationLabel(Some(""), timezone) == timezone
  {
    SplitFirst(timezone, '/');
  }

  /** Only the first underscore of the city becomes a space. */
  lemma LocationLabelExample()
    ensures LocationLabel(None, "Asia/Ho_Chi_Minh") == "Ho Chi_Minh"
  {
    var city := "Ho_Chi_Minh";
    assert ReplaceFirstChar(city, '_', ' ') == "Ho Chi_Minh" by {
      assert city[..2] == "Ho" && city[3..] == "Chi_Minh";
      ReplaceFirstCharAt(city, '_', ' ', 2);
    }
    assert "Asia/Ho_Chi_Minh" == "Asia" + "/" + city + "";
    LocationLabelOfTimezone("Asia", city, None);
  }

  // ---------------------------------------------------------------------
  // The component's state

  /** What the timings provider answers: the `timings`, `meta.timezone` and
    * Hijri date of a response with its status code, or a failed request. */
  datatype TimingsResponse =
    | TimingsResponse(code: int, timings: map<string, string>, timezone: string,
                      hijriDay: string, hijriMonth: string, hijriYear: string)
    | RequestFailed

  const FETCH_ERROR := "Could not fetch prayer times."

  /** The provider answered with status 200. */
  predicate Answered(response: TimingsResponse)
  {
    response.TimingsResponse? && response.code == 200
  }

  /** The schedule a response yields, if any. */
  function BuiltFrom(response: TimingsResponse, midnight: int, now: int): Option<Schedule>
  {
    if Answered(response) then ScheduleOf(response.timings, midnight, now) else None
  }

  class PrayerTimesView {
    var prayerTimes: seq<PrayerEntry>
    var loading: bool
    var error: Option<string>
    var locationName: string
    var reminders: map<string, bool>
    var hijriDate: string
    var timeRemaining: string
    var progressPercent: real
    /** The entry the one-second tick counts down to (`nextPrayerRef`). */
    var next: Option<PrayerEntry>
    var currentTimePosition: real

    constructor ()
      ensures prayerTimes == [] && loading && error == None && locationName == "Locating..."
      ensures reminders == map[] && hijriDate == "" && timeRemaining == ""
      ensures progressPercent == 0.0 && next == None && currentTimePosition == 0.0
    {
      prayerTimes := [];
      loading := true;
      error := None;
      locationName := "Locating...";
      reminders := map[];
      hijriDate := "";
      timeRemaining := "";
      progressPercent := 0.0;
      next := None;
      currentTimePosition := 0.0;
    }

    /** `toggleReminder`: flips one bell and leaves every other key alone. */
    method ToggleReminder(name: string)
      modifies this`reminders
      ensures reminders == Toggled(old(reminders), name)
    {
      reminders := reminders[name := !ReminderOn(reminders, name)];
    }

    /** `updateTimer`: moves the "now" marker, then sets the countdown and the
      * progress bar from the next prayer and the reference instant. */
    method UpdateTimer(nextEntry: PrayerEntry, prev: int, now: int, midnight: int)
      modifies this`currentTimePosition, this`timeRemaining, this`progressPercent
      ensures currentTimePosition == DayPosition(now, midnight)
      ensures timeRemaining == TimerOf(nextEntry.instant, prev, now).remaining
      ensures progressPercent == TimerOf(nextEntry.instant, prev, now).progress
    {
      var diff := nextEntry.instant - now;
      currentTimePosition := DayPosition(now, midnight);
      if diff <= 0 {
        timeRemaining := "00:00:00";
        progressPercent := 100.0;
        return;
      }
      timeRemaining := CountdownText(diff);
      progressPercent := Percent(prev, nextEntry.instant, now);
    }

    /** The body of the one-second interval: it moves the "now" marker and
      * rewrites the countdown text, and never touches the progress bar. */
    method Tick(now: int, midnight: int)
      modifies this`currentTimePosition, this`timeRemaining
      ensures next.None? ==> currentTimePosition == old(currentTimePosition) && timeRemaining == old(timeRemaining)
      ensures next.Some? ==> currentTimePosition == DayPosition(now, midnight)
      ensures next.Some? ==> timeRemaining == TickText(next.value.instant - now)
    {
      if next.Some? {
        currentTimePosition := DayPosition(now, midnight);
        timeRemaining := TickText(next.value.instant - now);
      }
    }

    /** The Hijri date and the location label of an answer, set before its
      * timings are read. */
    method ShowMeta(response: TimingsResponse, manualName: Option<string>)
      requires Answered(response)
      modifies this`hijriDate, this`locationName
      ensures hijriDate == response.hijriDay + " " + response.hijriMonth + " " + response.hijriYear
      ensures locationName == LocationLabel(manualName, response.timezone)
    {
      hijriDate := response.hijriDay + " " + response.hijriMonth + " " + response.hijriYear;
      locationName := LocationLabel(manualName, response.timezone);
    }

    /** The screen shows schedule `s`, with the timer read at `timerNow`. */
    predicate Shows(s: Schedule, midnight: int, timerNow: int)
      reads this
    {
      && prayerTimes == s.prayers && next == Some(s.next)
      && timeRemaining == TimerOf(s.next.instant, s.prevInstant, timerNow).remaining
      && progressPercent == TimerOf(s.next.instant, s.prevInstant, timerNow).progress
      && currentTimePosition == DayPosition(timerNow, midnight)
    }

    /** The schedule, the countdown, the progress bar and the marker are as
      * they were. */
    twostate predicate ScreenUnchanged()
      reads this
    {
      && prayerTimes == old(prayerTimes) && next == old(next)
      && timeRemaining == old(timeRemaining) && progressPercent == old(progressPercent)
      && currentTimePosition == old(currentTimePosition)
    }

    /** A built schedule goes on screen and the timer starts from it. */
    method ShowSchedule(s: Schedule, midnight: int, timerNow: int)
      modifies this`prayerTimes, this`next, this`currentTimePosition, this`timeRemaining, this`progressPercent
      ensures Shows(s, midnight, timerNow)
    {
      prayerTimes := s.prayers;
      next := Some(s.next);
      UpdateTimer(s.next, s.prevInstant, timerNow, midnight);
    }

    /** The `catch` of `fetchPrayerTimes`: the error message, and the default
      * label when the label read at the start of the fetch was still unset. */
    method ReportFailure(staleName: string)
      modifies this`error, this`locationName
      ensures error == Some(FETCH_ERROR)
      ensures locationName == if staleName == "" || staleName == "Locating..." then "Default Location" else old(locationName)
    {
      error := Some(FETCH_ERROR);
      if staleName == "" || staleName == "Locating..." {
        locationName := "Default Location";
      }
    }

    /** The state `fetchPrayerTimes` leaves behind, given the provider's
      * `response` and the schedule `built` from it (None when the request
      * failed or a timing was unusable). The label and Hijri date are set
      * before the timings are read, so a bad timing leaves them changed; the
      * "Default Location" fallback tests the label as it was when the fetch
      * began. */
    twostate predicate Fetched(response: TimingsResponse, manualName: Option<string>, built: Option<Schedule>,
                               midnight: int, timerNow: int)
      reads this
    {
      && !loading && reminders == old(reminders)
      && (Answered(response) ==> hijriDate == response.hijriDay + " " + response.hijriMonth + " " + response.hijriYear)
      && (!Answered(response) ==> hijriDate == old(hijriDate))
      && (built.Some? ==>
            && Answered(response)
            && error == None
            && locationName == LocationLabel(manualName, response.timezone)
            && Shows(built.value, midnight, timerNow))
      && (built.None? ==>
            && error == Some(FETCH_ERROR)
            && ScreenUnchanged()
            && locationName == (if old(locationName) == "" || old(locationName) == "Locating..." then "Default Location"
                                else if Answered(response) then LocationLabel(manualName, response.timezone)
                                else old(locationName)))
    }

    /** The steps of `fetchPrayerTimes` after the request, once the schedule
      * has been built or has failed; `timerNow` is the slightly later instant
      * `updateTimer` reads. */
    method ApplyTimings(response: TimingsResponse, manualName: Option<string>, built: Option<Schedule>,
                        midnight: int, timerNow: int)
      requires built.Some? ==> Answered(response)
      modifies this
      ensures Fetched(response, manualName, built, midnight, timerNow)
    {
      var staleName := locationName;
      loading := true;
      error := None;
      if Answered(response) {
        ShowMeta(response, manualName);
      }
      if built.Some? {
        ShowSchedule(built.value, midnight, timerNow);
      } else {
        ReportFailure(staleName);
      }
      loading := false;
    }

    /** `fetchPrayerTimes` at instant `now` of the day starting at `midnight`:
      * the schedule it shows is exactly the one the response yields. */
    method FetchPrayerTimes(response: TimingsResponse, manualName: Option<string>, midnight: int, now: int, timerNow: int)
      modifies this
      ensures Fetched(response, manualName, BuiltFrom(response, midnight, now), midnight, timerNow)
    {
      var built: Option<Schedule> := None;
      if Answered(response) {
        built := BuildSchedule(response.timings, midnight, now);
      }
      ApplyTimings(response, manualName, built, midnight, timerNow);
    }
  }
}
