/**
 * The appointment calendar (src/components/calendar/AppointmentCalendar.tsx):
 * appointments become one-hour events whose start is read from the stored
 * `"HH:MM"` text, and a dragged event is written back as a zero-padded
 * `"HH:MM"` time. Instants are minute counts; a day is 1440 minutes, and
 * `Date.setHours` keeps the day and sets hours and minutes, carrying any
 * overflow into later days. `None` stands for an Invalid Date.
 */
module Calendar {

  import opened Wrappers
  import opened Strings

  // Instants are minutes; a day is 1440 of them.

  /** The start of the day that contains `t`. */
  function DayStart(t: int): (d: int)
    ensures d <= t < d + 1440 && d % 1440 == 0
  {
    t - t % 1440
  }

  /** A day start plus less than a day stays in that day. */
  lemma DayStartWithin(d: int, k: int)
    requires d % 1440 == 0 && 0 <= k < 1440
    ensures DayStart(d + k) == d
  {
    var q := d / 1440;
    assert d == 1440 * q;
    assert (1440 * q + k) % 1440 == k;
  }

  /** The time of day of an instant, split into hours and minutes. */
  lemma TimeOfDay(t: int)
    ensures var tod := t - DayStart(t);
            0 <= tod < 1440 && tod / 60 < 24 && tod % 60 < 60 && (tod / 60) * 60 + tod % 60 == tod
  {
  }

  /** Hours below 24 and minutes below 60 name a minute of the day. */
  lemma ClockMinute(h: nat, m: nat)
    requires h < 24 && m < 60
    ensures 0 <= h * 60 + m < 1440
  {
  }

  /** `(t.getHours(), t.getMinutes())`. */
  function Clock(t: int): (hm: (nat, nat))
    ensures hm.0 < 24 && hm.1 < 60 && DayStart(t) + hm.0 * 60 + hm.1 == t
  {
    var tod := t - DayStart(t);
    TimeOfDay(t);
    (tod / 60, tod % 60)
  }

  /** `date.setHours(h, m)`: `None` when either argument is NaN. */
  function SetHours(t: Option<int>, h: Option<nat>, m: Option<nat>): (r: Option<int>)
    ensures r.Some? <==> t.Some? && h.Some? && m.Some?
  {
    if t.Some? && h.Some? && m.Some? then Some(DayStart(t.value) + h.value * 60 + m.value) else None
  }

  /**
   * `const [hours, minutes] = time.split(":").map(Number)`: pieces past the
   * second are ignored, and a missing second piece is `undefined`, which
   * `setHours` reads as NaN.
   */
  function ParseTime(time: string): (hm: (Option<nat>, Option<nat>))
  {
    var parts := Split(time, ':');
    (ToNumber(parts[0]), if |parts| > 1 then ToNumber(parts[1]) else None)
  }

  /** Seconds or further pieces after the minutes do not change the parse. */
  lemma ParseIgnoresRest(h: string, m: string, rest: string)
    requires ':' !in h && ':' !in m
    ensures ParseTime(h + ":" + m + ":" + rest) == ParseTime(h + ":" + m)
    ensures ParseTime(h + ":" + m) == (ToNumber(h), ToNumber(m))
  {
    assert h + ":" + m + ":" + rest == h + [':'] + (m + [':'] + rest);
    SplitAtFirst(h, ':', m + [':'] + rest);
    SplitAtFirst(m, ':', rest);
    assert h + ":" + m == h + [':'] + m;
    SplitAtFirst(h, ':', m);
    SplitWithoutSeparator(m, ':');
  }

  /** A time without minutes, such as `"10"`, gives no valid start. */
  lemma HourOnlyIsInvalid(date: int, h: string)
    requires ':' !in h
    ensures EventStart(date, h).None?
  {
    SplitWithoutSeparator(h, ':');
  }

  /** `new Date(date)` followed by `setHours(h, m)`: the start for parsed hours and minutes. */
  function StartAt(date: int, h: Option<nat>, m: Option<nat>): Option<int> {
    SetHours(Some(date), h, m)
  }

  /** A copy of the start followed by `setHours(h + 1, m)`: the end for parsed hours and minutes. */
  function EndAt(date: int, h: Option<nat>, m: Option<nat>): Option<int> {
    SetHours(StartAt(date, h, m), if h.Some? then Some(h.value + 1) else None, m)
  }

  /** The event's start: the appointment's day with the parsed hours and minutes. */
  function EventStart(date: int, time: string): Option<int> {
    var hm := ParseTime(time);
    StartAt(date, hm.0, hm.1)
  }

  /** The event's end: a copy of the start with `setHours(hours + 1, minutes)`. */
  function EventEnd(date: int, time: string): Option<int> {
    var hm := ParseTime(time);
    EndAt(date, hm.0, hm.1)
  }

  /** For hours and minutes within the day, the end falls one hour after the start, on the same day. */
  lemma OneHourAt(date: int, h: nat, m: nat)
    requires h < 24 && m < 60
    ensures StartAt(date, Some(h), Some(m)) == Some(DayStart(date) + h * 60 + m)
    ensures EndAt(date, Some(h), Some(m)) == Some(DayStart(date) + h * 60 + m + 60)
  {
    var d := DayStart(date);
    ClockMinute(h, m);
    DayStartWithin(d, h * 60 + m);
  }

  /**
   * For a time of day (hours below 24 and minutes below 60) the event ends
   * exactly one hour after it starts, and both are valid together.
   */
  lemma OneHourEvents(date: int, time: string)
    requires var hm := ParseTime(time); hm.0.Some? && hm.1.Some? ==> hm.0.value < 24 && hm.1.value < 60
    ensures EventStart(date, time).Some? <==> EventEnd(date, time).Some?
    ensures EventStart(date, time).Some? ==> EventEnd(date, time).value == EventStart(date, time).value + 60
  {
    var hm := ParseTime(time);
    assert EventStart(date, time) == StartAt(date, hm.0, hm.1);
    assert EventEnd(date, time) == EndAt(date, hm.0, hm.1);
    if hm.0.Some? && hm.1.Some? {
      OneHourAt(date, hm.0.value, hm.1.value);
    }
  }

  /** Hours from 24 to 47 move the start to the next day, and the end is computed from that day. */
  lemma NextDayAt(date: int, h: nat, m: nat)
    requires date % 1440 == 0 && 24 <= h < 48 && m < 60
    ensures StartAt(date, Some(h), Some(m)) == Some(date + h * 60 + m)
    ensures EndAt(date, Some(h), Some(m)) == Some(date + h * 60 + m + 1440 + 60)
  {
    DayStartWithin(date, 0);
    assert date + 0 == date;
    var next := date + 1440;
    assert next % 1440 == 0 by {
      var q := date / 1440;
      assert date == 1440 * q;
      assert next == 1440 * (q + 1);
    }
    ClockMinute(h - 24, m);
    assert date + h * 60 + m == next + ((h - 24) * 60 + m);
    DayStartWithin(next, (h - 24) * 60 + m);
  }

  /**
   * The one-hour rule relies on the time being within the day: hours from 24
   * to 47 start on the next day, and the end, computed from that next day,
   * falls 25 hours after the start (so `"24:00"` lasts 25 hours).
   */
  lemma NextDayHoursLastLonger(date: int, time: string, h: nat, m: nat)
    requires date % 1440 == 0
    requires ParseTime(time) == (Some(h), Some(m)) && 24 <= h < 48 && m < 60
    ensures EventStart(date, time) == Some(date + h * 60 + m)
    ensures EventEnd(date, time) == Some(date + h * 60 + m + 1440 + 60)
  {
    assert EventStart(date, time) == StartAt(date, Some(h), Some(m));
    assert EventEnd(date, time) == EndAt(date, Some(h), Some(m));
    NextDayAt(date, h, m);
  }

  /** The new time written by `handleEventDrop`: two-digit hours, `:`, two-digit minutes. */
  function FormatTime(h: nat, m: nat): (s: string)
    requires h < 24 && m < 60
    ensures |s| == 5 && s[2] == ':' && ':' !in s[..2] && ':' !in s[3..]
  {
    TwoDigitsIsTwoDigits(h);
    TwoDigitsIsTwoDigits(m);
    ColonJoin(TwoDigits(h), TwoDigits(m));
    TwoDigits(h) + ":" + TwoDigits(m)
  }

  /** The written time spells out the hour's tens and units digits, then the minute's. */
  lemma FormatTimeDigits(h: nat, m: nat)
    requires h < 24 && m < 60
    ensures var s := FormatTime(h, m);
            s[0] == DigitChar(h / 10) && s[1] == DigitChar(h % 10)
            && s[3] == DigitChar(m / 10) && s[4] == DigitChar(m % 10)
  {
    var a, b := TwoDigits(h), TwoDigits(m);
    TwoDigitsShape(h);
    TwoDigitsShape(m);
    assert FormatTime(h, m) == a + ":" + b;
    assert (a + ":" + b)[0] == a[0] && (a + ":" + b)[1] == a[1];
    assert (a + ":" + b)[3] == b[0] && (a + ":" + b)[4] == b[1];
  }

  lemma ColonJoin(a: string, b: string)
    requires |a| == 2 && |b| == 2 && AllDigits(a) && AllDigits(b)
    ensures var s := a + ":" + b;
            |s| == 5 && s[2] == ':' && s[..2] == a && s[3..] == b && ':' !in a && ':' !in b
  {
    assert !IsDigit(':');
  }

  /** Parsing a formatted time gives back its hours and minutes. */
  lemma TimeRoundTrip(h: nat, m: nat)
    requires h < 24 && m < 60
    ensures ParseTime(FormatTime(h, m)) == (Some(h), Some(m))
  {
    var a, b := TwoDigits(h), TwoDigits(m);
    assert FormatTime(h, m) == a + ":" + b;
    assert ':' !in a && ':' !in b by {
      TwoDigitsIsTwoDigits(h);
      TwoDigitsIsTwoDigits(m);
      ColonJoin(a, b);
    }
    assert ParseTime(a + ":" + b) == (ToNumber(a), ToNumber(b)) by {
      ParseIgnoresRest(a, b, "");
    }
    assert ToNumber(a) == Some(h) by {
      TwoDigitsRoundTrip(h);
    }
    assert ToNumber(b) == Some(m) by {
      TwoDigitsRoundTrip(m);
    }
  }

  /**
   * A dropped event, written back as its day and formatted time and read
   * again, starts at the instant it was dropped at and lasts one hour.
   */
  lemma DropThenReload(t: int)
    ensures EventStart(DayStart(t), FormatTime(Clock(t).0, Clock(t).1)) == Some(t)
    ensures EventEnd(DayStart(t), FormatTime(Clock(t).0, Clock(t).1)) == Some(t + 60)
  {
    DropThenReloadStart(t);
    DropThenReloadEnd(t);
  }

  lemma DropThenReloadStart(t: int)
    ensures EventStart(DayStart(t), FormatTime(Clock(t).0, Clock(t).1)) == Some(t)
  {
    ReloadStartAt(DayStart(t), Clock(t).0, Clock(t).1, t);
  }

  lemma DropThenReloadEnd(t: int)
    ensures EventEnd(DayStart(t), FormatTime(Clock(t).0, Clock(t).1)) == Some(t + 60)
  {
    ReloadEndAt(DayStart(t), Clock(t).0, Clock(t).1, t);
  }

  /** A time written at day start `d` reloads at the instant `t` it names. */
  lemma ReloadStartAt(d: int, h: nat, m: nat, t: int)
    requires d % 1440 == 0 && h < 24 && m < 60 && t == d + h * 60 + m
    ensures EventStart(d, FormatTime(h, m)) == Some(t)
  {
    TimeRoundTrip(h, m);
    ParsedStart(d, FormatTime(h, m), h, m);
    AtDayStart(d, h, m, t);
  }

  /** A time written at day start `d` reloads ending one hour after the instant `t` it names. */
  lemma ReloadEndAt(d: int, h: nat, m: nat, t: int)
    requires d % 1440 == 0 && h < 24 && m < 60 && t == d + h * 60 + m
    ensures EventEnd(d, FormatTime(h, m)) == Some(t + 60)
  {
    TimeRoundTrip(h, m);
    ParsedEnd(d, FormatTime(h, m), h, m);
    AtDayStart(d, h, m, t);
  }

  /** At a day start, the start is the instant `t` that the hours and minutes name, and the end one hour later. */
  lemma AtDayStart(d: int, h: nat, m: nat, t: int)
    requires d % 1440 == 0 && h < 24 && m < 60 && t == d + h * 60 + m
    ensures StartAt(d, Some(h), Some(m)) == Some(t)
    ensures EndAt(d, Some(h), Some(m)) == Some(t + 60)
  {
    OneHourAt(d, h, m);
    DayStartWithin(d, 0);
    assert d + 0 == d;
  }

  lemma ParsedStart(date: int, time: string, h: nat, m: nat)
    requires ParseTime(time) == (Some(h), Some(m))
    ensures EventStart(date, time) == StartAt(date, Some(h), Some(m))
  {
  }

  lemma ParsedEnd(date: int, time: string, h: nat, m: nat)
    requires ParseTime(time) == (Some(h), Some(m))
    ensures EventEnd(date, time) == EndAt(date, Some(h), Some(m))
  {
  }

  /** The start of an event whose time parses to `h` hours and `m` minutes. */
  lemma StartOfParsed(date: int, time: string, h: nat, m: nat)
    requires ParseTime(time) == (Some(h), Some(m))
    ensures EventStart(date, time) == Some(DayStart(date) + h * 60 + m)
  {
    ParsedStart(date, time, h, m);
    StartAtSome(date, h, m);
  }

  lemma StartAtSome(date: int, h: nat, m: nat)
    ensures StartAt(date, Some(h), Some(m)) == Some(DayStart(date) + h * 60 + m)
  {
  }

  /** The end of an event whose time parses to `h` hours and `m` minutes within the day. */
  lemma EndOfParsed(date: int, time: string, h: nat, m: nat)
    requires ParseTime(time) == (Some(h), Some(m)) && h < 24 && m < 60
    ensures EventEnd(date, time) == Some(DayStart(date) + h * 60 + m + 60)
  {
    ParsedEnd(date, time, h, m);
    OneHourAt(date, h, m);
  }

  /** An `appointments` row as the calendar reads it; `date` is the parsed appointment date. */
  datatype CalendarRow = CalendarRow(id: string, date: int, time: string, reason: Option<string>)

  datatype Event = Event(id: string, title: string, start: Option<int>, end: Option<int>, row: CalendarRow)

  /** `apt.reason || "Appointment"`. */
  function EventTitle(reason: Option<string>): (t: string)
    ensures t == "Appointment" <==> reason.None? || reason.value == "" || reason.value == "Appointment"
    ensures reason.Some? && reason.value != "" ==> t == reason.value
  {
    if reason.Some? && reason.value != "" then reason.value else "Appointment"
  }

  function ToEvent(row: CalendarRow): Event {
    Event(row.id, EventTitle(row.reason), EventStart(row.date, row.time), EventEnd(row.date, row.time), row)
  }

  /** `data.map(...)`: one event per row, in row order. */
  function ToEvents(rows: seq<CalendarRow>): (es: seq<Event>)
    ensures |es| == |rows|
    ensures forall i :: 0 <= i < |es| ==> es[i].id == rows[i].id && es[i].row == rows[i]
    ensures forall i :: 0 <= i < |es| ==>
              es[i].title == EventTitle(rows[i].reason)
              && es[i].start == EventStart(rows[i].date, rows[i].time)
              && es[i].end == EventEnd(rows[i].date, rows[i].time)
  {
    seq(|rows|, i requires 0 <= i < |rows| => ToEvent(rows[i]))
  }

  /** A requested reschedule: the row id, the date text and the time text. */
  datatype Reschedule = Reschedule(id: string, date: string, time: string)

  class AppointmentCalendar {
    var events: seq<Event>
    var writes: seq<Reschedule>

    constructor ()
      ensures events == [] && writes == []
    {
      events := [];
      writes := [];
    }

    /** `fetchAppointments`; `rows` is `None` when the query errors, which keeps the events. */
    method FetchAppointments(rows: Option<seq<CalendarRow>>)
      modifies this
      ensures rows.Some? ==> events == ToEvents(rows.value)
      ensures rows.None? ==> events == old(events)
      ensures writes == old(writes)
    {
      if rows.Some? {
        events := ToEvents(rows.value);
      }
    }

    /**
     * `handleEventDrop`: the dropped instant `start` is written back as
     * `isoDate` and its formatted time; only a successful write refetches.
     */
    method HandleEventDrop(id: string, start: int, isoDate: string, ok: bool, rows: Option<seq<CalendarRow>>)
      modifies this
      ensures writes == old(writes) + [Reschedule(id, isoDate, FormatTime(Clock(start).0, Clock(start).1))]
      ensures ok && rows.Some? ==> events == ToEvents(rows.value)
      ensures !ok || rows.None? ==> events == old(events)
    {
      var (hours, minutes) := Clock(start);
      var newTime := FormatTime(hours, minutes);
      writes := writes + [Reschedule(id, isoDate, newTime)];
      if ok {
        FetchAppointments(rows);
      }
    }
  }
}
