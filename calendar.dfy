/** The appointments calendar: the month grid, the selected day range, the
    day-view time slots and their labels, the placement of an appointment
    in the day view, and the grouping of appointments by day.

    A date is a day number (day 0 is 1 January 1970, a Thursday); a month
    is a year and a month index 0..11, as `Date.getMonth` gives it. A time
    of day is a number of minutes after midnight. */
module Calendar {
  import opened Wrappers
  import opened Text
  import opened Seqs

  /* ---------- day view constants ---------- */

  const DayViewStartMinutes: int := 8 * 60
  const DayViewEndMinutes: int := 17 * 60
  const DayViewSlotMinutes: int := 15

  /* ---------- days and months ---------- */

  type Day = int

  /** `Date.getDay()`: 0 is Sunday. */
  function Weekday(d: Day): (w: int)
    ensures 0 <= w < 7
    ensures w == (d + 4) % 7
  {
    (d + 4) % 7
  }

  datatype YearMonth = YearMonth(year: int, month: int) {
    predicate Valid() { 0 <= month < 12 }
  }

  /** `new Date(year, month, 1)`: a month index outside 0..11 carries into
      the year. */
  function NormalizeMonth(year: int, month: int): (ym: YearMonth)
    ensures ym.Valid()
    ensures ym.year * 12 + ym.month == year * 12 + month
  {
    YearMonth(year + month / 12, month % 12)
  }

  /** `goPrevMonth`: the first of the month before. */
  function PrevMonth(ym: YearMonth): (r: YearMonth)
    requires ym.Valid()
    ensures r.Valid() && r.year * 12 + r.month == ym.year * 12 + ym.month - 1
  {
    NormalizeMonth(ym.year, ym.month - 1)
  }

  /** `goNextMonth`: the first of the month after. */
  function NextMonth(ym: YearMonth): (r: YearMonth)
    requires ym.Valid()
    ensures r.Valid() && r.year * 12 + r.month == ym.year * 12 + ym.month + 1
  {
    NormalizeMonth(ym.year, ym.month + 1)
  }

  /** A valid month is determined by its running month number. */
  lemma MonthNumberInjective(a: YearMonth, b: YearMonth)
    requires a.Valid() && b.Valid()
    requires a.year * 12 + a.month == b.year * 12 + b.month
    ensures a == b
  {
  }

  /** Going back a month and forward again, or forward and back, returns to
      the month one started from. */
  lemma PrevNextInverse(ym: YearMonth)
    requires ym.Valid()
    ensures NextMonth(PrevMonth(ym)) == ym
    ensures PrevMonth(NextMonth(ym)) == ym
  {
    MonthNumberInjective(NextMonth(PrevMonth(ym)), ym);
    MonthNumberInjective(PrevMonth(NextMonth(ym)), ym);
  }

  predicate IsLeapYear(year: int) {
    year % 4 == 0 && (year % 100 != 0 || year % 400 == 0)
  }

  /** The number of days in a month of the proleptic Gregorian calendar. */
  function DaysInMonth(ym: YearMonth): (n: int)
    requires ym.Valid()
    ensures 28 <= n <= 31
  {
    if ym.month == 1 then (if IsLeapYear(ym.year) then 29 else 28)
    else if ym.month == 3 || ym.month == 5 || ym.month == 8 || ym.month == 10 then 30
    else 31
  }

  /** The running month number of January 1970. */
  const EpochMonthNumber: int := 1970 * 12

  /** The day number of the first of the month with running number `k`:
      month lengths added up from January 1970 onwards, subtracted before. */
  function FirstDayOfMonthNumber(k: int): Day
    decreases if k >= EpochMonthNumber then k - EpochMonthNumber else EpochMonthNumber - k
  {
    if k == EpochMonthNumber then 0
    else if k > EpochMonthNumber then FirstDayOfMonthNumber(k - 1) + DaysInMonth(NormalizeMonth(0, k - 1))
    else FirstDayOfMonthNumber(k + 1) - DaysInMonth(NormalizeMonth(0, k))
  }

  /** The day number of the first of `ym`. */
  function FirstDay(ym: YearMonth): Day
    requires ym.Valid()
  {
    FirstDayOfMonthNumber(ym.year * 12 + ym.month)
  }

  lemma NormalizeNumber(ym: YearMonth)
    requires ym.Valid()
    ensures NormalizeMonth(0, ym.year * 12 + ym.month) == ym
  {
    MonthNumberInjective(NormalizeMonth(0, ym.year * 12 + ym.month), ym);
  }

  /** Months follow each other without gap or overlap: the next month starts
      the day after this one ends. */
  lemma MonthsAreContiguous(ym: YearMonth)
    requires ym.Valid()
    ensures FirstDay(NextMonth(ym)) == FirstDay(ym) + DaysInMonth(ym)
  {
    var k := ym.year * 12 + ym.month;
    NormalizeNumber(ym);
    assert FirstDay(NextMonth(ym)) == FirstDayOfMonthNumber(k + 1);
  }

  /** 1 January 1970 is day 0, a Thursday. */
  lemma EpochIsThursday()
    ensures FirstDay(YearMonth(1970, 0)) == 0
    ensures Weekday(FirstDay(YearMonth(1970, 0))) == 4
  {
  }

  /* ---------- month grid ---------- */

  /** `gridDates`: six weeks of days, starting on the Sunday on or before
      the first of the visible month. */
  method GridDates(visible: YearMonth) returns (dates: seq<Day>)
    requires visible.Valid()
    ensures |dates| == 42
    ensures forall i :: 0 <= i < 42 ==> dates[i] == dates[0] + i
    ensures Weekday(dates[0]) == 0
    ensures FirstDay(visible) - 6 <= dates[0] <= FirstDay(visible)
  {
    var firstDayOfWeek := 0;
    var firstOfMonth := FirstDay(visible);
    var startWeekday := Weekday(firstOfMonth);
    var diff := (startWeekday - firstDayOfWeek + 7) % 7;
    var gridStart := firstOfMonth - diff;
    assert diff == startWeekday;
    assert Weekday(gridStart) == 0;
    dates := [];
    for i := 0 to 42
      invariant |dates| == i
      invariant forall j :: 0 <= j < i ==> dates[j] == gridStart + j
    {
      dates := dates + [gridStart + i];
    }
  }

  /** The six-week grid shows every day of the visible month. */
  lemma GridCoversMonth(visible: YearMonth, dates: seq<Day>)
    requires visible.Valid()
    requires |dates| == 42
    requires forall i :: 0 <= i < 42 ==> dates[i] == dates[0] + i
    requires FirstDay(visible) - 6 <= dates[0] <= FirstDay(visible)
    ensures forall d :: FirstDay(visible) <= d < FirstDay(visible) + DaysInMonth(visible) ==> d in dates
  {
    forall d | FirstDay(visible) <= d < FirstDay(visible) + DaysInMonth(visible)
      ensures d in dates
    {
      assert dates[d - dates[0]] == d;
    }
  }

  /* ---------- selected range ---------- */

  datatype View = MonthView | DayView | RangeView

  /** The days from `lo` to `hi`, inclusive and ascending. */
  function DaysFromTo(lo: Day, hi: Day): (r: seq<Day>)
    ensures |r| == if lo <= hi then hi - lo + 1 else 0
    ensures forall i :: 0 <= i < |r| ==> r[i] == lo + i
  {
    if lo <= hi then seq(hi - lo + 1, i => lo + i) else []
  }

  /** The days the day and range views show. */
  function ActiveRange(selected: Option<Day>, rangeEnd: Option<Day>, view: View): seq<Day>
  {
    if selected.None? then []
    else if view == DayView || rangeEnd.None? then [selected.value]
    else
      var start := if selected.value < rangeEnd.value then selected.value else rangeEnd.value;
      var end := if selected.value < rangeEnd.value then rangeEnd.value else selected.value;
      DaysFromTo(start, end)
  }

  /** `activeRangeDates`, walking a day counter from the earlier date to the
      later one. */
  method ActiveRangeDates(selected: Option<Day>, rangeEnd: Option<Day>, view: View) returns (dates: seq<Day>)
    ensures dates == ActiveRange(selected, rangeEnd, view)
  {
    if selected.None? {
      return [];
    }
    if view == DayView || rangeEnd.None? {
      return [selected.value];
    }
    var start := if selected.value < rangeEnd.value then selected.value else rangeEnd.value;
    var end := if selected.value < rangeEnd.value then rangeEnd.value else selected.value;
    dates := [];
    var current := start;
    while current <= end
      invariant start <= current <= end + 1
      invariant dates == DaysFromTo(start, current - 1)
      decreases end - current
    {
      dates := dates + [current];
      current := current + 1;
    }
  }

  /** The range is every day between the two ends, whichever end the drag
      started from. */
  lemma ActiveRangeSpec(selected: Option<Day>, rangeEnd: Option<Day>, view: View)
    ensures selected.None? ==> ActiveRange(selected, rangeEnd, view) == []
    ensures selected.Some? && (view == DayView || rangeEnd.None?) ==>
              ActiveRange(selected, rangeEnd, view) == [selected.value]
    ensures selected.Some? && rangeEnd.Some? && view != DayView ==>
              ActiveRange(selected, rangeEnd, view) == ActiveRange(rangeEnd, selected, view)
              && forall d :: d in ActiveRange(selected, rangeEnd, view) <==>
                   (selected.value <= d <= rangeEnd.value || rangeEnd.value <= d <= selected.value)
  {
    if selected.Some? && rangeEnd.Some? && view != DayView {
      var a, b := selected.value, rangeEnd.value;
      var r := ActiveRange(selected, rangeEnd, view);
      forall d | a <= d <= b || b <= d <= a ensures d in r {
        var lo := if a < b then a else b;
        assert r[d - lo] == d;
      }
    }
  }

  /** `inRange`: whether a mini-calendar day is highlighted. */
  predicate InRange(d: Day, selected: Option<Day>, rangeEnd: Option<Day>, view: View) {
    if selected.None? then false
    else if rangeEnd.None? || view == DayView then d == selected.value
    else
      var start := if selected.value < rangeEnd.value then selected.value else rangeEnd.value;
      var end := if selected.value < rangeEnd.value then rangeEnd.value else selected.value;
      start <= d && d <= end
  }

  /** A mini-calendar day is highlighted exactly when the day and range
      views show it. */
  lemma InRangeIffActive(d: Day, selected: Option<Day>, rangeEnd: Option<Day>, view: View)
    ensures InRange(d, selected, rangeEnd, view) <==> d in ActiveRange(selected, rangeEnd, view)
  {
    ActiveRangeSpec(selected, rangeEnd, view);
  }

  /* ---------- day view ---------- */

  /** `timeSlots`: the start minute of every 15-minute slot between 08:00
      and 17:00. */
  method TimeSlots() returns (values: seq<int>)
    ensures |values| == 36
    ensures forall i :: 0 <= i < |values| ==> values[i] == DayViewStartMinutes + DayViewSlotMinutes * i
    ensures forall i :: 0 <= i < |values| ==> DayViewStartMinutes <= values[i] < DayViewEndMinutes
  {
    values := [];
    var minutes := DayViewStartMinutes;
    while minutes < DayViewEndMinutes
      invariant minutes == DayViewStartMinutes + DayViewSlotMinutes * |values|
      invariant minutes <= DayViewEndMinutes
      invariant forall i :: 0 <= i < |values| ==> values[i] == DayViewStartMinutes + DayViewSlotMinutes * i
      decreases DayViewEndMinutes - minutes
    {
      values := values + [minutes];
      minutes := minutes + DayViewSlotMinutes;
    }
  }

  /** JavaScript's `%`: the remainder takes the sign of the dividend. */
  function JsRem(a: int, b: int): (r: int)
    requires b > 0
    ensures a >= 0 ==> r == a % b
    ensures a < 0 ==> -r == (-a) % b
    ensures -b < r < b
  {
    if a >= 0 then a % b else -((-a) % b)
  }

  /** `formatTimeLabel`: the last slot reads "5:00 PM", whole hours read as a
      12-hour clock time, every other slot has no label. */
  function FormatTimeLabel(totalMinutes: int): string
  {
    if totalMinutes == DayViewEndMinutes - DayViewSlotMinutes then "5:00 PM"
    else if JsRem(totalMinutes, 60) != 0 then ""
    else
      var hour := totalMinutes / 60;
      var suffix := if hour >= 12 then "PM" else "AM";
      var display := if JsRem(hour, 12) == 0 then 12 else JsRem(hour, 12);
      IntToString(display) + ":00 " + suffix
  }

  /** The label of the whole hour `hour`: its 12-hour number (`hour % 12`,
      or 12 for midnight and noon) in decimal digits, then ":00 ", then "PM"
      exactly from noon on. */
  lemma HourLabel(hour: nat)
    requires hour * 60 != DayViewEndMinutes - DayViewSlotMinutes
    ensures FormatTimeLabel(hour * 60)
            == NatToString(if hour % 12 == 0 then 12 else hour % 12) + ":00 " + (if hour >= 12 then "PM" else "AM")
    ensures var shown := FormatTimeLabel(hour * 60);
            exists digits :: shown == digits + ":00 " + (if hour >= 12 then "PM" else "AM")
                             && 1 <= DigitsValue(digits) <= 12 && DigitsValue(digits) % 12 == hour % 12
  {
    var total := hour * 60;
    assert JsRem(total, 60) == 0 && total / 60 == hour;
    assert JsRem(hour, 12) == hour % 12;
    var display := if hour % 12 == 0 then 12 else hour % 12;
    assert 1 <= display <= 12 && display % 12 == hour % 12;
    NatToStringRoundTrip(display);
    var digits := NatToString(display);
    assert IntToString(display) == digits;
    assert FormatTimeLabel(total) == digits + ":00 " + (if hour >= 12 then "PM" else "AM");
  }

  /** Between two whole hours there is no label, except on the last slot. */
  lemma LabelOnlyOnHours(totalMinutes: int)
    requires totalMinutes != DayViewEndMinutes - DayViewSlotMinutes
    ensures FormatTimeLabel(totalMinutes) != "" <==> totalMinutes % 60 == 0
  {
  }

  /** Where an appointment sits in the day view, in minutes after midnight. */
  datatype Placement = Placement(startMinutes: int, endMinutes: int, durationMinutes: int)

  /** The placement of an appointment in the day view. `rawStart` is the
      start time of day, `None` when the start is not a valid date; `rawEnd`
      is the end time of day, `None` when there is no end or it is not a
      valid date. The start is moved into the window so that at least one
      slot remains; a missing end means one hour; an end not after the start
      means two slots; the end never passes 17:00. */
  method PlaceAppointment(rawStart: Option<int>, rawEnd: Option<int>) returns (p: Placement)
    ensures rawStart.None? ==> p.startMinutes == DayViewStartMinutes
    ensures rawStart.Some? ==>
              p.startMinutes == Clamp(rawStart.value, DayViewStartMinutes, DayViewEndMinutes - DayViewSlotMinutes)
    ensures DayViewStartMinutes <= p.startMinutes <= DayViewEndMinutes - DayViewSlotMinutes
    ensures p.startMinutes < p.endMinutes <= DayViewEndMinutes
    ensures var wanted := if rawEnd.Some? then rawEnd.value else p.startMinutes + 60;
            (p.startMinutes < wanted <= DayViewEndMinutes ==> p.endMinutes == wanted)
            && (wanted > DayViewEndMinutes ==> p.endMinutes == DayViewEndMinutes)
            && (wanted <= p.startMinutes ==>
                  p.endMinutes == Min(p.startMinutes + 2 * DayViewSlotMinutes, DayViewEndMinutes))
    ensures p.durationMinutes >= DayViewSlotMinutes
    ensures p.durationMinutes == Max(p.endMinutes - p.startMinutes, DayViewSlotMinutes)
  {
    var startMinutes := if rawStart.Some? then rawStart.value else DayViewStartMinutes;
    if startMinutes < DayViewStartMinutes {
      startMinutes := DayViewStartMinutes;
    }
    if startMinutes > DayViewEndMinutes - DayViewSlotMinutes {
      startMinutes := DayViewEndMinutes - DayViewSlotMinutes;
    }
    var endMinutes := startMinutes + 60;
    if rawEnd.Some? {
      endMinutes := rawEnd.value;
    }
    if endMinutes <= startMinutes {
      endMinutes := startMinutes + DayViewSlotMinutes * 2;
    }
    if endMinutes > DayViewEndMinutes {
      endMinutes := DayViewEndMinutes;
    }
    var durationMinutes := Max(endMinutes - startMinutes, DayViewSlotMinutes);
    p := Placement(startMinutes, endMinutes, durationMinutes);
  }

  function Clamp(x: int, lo: int, hi: int): (r: int)
    requires lo <= hi
    ensures lo <= r <= hi
    ensures lo <= x <= hi ==> r == x
    ensures x < lo ==> r == lo
    ensures x > hi ==> r == hi
  {
    if x < lo then lo else if x > hi then hi else x
  }

  /** `Math.min` */
  function Min(a: int, b: int): (r: int)
    ensures r <= a && r <= b && (r == a || r == b)
  {
    if a <= b then a else b
  }

  /** `Math.max` */
  function Max(a: int, b: int): (r: int)
    ensures r >= a && r >= b && (r == a || r == b)
  {
    if a >= b then a else b
  }

  /* ---------- appointments by day ---------- */

  datatype Patient = Patient(firstName: Option<string>, lastName: Option<string>)

  /** An appointment row; `startTime` is the stored timestamp text. */
  datatype Appointment = Appointment(id: string, startTime: string, patient: Option<Patient>)

  /** `start_time.slice(0, 10)`: the date part of the timestamp. */
  function DayKey(a: Appointment): string {
    Take(a.startTime, 10)
  }

  /** `${first ?? ""} ${last ?? ""}`, trimmed and lower-cased. */
  function SearchName(p: Option<Patient>): string {
    var first := if p.Some? then p.value.firstName.GetOr("") else "";
    var last := if p.Some? then p.value.lastName.GetOr("") else "";
    Lower(Trim(first + " " + last))
  }

  /** Whether the calendar lists the appointment: it has a start time and, when
      a search term is given, the patient name contains it. */
  predicate Listed(a: Appointment, search: string) {
    a.startTime != "" && (search == "" || Contains(SearchName(a.patient), search))
  }

  /** Appends `a` to the list under its day key. */
  function AddToDay(m: map<string, seq<Appointment>>, a: Appointment): map<string, seq<Appointment>> {
    var key := DayKey(a);
    m[key := (if key in m then m[key] else []) + [a]]
  }

  /** The grouping of the listed appointments among `appts`, in order. */
  function GroupByDay(appts: seq<Appointment>, listed: Appointment -> bool): map<string, seq<Appointment>>
  {
    if appts == [] then map[]
    else
      var m := GroupByDay(appts[..|appts| - 1], listed);
      var a := appts[|appts| - 1];
      if listed(a) then AddToDay(m, a) else m
  }

  /** The test `Listed` with the search term fixed. */
  function ListedWith(search: string): Appointment -> bool {
    (a: Appointment) => Listed(a, search)
  }

  /** `appointmentsByDay`: the listed appointments pushed, one by one, onto the
      list of their day; nothing when appointments are hidden. */
  method AppointmentsByDay(appts: seq<Appointment>, patientSearch: string, showAppointments: bool)
    returns (byDay: map<string, seq<Appointment>>)
    ensures !showAppointments ==> byDay == map[]
    ensures showAppointments ==> byDay == GroupByDay(appts, ListedWith(Lower(Trim(patientSearch))))
  {
    byDay := map[];
    if !showAppointments {
      return;
    }
    var search := Lower(Trim(patientSearch));
    for i := 0 to |appts|
      invariant byDay == GroupByDay(appts[..i], ListedWith(search))
    {
      var appt := appts[i];
      ghost var before := byDay;
      assert appts[..i + 1][..i] == appts[..i] && appts[..i + 1][i] == appt;
      assert GroupByDay(appts[..i + 1], ListedWith(search)) == if Listed(appt, search) then AddToDay(before, appt) else before;
      if appt.startTime != "" {
        var key := Take(appt.startTime, 10);
        if search == "" || Contains(SearchName(appt.patient), search) {
          if key !in byDay {
            byDay := byDay[key := []];
          }
          byDay := byDay[key := byDay[key] + [appt]];
          assert byDay == AddToDay(before, appt);
        }
      }
    }
    assert appts[..|appts|] == appts;
  }

  /** A day has an entry exactly when some listed appointment falls on it. */
  lemma {:induction false} GroupByDayKeys(appts: seq<Appointment>, listed: Appointment -> bool)
    ensures forall key :: key in GroupByDay(appts, listed) <==>
              exists i :: 0 <= i < |appts| && listed(appts[i]) && DayKey(appts[i]) == key
  {
    if appts != [] {
      var init, a := appts[..|appts| - 1], appts[|appts| - 1];
      GroupByDayKeys(init, listed);
      var m := GroupByDay(init, listed);
      forall key | key in GroupByDay(appts, listed)
        ensures exists i :: 0 <= i < |appts| && listed(appts[i]) && DayKey(appts[i]) == key
      {
        if key in m {
          var i :| 0 <= i < |init| && listed(init[i]) && DayKey(init[i]) == key;
          assert appts[i] == init[i];
        } else {
          assert appts[|appts| - 1] == a;
        }
      }
      forall key | exists i :: 0 <= i < |appts| && listed(appts[i]) && DayKey(appts[i]) == key
        ensures key in GroupByDay(appts, listed)
      {
        var i :| 0 <= i < |appts| && listed(appts[i]) && DayKey(appts[i]) == key;
        if i < |init| {
          assert init[i] == appts[i];
        }
      }
    }
  }

  /** The appointments listed under a day are exactly the listed appointments
      with that day key, in input order. */
  lemma {:induction false} GroupByDayContents(appts: seq<Appointment>, listed: Appointment -> bool)
    ensures forall key :: key in GroupByDay(appts, listed) ==>
              GroupByDay(appts, listed)[key] == Filter(appts, (a: Appointment) => listed(a) && DayKey(a) == key)
  {
    if appts != [] {
      var init, a := appts[..|appts| - 1], appts[|appts| - 1];
      assert appts == init + [a];
      GroupByDayContents(init, listed);
      GroupByDayKeys(init, listed);
      var m := GroupByDay(init, listed);
      forall key | key in GroupByDay(appts, listed)
        ensures GroupByDay(appts, listed)[key] == Filter(appts, (b: Appointment) => listed(b) && DayKey(b) == key)
      {
        var p := (b: Appointment) => listed(b) && DayKey(b) == key;
        FilterAppend(init, [a], p);
        assert [a][1..] == [];
        assert Filter([a], p) == if p(a) then [a] else [];
        if key !in m {
          NoneListedFiltersEmpty(init, listed, key);
        }
        assert GroupByDay(appts, listed)[key] == (if key in m then m[key] else []) + (if p(a) then [a] else []);
      }
    }
  }

  lemma {:induction false} NoneListedFiltersEmpty(appts: seq<Appointment>, listed: Appointment -> bool, key: string)
    requires forall i :: 0 <= i < |appts| ==> !(listed(appts[i]) && DayKey(appts[i]) == key)
    ensures Filter(appts, (a: Appointment) => listed(a) && DayKey(a) == key) == []
  {
    if appts != [] {
      NoneListedFiltersEmpty(appts[1..], listed, key);
    }
  }
}
