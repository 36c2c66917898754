/** backend/models/MentorAvailability.js: a mentor's weekly schedule of
    "HH:mm" slots and the online flag with its last-seen time. */
module Availability {
  import opened Common

  /** The validator `^([01]?[0-9]|2[0-3]):[0-5][0-9]$`: an hour written with
      one digit, or with two digits from 00 to 23, then a colon and a
      two-digit minute from 00 to 59. */
  predicate IsSlotTime(s: string)
  {
    if |s| == 4 then
      IsDigit(s[0]) && s[1] == ':' && '0' <= s[2] <= '5' && IsDigit(s[3])
    else if |s| == 5 then
      ((s[0] in {'0', '1'} && IsDigit(s[1])) || (s[0] == '2' && '0' <= s[1] <= '3')) &&
      s[2] == ':' && '0' <= s[3] <= '5' && IsDigit(s[4])
    else false
  }

  /** "HH:mm" with a leading zero on the hour. */
  function TwoDigit(h: int, m: int): (s: string)
    requires 0 <= h < 24 && 0 <= m < 60
    ensures |s| == 5
  {
    [DigitChar(h / 10), DigitChar(h % 10), ':', DigitChar(m / 10), DigitChar(m % 10)]
  }

  /** "H:mm", the one-digit hour the validator also admits. */
  function OneDigit(h: int, m: int): (s: string)
    requires 0 <= h < 10 && 0 <= m < 60
    ensures |s| == 4
  {
    [DigitChar(h), ':', DigitChar(m / 10), DigitChar(m % 10)]
  }

  /** Minutes since midnight of a two-digit time, as the order check reads it
      through `new Date("1970-01-01T" + s)`. A one-digit hour gives `None`:
      whether that string parses depends on the JavaScript engine, and this
      model takes the reading in which it is an invalid date. */
  function SlotMinutes(s: string): (r: Option<int>)
    ensures r.Some? ==> 0 <= r.value < 24 * 60
  {
    if IsSlotTime(s) && |s| == 5 then
      Some((DigitValue(s[0]) * 10 + DigitValue(s[1])) * 60 + DigitValue(s[3]) * 10 + DigitValue(s[4]))
    else None
  }

  /** The hour and minute a well-formed time names. */
  function HourMinute(s: string): (int, int)
    requires IsSlotTime(s)
  {
    if |s| == 4 then (DigitValue(s[0]), DigitValue(s[2]) * 10 + DigitValue(s[3]))
    else (DigitValue(s[0]) * 10 + DigitValue(s[1]), DigitValue(s[3]) * 10 + DigitValue(s[4]))
  }

  /** Every time the validator accepts is an hour 0..23 and a minute 0..59
      written in one of the two forms. */
  lemma {:induction false} SlotTimeDecomposes(s: string)
    requires IsSlotTime(s)
    ensures var (h, m) := HourMinute(s);
      0 <= h < 24 && 0 <= m < 60 &&
      (|s| == 5 ==> s == TwoDigit(h, m) && SlotMinutes(s) == Some(h * 60 + m)) &&
      (|s| == 4 ==> h < 10 && s == OneDigit(h, m) && SlotMinutes(s).None?)
  {
    var (h, m) := HourMinute(s);
    if |s| == 4 {
      assert s == OneDigit(h, m);
    } else {
      assert s == TwoDigit(h, m);
    }
  }

  /** Every hour 0..23 and minute 0..59 is accepted in the two-digit form,
      and also in the one-digit form when the hour is below ten. */
  lemma {:induction false} SlotTimeForms(h: int, m: int)
    requires 0 <= h < 24 && 0 <= m < 60
    ensures IsSlotTime(TwoDigit(h, m))
    ensures h < 10 ==> IsSlotTime(OneDigit(h, m))
  {
    assert h / 10 <= 2 && (h / 10 == 2 ==> h % 10 <= 3);
    assert m / 10 <= 5;
  }

  lemma {:induction false} TwoDigitMinutes(h: int, m: int)
    requires 0 <= h < 24 && 0 <= m < 60
    ensures IsSlotTime(TwoDigit(h, m)) && SlotMinutes(TwoDigit(h, m)) == Some(h * 60 + m)
  {
    var s := TwoDigit(h, m);
    assert h / 10 <= 2 && (h / 10 == 2 ==> h % 10 <= 3);
    assert DigitValue(s[0]) * 10 + DigitValue(s[1]) == h;
    assert DigitValue(s[3]) * 10 + DigitValue(s[4]) == m;
  }

  datatype TimeSlot = TimeSlot(start: string, end: string)

  /** `schedule` has exactly the seven weekday keys. */
  datatype Schedule = Schedule(
    monday: seq<TimeSlot>, tuesday: seq<TimeSlot>, wednesday: seq<TimeSlot>,
    thursday: seq<TimeSlot>, friday: seq<TimeSlot>, saturday: seq<TimeSlot>,
    sunday: seq<TimeSlot>)

  function EmptySchedule(): Schedule
  {
    Schedule([], [], [], [], [], [], [])
  }

  function SlotsOn(s: Schedule, d: Weekday): seq<TimeSlot>
  {
    match d
    case Monday => s.monday
    case Tuesday => s.tuesday
    case Wednesday => s.wednesday
    case Thursday => s.thursday
    case Friday => s.friday
    case Saturday => s.saturday
    case Sunday => s.sunday
  }

  /** All slots, Monday first. */
  function AllSlots(s: Schedule): seq<TimeSlot>
  {
    s.monday + s.tuesday + s.wednesday + s.thursday + s.friday + s.saturday + s.sunday
  }

  datatype SaveError = InvalidTime(value: string) | EndNotAfterStart

  /** The pre-save hook of a slot: it fails when both ends read as times
      and the end is not strictly after the start. */
  predicate OutOfOrder(slot: TimeSlot)
  {
    var a, b := SlotMinutes(slot.start), SlotMinutes(slot.end);
    a.Some? && b.Some? && b.value <= a.value
  }

  /** The first value the format validator rejects, in slot order. */
  function FirstBadTime(slots: seq<TimeSlot>): (r: Option<string>)
    ensures r.None? <==> forall i :: 0 <= i < |slots| ==> IsSlotTime(slots[i].start) && IsSlotTime(slots[i].end)
    ensures r.Some? ==> (!IsSlotTime(r.value) &&
      exists i :: 0 <= i < |slots| && r.value in {slots[i].start, slots[i].end})
  {
    if slots == [] then None
    else if !IsSlotTime(slots[0].start) then Some(slots[0].start)
    else if !IsSlotTime(slots[0].end) then Some(slots[0].end)
    else
      var rest := FirstBadTime(slots[1..]);
      if rest.Some? then
        var i :| 0 <= i < |slots[1..]| && rest.value in {slots[1..][i].start, slots[1..][i].end};
        assert slots[1..][i] == slots[i + 1];
        rest
      else
        assert forall i :: 1 <= i < |slots| ==> slots[i] == slots[1..][i - 1];
        None
  }

  /** What saving a schedule reports: a format error first, then an
      ordering error, otherwise nothing. */
  function ScheduleError(s: Schedule): (r: Option<SaveError>)
    ensures r.None? <==> forall t :: t in AllSlots(s) ==>
      IsSlotTime(t.start) && IsSlotTime(t.end) && !OutOfOrder(t)
  {
    var slots := AllSlots(s);
    var bad := FirstBadTime(slots);
    if bad.Some? then
      assert exists i :: 0 <= i < |slots| && !(IsSlotTime(slots[i].start) && IsSlotTime(slots[i].end));
      Some(InvalidTime(bad.value))
    else if exists t :: t in slots && OutOfOrder(t) then Some(EndNotAfterStart)
    else None
  }

  /** For two-digit times, a slot fails the ordering check exactly when its
      end is not later than its start. */
  lemma {:induction false} OrderCheckOnTwoDigitTimes(h1: int, m1: int, h2: int, m2: int)
    requires 0 <= h1 < 24 && 0 <= m1 < 60 && 0 <= h2 < 24 && 0 <= m2 < 60
    ensures OutOfOrder(TimeSlot(TwoDigit(h1, m1), TwoDigit(h2, m2))) <==> h2 * 60 + m2 <= h1 * 60 + m1
  {
    TwoDigitMinutes(h1, m1);
    TwoDigitMinutes(h2, m2);
  }

  /** A mentor's availability document. `onlineModified` is Mongoose's
      modified mark on `isOnline`: set by any assignment that changes the
      value, kept until a save succeeds. */
  class MentorAvailability {
    const mentor: Id
    var schedule: Schedule
    var isOnline: bool
    var onlineModified: bool
    var lastSeen: int
    var timezone: string

    /** A new document with the schema defaults. */
    constructor (mentor: Id, now: int)
      ensures this.mentor == mentor && schedule == EmptySchedule()
      ensures !isOnline && !onlineModified && lastSeen == now && timezone == "UTC"
    {
      this.mentor := mentor;
      schedule := EmptySchedule();
      isOnline := false;
      onlineModified := false;
      lastSeen := now;
      timezone := "UTC";
    }

    /** `doc.isOnline = v`: the path is marked modified when the value
        changes, and an earlier mark is kept. */
    method SetOnline(v: bool)
      modifies this`isOnline, this`onlineModified
      ensures isOnline == v
      ensures onlineModified == (old(onlineModified) || v != old(isOnline))
    {
      if v != isOnline {
        onlineModified := true;
      }
      isOnline := v;
    }

    /** `save()`: validation and the slot hooks, then the hook that stamps
        `lastSeen` when `isOnline` is marked modified and is now false. A
        failed save changes nothing; a successful one clears the mark. */
    method Save(now: int) returns (r: Option<SaveError>)
      modifies this`lastSeen, this`onlineModified
      ensures r == ScheduleError(schedule)
      ensures r.Some? ==> lastSeen == old(lastSeen) && onlineModified == old(onlineModified)
      ensures r.None? ==> !onlineModified
      ensures r.None? && old(onlineModified) && !isOnline ==> lastSeen == now
      ensures r.None? && !(old(onlineModified) && !isOnline) ==> lastSeen == old(lastSeen)
    {
      r := ScheduleError(schedule);
      if r.Some? {
        return;
      }
      if onlineModified && !isOnline {
        lastSeen := now;
      }
      onlineModified := false;
    }
  }

  /** Going offline and saving stamps the save time; saving again without a
      change keeps it. */
  method GoOfflineTwice(a: MentorAvailability, t1: int, t2: int)
    requires a.isOnline && ScheduleError(a.schedule).None?
    modifies a
    ensures a.lastSeen == t1 && !a.isOnline
  {
    a.SetOnline(false);
    var r1 := a.Save(t1);
    assert r1.None? && a.lastSeen == t1;
    var r2 := a.Save(t2);
    assert r2.None?;
  }

  /** Going online and back offline between two saves still stamps the
      save time: the mark set by the first change survives the second. */
  method ToggleBackStamps(a: MentorAvailability, t: int)
    requires !a.isOnline && ScheduleError(a.schedule).None?
    modifies a
    ensures a.lastSeen == t && !a.isOnline && !a.onlineModified
  {
    a.SetOnline(true);
    a.SetOnline(false);
    var r := a.Save(t);
    assert r.None?;
  }
}
