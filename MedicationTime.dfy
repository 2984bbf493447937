/**
 * The medication alarm list (MedicationTimeScreen): the list of alarms,
 * its copy in local storage, and the weekly notifications scheduled for
 * each alarm. Storage, the notification library and the clock are modelled
 * as a stored value, a record of outgoing calls, and a parameter.
 */
module MedicationTime {
  import opened JsText

  /**
   * One alarm as the screens build it. `id` and `alarmTime` are absent on
   * the Edit screen's default alarm.
   */
  datatype Alarm = Alarm(id: Option<string>, timing: string, days: seq<string>, time: string, alarmTime: Option<int>)

  /** Day names in the order Date.getDay numbers them, Sunday first. */
  const DAYS_OF_WEEK: seq<string> := ["일", "월", "화", "수", "목", "금", "토"]

  type Weekday = d: int | 0 <= d < 7

  /** The local clock: today's weekday and the milliseconds since midnight. */
  datatype Clock = Clock(today: Weekday, msOfDay: nat)

  /** When a scheduled notification first fires; it then repeats weekly. */
  datatype Trigger =
    | Weekly(dayOffset: int, hour: nat, minute: nat)
    | InvalidDate

  /**
   * Calls to the local-notification library. A scheduled notification has
   * the id it was given, if any; scheduleAlarm gives none.
   */
  datatype PushCall =
    | Schedule(message: string, date: Trigger, notificationId: Option<string>)
    | Cancel(id: string)

  /** `list.indexOf(x)` */
  function IndexOf(s: seq<string>, x: string): (r: int)
    ensures -1 <= r < |s|
    ensures r == -1 <==> x !in s
    ensures r >= 0 ==> s[r] == x && forall j :: 0 <= j < r ==> s[j] != x
  {
    if s == [] then -1
    else if s[0] == x then 0
    else var k := IndexOf(s[1..], x); if k == -1 then -1 else k + 1
  }

  /**
   * Whether the alarm would fire k days from now: k days on is the alarm's
   * weekday, and k is not today unless the alarm time is still ahead.
   */
  predicate IsOccurrence(today: Weekday, dayIndex: Weekday, laterToday: bool, k: int) {
    (today + k) % 7 == dayIndex && (k > 0 || laterToday)
  }

  /**
   * Days from today until the alarm's weekday: today itself when the alarm
   * time is still ahead, otherwise the same weekday next week.
   */
  function DayOffset(today: Weekday, dayIndex: Weekday, laterToday: bool): (offset: int)
    ensures 0 <= offset <= 7
    ensures (today + offset) % 7 == dayIndex
    ensures offset == 0 <==> dayIndex == today && laterToday
    ensures offset == 7 <==> dayIndex == today && !laterToday
    ensures IsOccurrence(today, dayIndex, laterToday, offset)
    ensures forall k :: 0 <= k < offset ==> !IsOccurrence(today, dayIndex, laterToday, k)
  {
    if dayIndex > today || (dayIndex == today && laterToday) then dayIndex - today
    else 7 + dayIndex - today
  }

  /** `alarm.time.split(':').map(Number)`: the first two fields as numbers. */
  function ParseTime(time: string): (JsNumber, JsNumber) {
    var first := SplitFirst(time, ':');
    var minute := if first.1.Some? then NumberOf(SplitFirst(first.1.value, ':').0) else NaN;
    (NumberOf(first.0), minute)
  }

  /** The notification text: the timing followed by "투약 시간입니다". */
  function Message(timing: string): string {
    timing + " 투약 시간입니다"
  }

  /** The trigger scheduled for one weekday of an alarm. */
  function TriggerFor(time: string, dayIndex: Weekday, now: Clock): Trigger {
    match ParseTime(time)
    case (Num(h), Num(m)) =>
      if h >= 0 && m >= 0 then
        var laterToday := h * 3600000 + m * 60000 > now.msOfDay;
        Weekly(DayOffset(now.today, dayIndex, laterToday), h, m)
      else InvalidDate
    case _ => InvalidDate
  }

  /** What the forEach body of scheduleAlarm schedules for one day name. */
  function DayCalls(alarm: Alarm, day: string, now: Clock): seq<PushCall> {
    var i := IndexOf(DAYS_OF_WEEK, day);
    if i == -1 then [] else [Schedule(Message(alarm.timing), TriggerFor(alarm.time, i, now), None)]
  }

  /** All calls scheduleAlarm makes for the given day names, in order. */
  function ScheduledCalls(alarm: Alarm, days: seq<string>, now: Clock): seq<PushCall>
    decreases |days|
  {
    if days == [] then []
    else ScheduledCalls(alarm, days[..|days| - 1], now) + DayCalls(alarm, days[|days| - 1], now)
  }

  /** Scheduling one more day name appends that day's calls. */
  lemma ScheduledCallsStep(alarm: Alarm, days: seq<string>, i: nat, now: Clock)
    requires i < |days|
    ensures ScheduledCalls(alarm, days[..i + 1], now) ==
      ScheduledCalls(alarm, days[..i], now) + DayCalls(alarm, days[i], now)
  {
    assert days[..i + 1][..i] == days[..i];
  }

  /** The day names scheduleAlarm recognises, in order. */
  function RecognisedDays(days: seq<string>): (r: seq<string>)
    ensures forall d :: d in r ==> d in DAYS_OF_WEEK
    decreases |days|
  {
    if days == [] then []
    else RecognisedDays(days[..|days| - 1]) + (if days[|days| - 1] in DAYS_OF_WEEK then [days[|days| - 1]] else [])
  }

  /** One weekly notification per recognised day name, in the order of the alarm's days. */
  lemma {:induction false} OneNotificationPerRecognisedDay(alarm: Alarm, days: seq<string>, now: Clock)
    ensures |ScheduledCalls(alarm, days, now)| == |RecognisedDays(days)|
    ensures forall j :: 0 <= j < |RecognisedDays(days)| ==>
      ScheduledCalls(alarm, days, now)[j] ==
      Schedule(Message(alarm.timing), TriggerFor(alarm.time, IndexOf(DAYS_OF_WEEK, RecognisedDays(days)[j]), now), None)
    decreases |days|
  {
    if days != [] {
      OneNotificationPerRecognisedDay(alarm, days[..|days| - 1], now);
    }
  }

  /** Day names outside 일..토 schedule nothing. */
  lemma {:induction false} UnknownDaysScheduleNothing(alarm: Alarm, days: seq<string>, now: Clock)
    requires forall i :: 0 <= i < |days| ==> days[i] !in DAYS_OF_WEEK
    ensures ScheduledCalls(alarm, days, now) == []
    decreases |days|
  {
    if days != [] {
      UnknownDaysScheduleNothing(alarm, days[..|days| - 1], now);
    }
  }

  /** No scheduled notification among the calls was given an id. */
  predicate NoIds(calls: seq<PushCall>) {
    forall i :: 0 <= i < |calls| && calls[i].Schedule? ==> calls[i].notificationId.None?
  }

  /**
   * cancelLocalNotification(id) matches a notification by its id: the
   * notification scheduled by call i is cancelled by a later Cancel with
   * that id.
   */
  predicate CancelledLater(calls: seq<PushCall>, i: nat)
    requires i < |calls|
  {
    calls[i].Schedule? &&
    exists j :: i < j < |calls| && calls[j].Cancel? && calls[i].notificationId == Some(calls[j].id)
  }

  /** scheduleAlarm passes no id to localNotificationSchedule. */
  lemma ScheduledCallsCarryNoId(alarm: Alarm, days: seq<string>, now: Clock)
    ensures NoIds(ScheduledCalls(alarm, days, now))
  {
    OneNotificationPerRecognisedDay(alarm, days, now);
  }

  /** So a cancel, whatever its id, matches none of the notifications scheduled before it. */
  lemma CancelMatchesNothing(calls: seq<PushCall>, id: string)
    requires NoIds(calls)
    ensures NoIds(calls + [Cancel(id)])
    ensures forall i :: 0 <= i < |calls| ==> !CancelledLater(calls + [Cancel(id)], i)
  {
  }

  /**
   * A parsed alarm time lands on the named weekday, within the coming
   * week, and today only when the time is still ahead.
   */
  lemma TriggerLandsOnWeekday(time: string, dayIndex: Weekday, now: Clock, h: nat, m: nat)
    requires ParseTime(time) == (Num(h), Num(m))
    ensures TriggerFor(time, dayIndex, now).Weekly?
    ensures TriggerFor(time, dayIndex, now).hour == h && TriggerFor(time, dayIndex, now).minute == m
    ensures 0 <= TriggerFor(time, dayIndex, now).dayOffset <= 7
    ensures (now.today + TriggerFor(time, dayIndex, now).dayOffset) % 7 == dayIndex
    ensures TriggerFor(time, dayIndex, now).dayOffset == 0 <==>
            dayIndex == now.today && h * 3600000 + m * 60000 > now.msOfDay
  {
  }

  /** A time without a numeric hour or minute gives an invalid date. */
  lemma UnparsableTimeGivesInvalidDate(time: string, dayIndex: Weekday, now: Clock)
    requires ParseTime(time).0.NaN? || ParseTime(time).1.NaN?
    ensures TriggerFor(time, dayIndex, now) == InvalidDate
  {
  }

  /** `prevAlarms.map(a => a.id === updated.id ? updated : a)` */
  function Replaced(alarms: seq<Alarm>, updated: Alarm): (r: seq<Alarm>)
    ensures |r| == |alarms|
    ensures forall i :: 0 <= i < |r| ==> r[i] == if alarms[i].id == updated.id then updated else alarms[i]
  {
    if alarms == [] then []
    else [if alarms[0].id == updated.id then updated else alarms[0]] + Replaced(alarms[1..], updated)
  }

  /** `prevAlarms.filter(a => a.id !== alarmId)` */
  function Removed(alarms: seq<Alarm>, alarmId: string): (r: seq<Alarm>)
    ensures forall a :: a in r <==> a in alarms && a.id != Some(alarmId)
    ensures |r| <= |alarms|
  {
    if alarms == [] then []
    else (if alarms[0].id == Some(alarmId) then [] else [alarms[0]]) + Removed(alarms[1..], alarmId)
  }

  /** The filter keeps the relative order of what it keeps. */
  lemma {:induction false} RemovedKeepsOrder(a: seq<Alarm>, b: seq<Alarm>, alarmId: string)
    ensures Removed(a + b, alarmId) == Removed(a, alarmId) + Removed(b, alarmId)
  {
    if a == [] {
      assert a + b == b;
    } else {
      assert (a + b)[1..] == a[1..] + b;
      RemovedKeepsOrder(a[1..], b, alarmId);
    }
  }

  predicate AllHaveIds(alarms: seq<Alarm>) {
    forall i :: 0 <= i < |alarms| ==> alarms[i].id.Some?
  }

  /**
   * loadAlarmsFromStorage: nothing stored, or a failed read, gives the empty
   * list; otherwise the list last stored.
   */
  function LoadAlarmsFromStorage(stored: Option<seq<Alarm>>, readFails: bool): seq<Alarm> {
    if readFails then []
    else match stored
      case None => []
      case Some(saved) => saved
  }

  /** The days label: "매일" for seven days, else the days joined by ", ". */
  function DaysLabel(days: seq<string>): string {
    if |days| == 7 then "매일" else Join(days, ", ")
  }

  /** For one-letter day names the label is "매일" exactly when there are seven days. */
  lemma DaysLabelEveryDayIff(days: seq<string>)
    requires forall i :: 0 <= i < |days| ==> |days[i]| == 1
    ensures DaysLabel(days) == "매일" <==> |days| == 7
  {
    if |days| != 7 && days != [] {
      JoinLength(days, ", ");
      assert |Join(days, ", ")| == 3 * |days| - 2;
    }
  }

  /** `time.substring(0, 2)`: the hour as shown and as the Edit screen reads it. */
  function HourPart(time: string): string {
    Substring(time, 0, 2)
  }

  /** `time.substring(3, 5)`: the minute as shown and as the Edit screen reads it. */
  function MinutePart(time: string): string {
    Substring(time, 3, 5)
  }

  /** The alarm list screen: its state, its storage key and the scheduled notifications. */
  class MedicationTimeScreen {
    var alarms: seq<Alarm>
    var stored: Option<seq<Alarm>>
    var pushCalls: seq<PushCall>

    /**
     * Every alarm on the list, and every stored one, carries an id; no
     * scheduled notification does.
     */
    predicate Valid()
      reads this
    {
      AllHaveIds(alarms) && (stored.Some? ==> AllHaveIds(stored.value)) && NoIds(pushCalls)
    }

    constructor (stored: Option<seq<Alarm>>)
      requires stored.Some? ==> AllHaveIds(stored.value)
      ensures Valid()
      ensures alarms == [] && this.stored == stored && pushCalls == []
    {
      alarms := [];
      this.stored := stored;
      pushCalls := [];
    }

    /** saveAlarmsToStorage: a failed write is only logged. */
    method SaveAlarmsToStorage(list: seq<Alarm>, saveFails: bool)
      modifies this`stored
      ensures stored == if saveFails then old(stored) else Some(list)
    {
      if !saveFails {
        stored := Some(list);
      }
    }

    method ScheduleAlarm(alarm: Alarm, now: Clock)
      modifies this`pushCalls
      ensures pushCalls == old(pushCalls) + ScheduledCalls(alarm, alarm.days, now)
      ensures NoIds(old(pushCalls)) ==> NoIds(pushCalls)
    {
      var i := 0;
      while i < |alarm.days|
        invariant 0 <= i <= |alarm.days|
        invariant pushCalls == old(pushCalls) + ScheduledCalls(alarm, alarm.days[..i], now)
        invariant NoIds(old(pushCalls)) ==> NoIds(pushCalls)
      {
        var day := alarm.days[i];
        var dayIndex := IndexOf(DAYS_OF_WEEK, day);
        ScheduledCallsStep(alarm, alarm.days, i, now);
        if dayIndex != -1 {
          var date := TriggerFor(alarm.time, dayIndex, now);
          pushCalls := pushCalls + [Schedule(Message(alarm.timing), date, None)];
        }
        i := i + 1;
      }
      assert alarm.days[..i] == alarm.days;
    }

    /** addAlarm: append with a fresh id, save, and schedule the alarm. */
    method AddAlarm(newAlarm: Alarm, freshId: string, now: Clock, saveFails: bool)
      requires Valid()
      modifies this
      ensures Valid()
      ensures alarms == old(alarms) + [newAlarm.(id := Some(freshId))]
      ensures stored == if saveFails then old(stored) else Some(alarms)
      ensures pushCalls == old(pushCalls) + ScheduledCalls(newAlarm, newAlarm.days, now)
    {
      var updated := alarms + [newAlarm.(id := Some(freshId))];
      SaveAlarmsToStorage(updated, saveFails);
      ScheduleAlarm(newAlarm, now);
      alarms := updated;
    }

    /** updateAlarm: replace every alarm with the same id, save; nothing is scheduled or cancelled. */
    method UpdateAlarm(updatedAlarm: Alarm, saveFails: bool)
      requires Valid()
      modifies this
      ensures Valid()
      ensures alarms == Replaced(old(alarms), updatedAlarm)
      ensures stored == if saveFails then old(stored) else Some(alarms)
      ensures pushCalls == old(pushCalls)
    {
      var updated := Replaced(alarms, updatedAlarm);
      SaveAlarmsToStorage(updated, saveFails);
      alarms := updated;
    }

    /**
     * removeAlarm: drop every alarm with that id, save, and ask to cancel the
     * notification with that id, which matches none this screen scheduled.
     */
    method RemoveAlarm(alarmId: string, saveFails: bool)
      requires Valid()
      modifies this
      ensures Valid()
      ensures alarms == Removed(old(alarms), alarmId)
      ensures stored == if saveFails then old(stored) else Some(alarms)
      ensures pushCalls == old(pushCalls) + [Cancel(alarmId)]
      ensures forall i :: 0 <= i < |pushCalls| ==> !CancelledLater(pushCalls, i)
    {
      CancelMatchesNothing(pushCalls, alarmId);
      var updated := Removed(alarms, alarmId);
      SaveAlarmsToStorage(updated, saveFails);
      pushCalls := pushCalls + [Cancel(alarmId)];
      alarms := updated;
    }

    /** `list.forEach(scheduleAlarm)` */
    method ScheduleAll(list: seq<Alarm>, now: Clock)
      modifies this`pushCalls
      ensures pushCalls == old(pushCalls) + AllScheduledCalls(list, now)
      ensures NoIds(old(pushCalls)) ==> NoIds(pushCalls)
    {
      ghost var before := pushCalls;
      var i := 0;
      while i < |list|
        invariant 0 <= i <= |list|
        invariant pushCalls == before + AllScheduledCalls(list[..i], now)
        invariant NoIds(before) ==> NoIds(pushCalls)
      {
        AllScheduledCallsStep(before, list, i, now);
        ScheduleAlarm(list[i], now);
        i := i + 1;
      }
      assert list[..i] == list;
    }

    /** The focus effect's loadAlarms: read the stored list, show it, and schedule every alarm. */
    method LoadAlarms(readFails: bool, now: Clock)
      requires Valid()
      modifies this
      ensures Valid()
      ensures alarms == LoadAlarmsFromStorage(stored, readFails)
      ensures stored == old(stored)
      ensures pushCalls == old(pushCalls) + AllScheduledCalls(alarms, now)
    {
      var loaded := LoadAlarmsFromStorage(stored, readFails);
      alarms := loaded;
      ScheduleAll(loaded, now);
    }
  }

  /** What `list.forEach(scheduleAlarm)` schedules. */
  function AllScheduledCalls(alarms: seq<Alarm>, now: Clock): seq<PushCall>
    decreases |alarms|
  {
    if alarms == [] then []
    else AllScheduledCalls(alarms[..|alarms| - 1], now) +
         ScheduledCalls(alarms[|alarms| - 1], alarms[|alarms| - 1].days, now)
  }

  /** Scheduling one more alarm of the list appends that alarm's calls. */
  lemma AllScheduledCallsStep(before: seq<PushCall>, list: seq<Alarm>, i: nat, now: Clock)
    requires i < |list|
    ensures before + AllScheduledCalls(list[..i + 1], now) ==
      before + AllScheduledCalls(list[..i], now) + ScheduledCalls(list[i], list[i].days, now)
  {
    assert list[..i + 1][..i] == list[..i];
    var done := AllScheduledCalls(list[..i], now);
    var next := ScheduledCalls(list[i], list[i].days, now);
    assert AllScheduledCalls(list[..i + 1], now) == done + next;
    assert before + (done + next) == before + done + next;
  }

  /** A list that was saved is the list loaded back; nothing or a failed read gives []. */
  lemma LoadReturnsLastSaved(saved: seq<Alarm>)
    ensures LoadAlarmsFromStorage(Some(saved), false) == saved
    ensures LoadAlarmsFromStorage(None, false) == []
    ensures LoadAlarmsFromStorage(Some(saved), true) == []
  {
  }
}
