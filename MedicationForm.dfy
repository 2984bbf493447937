/**
 * The Add and Edit medication-time screens: a form holding the timing
 * ("식전" before a meal or "식후" after), the selected weekdays and the hour
 * and minute picked from zero-padded options, and the alarm each screen
 * hands back to the alarm list when saved. The clock is a parameter.
 */
module MedicationForm {
  import opened JsText
  import opened DaySelection
  import opened MedicationTime

  const BEFORE_MEAL: string := "식전"
  const AFTER_MEAL: string := "식후"

  /** The four state variables both screens keep. */
  datatype Form = Form(timing: string, selectedDays: seq<string>, hour: string, minute: string)

  /** What the user can do on either form. */
  datatype FormEvent =
    | ChooseTiming(timing: string)
    | PressDay(day: string)
    | PickHour(hour: string)
    | PickMinute(minute: string)

  /** The Add screen starts after a meal, every day, at 12:00. */
  function AddInitial(): Form {
    Form(AFTER_MEAL, ALL_DAYS, "12", "00")
  }

  /** One state update of either screen. */
  function Apply(f: Form, e: FormEvent): Form {
    match e
    case ChooseTiming(t) => f.(timing := t)
    case PressDay(d) => f.(selectedDays := ToggleDay(f.selectedDays, d))
    case PickHour(h) => f.(hour := h)
    case PickMinute(m) => f.(minute := m)
  }

  /** An event the screen can produce: a timing checkbox, a day checkbox, or a picker option. */
  predicate Offered(e: FormEvent) {
    match e
    case ChooseTiming(t) => t == BEFORE_MEAL || t == AFTER_MEAL
    case PressDay(d) => d == EVERY_DAY || d in ALL_DAYS
    case PickHour(h) => h in HourOptions()
    case PickMinute(m) => m in MinuteOptions()
  }

  /** A form state the screens can reach from their options. */
  predicate WellFormed(f: Form) {
    (f.timing == BEFORE_MEAL || f.timing == AFTER_MEAL) &&
    NoDuplicates(f.selectedDays) && EVERY_DAY !in f.selectedDays &&
    (forall d :: d in f.selectedDays ==> d in ALL_DAYS) &&
    f.hour in HourOptions() && f.minute in MinuteOptions()
  }

  /** The state after a sequence of events. */
  function Run(f: Form, es: seq<FormEvent>): Form
    decreases |es|
  {
    if es == [] then f else Apply(Run(f, es[..|es| - 1]), es[|es| - 1])
  }

  /** An option of a picker is one of the counters "00" up to n - 1. */
  lemma OptionValue(n: nat, s: string) returns (i: nat)
    requires n <= 100 && s in PaddedRange(n)
    ensures i < n && s == TwoDigits(i)
    ensures |s| == 2 && AllDigits(s) && NumberOf(s) == Num(i)
  {
    var k :| 0 <= k < n && PaddedRange(n)[k] == s;
    OptionsAreTwoDigitCounters(n, k);
    TwoDigitsSpelled(k);
    i := k;
  }

  lemma AllDaysDistinct()
    ensures NoDuplicates(ALL_DAYS) && EVERY_DAY !in ALL_DAYS
  {
  }

  lemma InitialHourOffered()
    ensures "12" in HourOptions()
  {
    TwoDigitsSpelled(12);
    assert HourOptions()[12] == "12";
  }

  lemma InitialMinuteOffered()
    ensures "00" in MinuteOptions()
  {
    TwoDigitsSpelled(0);
    assert MinuteOptions()[0] == "00";
  }

  /** The Add screen's initial state uses picker options. */
  lemma AddInitialIsWellFormed()
    ensures WellFormed(AddInitial())
  {
    AllDaysDistinct();
    InitialHourOffered();
    InitialMinuteOffered();
  }

  /** Every offered event keeps the form well formed. */
  lemma ApplyKeepsWellFormed(f: Form, e: FormEvent)
    requires WellFormed(f) && Offered(e)
    ensures WellFormed(Apply(f, e))
  {
    if e.PressDay? {
      ToggleKeepsSelectionClean(f.selectedDays, e.day);
      var r := ToggleDay(f.selectedDays, e.day);
      if e.day != EVERY_DAY && e.day in f.selectedDays {
        assert forall d :: d in r ==> d in f.selectedDays;
      }
    }
  }

  /** From the Add screen's start, any offered events leave a well-formed form. */
  lemma {:induction false} RunKeepsWellFormed(es: seq<FormEvent>)
    requires forall i :: 0 <= i < |es| ==> Offered(es[i])
    ensures WellFormed(Run(AddInitial(), es))
    decreases |es|
  {
    if es == [] {
      AddInitialIsWellFormed();
    } else {
      RunKeepsWellFormed(es[..|es| - 1]);
      ApplyKeepsWellFormed(Run(AddInitial(), es[..|es| - 1]), es[|es| - 1]);
    }
  }

  /** The saved time text: the hour, a colon, the minute. */
  function SavedTime(f: Form): string {
    f.hour + ":" + f.minute
  }

  /** The id the Add screen gives: the millisecond timestamp in decimal. */
  function TimestampId(nowMs: int): string {
    IntToString(nowMs)
  }

  /**
   * `new Date()` then setHours(hour), setMinutes(minute), setSeconds(0):
   * today at that hour and minute, milliseconds kept from now. Text other
   * than a number gives an invalid date, stored as absent.
   */
  function AlarmTimestamp(f: Form, dayStartMs: int, msOfDay: nat): Option<int> {
    match (NumberOf(f.hour), NumberOf(f.minute))
    case (Num(h), Num(m)) => Some(dayStartMs + h * 3600000 + m * 60000 + msOfDay % 1000)
    case _ => None
  }

  /** saveMedication of the Add screen; the clock reads dayStartMs + msOfDay. */
  function SaveMedication(f: Form, dayStartMs: int, msOfDay: nat): Alarm {
    Alarm(Some(TimestampId(dayStartMs + msOfDay)), f.timing, f.selectedDays, SavedTime(f),
          AlarmTimestamp(f, dayStartMs, msOfDay))
  }

  /** The id reads back as the timestamp it was made from. */
  lemma TimestampIdRoundTrip(nowMs: int)
    ensures ParseInt(TimestampId(nowMs)) == Num(nowMs)
  {
    IntToStringRoundTrip(nowMs);
  }

  /** For numeric fields the stored time is today at hour:minute:00, with the milliseconds of now. */
  lemma AlarmTimestampFields(f: Form, dayStartMs: int, msOfDay: nat, h: nat, m: nat)
    requires NumberOf(f.hour) == Num(h) && NumberOf(f.minute) == Num(m)
    requires h < 24 && m < 60
    ensures AlarmTimestamp(f, dayStartMs, msOfDay).Some?
    ensures var t := AlarmTimestamp(f, dayStartMs, msOfDay).value - dayStartMs;
      t / 3600000 == h && (t % 3600000) / 60000 == m && t % 60000 == msOfDay % 1000
  {
    var t := AlarmTimestamp(f, dayStartMs, msOfDay).value - dayStartMs;
    var ms := msOfDay % 1000;
    assert t == h * 3600000 + (m * 60000 + ms);
    assert 0 <= m * 60000 + ms < 3600000;
    assert t % 3600000 == m * 60000 + ms;
    assert t / 3600000 == h;
  }

  /** A well-formed form saves a time that parses back into its picked hour and minute. */
  lemma SavedTimeParses(f: Form) returns (h: nat, m: nat)
    requires WellFormed(f)
    ensures h < 24 && m < 60
    ensures f.hour == TwoDigits(h) && f.minute == TwoDigits(m)
    ensures NumberOf(f.hour) == Num(h) && NumberOf(f.minute) == Num(m)
    ensures ParseTime(SavedTime(f)) == (Num(h), Num(m))
  {
    h := OptionValue(24, f.hour);
    m := OptionValue(60, f.minute);
    assert ':' !in f.hour && ':' !in f.minute by {
      assert !IsDigit(':');
    }
    SplitFirstOfJoined(f.hour, ':', f.minute);
    SplitFirstWithoutSeparator(f.minute, ':');
  }

  /**
   * Saving a well-formed form gives an alarm whose every weekday is scheduled
   * on that weekday at the picked time, within the coming week.
   */
  lemma SavedAlarmSchedulesPickedTime(f: Form, dayStartMs: int, msOfDay: nat, dayIndex: Weekday, now: Clock)
    requires WellFormed(f)
    ensures FiresAt(TriggerFor(SaveMedication(f, dayStartMs, msOfDay).time, dayIndex, now),
                    NumberOf(f.hour), NumberOf(f.minute), dayIndex, now.today)
  {
    var h, m := SavedTimeParses(f);
    assert SaveMedication(f, dayStartMs, msOfDay).time == SavedTime(f);
    TriggerLandsOnWeekday(SavedTime(f), dayIndex, now, h, m);
  }

  /** A weekly trigger at that hour and minute, on that weekday of the coming week. */
  predicate FiresAt(t: Trigger, hour: JsNumber, minute: JsNumber, dayIndex: Weekday, today: Weekday) {
    t.Weekly? && hour == Num(t.hour) && minute == Num(t.minute) &&
    0 <= t.dayOffset <= 7 && (today + t.dayOffset) % 7 == dayIndex
  }

  /** The Edit screen's alarm when it is opened without one. */
  function DefaultAlarm(): Alarm {
    Alarm(None, AFTER_MEAL, ALL_DAYS, "12:00", None)
  }

  /** The alarm the Edit screen works on: the one passed in, or the default. */
  function EditSource(param: Option<Alarm>): Alarm {
    match param
    case Some(a) => a
    case None => DefaultAlarm()
  }

  /** The Edit screen's initial state: the hour and minute cut out of the time text. */
  function EditInitial(param: Option<Alarm>): Form {
    var a := EditSource(param);
    Form(a.timing, a.days, HourPart(a.time), MinutePart(a.time))
  }

  /** saveEditedMedication: the alarm with its timing, days and time replaced. */
  function SaveEditedMedication(alarm: Alarm, f: Form): Alarm {
    alarm.(timing := f.timing, days := f.selectedDays, time := SavedTime(f))
  }

  /** Opened without an alarm, the Edit screen starts exactly like the Add screen. */
  lemma EditDefaultMatchesAdd()
    ensures EditInitial(None) == AddInitial()
  {
    assert HourPart("12:00") == "12";
    assert MinutePart("12:00") == "00";
  }

  /** Saving an edit keeps the id and the stored timestamp, and reports the form's fields. */
  lemma EditKeepsIdentity(alarm: Alarm, f: Form)
    ensures SaveEditedMedication(alarm, f).id == alarm.id
    ensures SaveEditedMedication(alarm, f).alarmTime == alarm.alarmTime
    ensures HourPart(SavedTime(f)) == f.hour <== |f.hour| == 2
    ensures MinutePart(SavedTime(f)) == f.minute <== |f.hour| == 2 && |f.minute| == 2
  {
  }

  /** Editing again what was just saved shows the form it was saved from. */
  lemma EditShowsSavedForm(alarm: Alarm, f: Form)
    requires |f.hour| == 2 && |f.minute| == 2
    ensures EditInitial(Some(SaveEditedMedication(alarm, f))) == f
  {
    var t := SavedTime(f);
    assert t[0..2] == f.hour;
    assert t[3..5] == f.minute;
  }

  /** An alarm added on the Add screen opens on the Edit screen with the same form. */
  lemma EditShowsAddedForm(f: Form, dayStartMs: int, msOfDay: nat)
    requires |f.hour| == 2 && |f.minute| == 2
    ensures EditInitial(Some(SaveMedication(f, dayStartMs, msOfDay))) == f
  {
    var t := SavedTime(f);
    assert t[0..2] == f.hour;
    assert t[3..5] == f.minute;
  }

  /** Saving the Edit screen untouched gives back an alarm whose time reads hh:mm. */
  lemma UntouchedEditKeepsAlarm(alarm: Alarm)
    requires |alarm.time| == 5 && alarm.time[2] == ':'
    ensures SaveEditedMedication(alarm, EditInitial(Some(alarm))) == alarm
  {
    var f := EditInitial(Some(alarm));
    assert SavedTime(f) == alarm.time[0..2] + ":" + alarm.time[3..5];
    assert SavedTime(f) == alarm.time;
  }

  /**
   * Saving the default alarm hands back an id-less alarm, which no alarm on
   * a list where every alarm has an id matches: the update changes nothing.
   */
  lemma SavingDefaultUpdatesNothing(alarms: seq<Alarm>, f: Form)
    requires AllHaveIds(alarms)
    ensures Replaced(alarms, SaveEditedMedication(EditSource(None), f)) == alarms
  {
  }
}
