# Ieum app core, modelled in Dafny

Ieum is a React Native app for the elderly, with an Android native side.
This project models the parts of it that hold logic: the native screen-off tracker and the JavaScript
tracking lifecycle around it, the gyroscope shock/fall classifier, the medication alarm list with its
weekly scheduling, the Add and Edit medication forms, the two paginated list screens, the notification
counter, and the logout confirmation dialog.

Each source file is one module. JavaScript's own string and number rules
(`parseInt`, `toString`, `Number`, `trim`, `substring`, `slice`, `padStart`, `join`, `split`) are written out
once, in `JsText` (`Js.dfy`).

Objects whose fields change are classes:
`UsageStatsModule`, `UsageTrackerModule`, `GyroSensorManager`, `MedicationTimeScreen`,
`NearbyMedicalFacilitiesScreen`, `AlarmListScreen` and `NotificationCenter`. Each state-changing
method is tied, by its postcondition, to a pure step function on a snapshot of the fields. The
properties are proved as lemmas about those functions, over single steps and over whole sequences of
calls.

Screens written with React state are modelled the same way. Their setters replace whole values, so
each handler becomes a function from the old state to the new one.

Things outside the program are parameters:
- clocks (an integer millisecond clock; for scheduling, a weekday and the time of day);
- the power and keyguard managers, the platform, and sensor events;
- server responses and storage failures.

Outgoing calls are recorded in order: notification schedules and cancels, emitted events, displayed
notifications, and invoked callbacks.

## Model

| member | source | states |
|---|---|---|
| UsageStats.UsageStatsModule.GetUsageStats | android/app/src/main/java/com/ieum/UsageStatsModule.kt:21-42 | The report is "in use" exactly when the device is interactive and the keyguard is not locked. An in-use poll reports 0 and resets the off start to now. An off poll reports now minus the off start and keeps that start. Either way the last check becomes now. |
| UsageStats.UsageStatsModule.constructor | android/app/src/main/java/com/ieum/UsageStatsModule.kt:9-10 | Both fields start at the construction time. |
| UsageStats.LastCheckIsLastPoll | android/app/src/main/java/com/ieum/UsageStatsModule.kt:41 | After any non-empty run of polls, the last check time equals the clock reading of the last poll. |
| UsageStats.NonUsageTimeNeverNegative | android/app/src/main/java/com/ieum/UsageStatsModule.kt:9-34 | If the clock never runs backwards and starts no earlier than construction, no poll in the run reports a negative off time. |
| UsageStats.OffTimeGrowsAcrossOffPolls | android/app/src/main/java/com/ieum/UsageStatsModule.kt:33-39 | Across two consecutive off polls, the reported off time does not decrease. |
| UsageStats.OffTimeMeasuredFromLastUse | android/app/src/main/java/com/ieum/UsageStatsModule.kt:25-39 | An in-use poll at t reports (true, 0). An off poll right after it, at t', reports exactly t' - t. |
| UsageStats.OffTimeFromConstruction | android/app/src/main/java/com/ieum/UsageStatsModule.kt:9-34 | Until some poll has seen the device in use, every off time is measured from the construction time. |
| UsageStats.OrderedBeforeEachPoll | android/app/src/main/java/com/ieum/UsageStatsModule.kt:27-41 | With a non-decreasing clock, the off start never lies after the last check, and the last check is never after the next poll. |
| UsageStats.ReportAt | android/app/src/main/java/com/ieum/UsageStatsModule.kt:21-42 | The k-th report of a run is the poll of the k-th sample on the fields the earlier polls left. |
| UsageTracker.UsageTrackerModule.SetupUsageTracking | src/utils/usageTracker.js:8-20 | Setup when already set up changes nothing and starts no timer. Otherwise it sets the flag and starts one timer on Android only. Either way at most one timer runs afterwards. |
| UsageTracker.UsageTrackerModule.StopUsageTracking | src/utils/usageTracker.js:43-51 | Stop when not set up changes nothing. Otherwise it clears the flag and, on Android, stops the timer. |
| UsageTracker.UsageTrackerModule.StartScreenStateTracking | src/utils/usageTracker.js:22-41 | Starts exactly one more background timer and leaves the flag alone. |
| UsageTracker.UsageTrackerModule.constructor | src/utils/usageTracker.js:6 | The module loads with the flag cleared and no timer. |
| UsageTracker.SetupIsIdempotent | src/utils/usageTracker.js:9-13 | Setup twice equals setup once, and leaves tracking set up. |
| UsageTracker.StopIsIdempotent | src/utils/usageTracker.js:44-45 | Stop twice equals stop once, and leaves tracking stopped. |
| UsageTracker.SetupThenStopRestores | src/utils/usageTracker.js:8-51 | From the idle state, setup followed by stop returns to that same state. |
| UsageTracker.SetupAndStopKeepOneTimer | src/utils/usageTracker.js:13-49 | Setup and stop each preserve the rule that one timer runs on Android exactly while set up, and none runs elsewhere. |
| UsageTracker.AtMostOneTimer | src/utils/usageTracker.js:6-51 | After any sequence of setup and stop calls from load, at most one timer runs. On Android a timer runs if and only if tracking is set up. |
| UsageTracker.OnPollResult | src/utils/usageTracker.js:25-39 | Exactly a missing or non-object result takes the invalid-data branch, and exactly a rejection takes the error branch. These are the only two logged outcomes. A result with isUsing false takes the off branch, whose duration in seconds is nonUsageTime / 1000; it is computed and not logged. No tracker state is involved. |
| GyroSensor.GyroSensorManager.constructor | android/app/src/main/java/com/ieum/GyroSensorManager.kt:19-32 | The listener is registered if and only if a gyroscope exists, and both callbacks start unset. |
| GyroSensor.GyroSensorManager.OnSensorChanged | android/app/src/main/java/com/ieum/GyroSensorManager.kt:40-60 | Appends exactly the callbacks the event fires to the record of invoked callbacks, in order. |
| GyroSensor.GyroSensorManager.SetOnShockDetected | android/app/src/main/java/com/ieum/GyroSensorManager.kt:19 | Assigns or clears the shock callback. |
| GyroSensor.GyroSensorManager.SetOnFallDetected | android/app/src/main/java/com/ieum/GyroSensorManager.kt:22 | Assigns or clears the fall callback. |
| GyroSensor.GyroSensorManager.Unregister | android/app/src/main/java/com/ieum/GyroSensorManager.kt:35-37 | The listener is no longer registered. |
| GyroSensor.ShockInvokedOnceIff | android/app/src/main/java/com/ieum/GyroSensorManager.kt:50-69 | The shock callback runs exactly once if \|x\|, \|y\| or \|z\| is strictly above 0.1 and the callback is set. Otherwise it runs zero times. |
| GyroSensor.FallInvokedOnceIff | android/app/src/main/java/com/ieum/GyroSensorManager.kt:55-70 | The fall callback runs exactly once if \|y\| is strictly above 0.1 and the callback is set. Otherwise it runs zero times. |
| GyroSensor.ShockBeforeFall | android/app/src/main/java/com/ieum/GyroSensorManager.kt:50-58 | When both callbacks are set and a fall is detected, the shock callback runs and then the fall callback. |
| GyroSensor.AtThresholdNothingFires | android/app/src/main/java/com/ieum/GyroSensorManager.kt:50-55 | Every sample whose axes are all at or below the thresholds, including exactly at them, fires nothing, because the comparisons are strict. With the shock callback set, nothing fires only for such samples. |
| GyroSensor.NothingWithoutEventOrCallbacks | android/app/src/main/java/com/ieum/GyroSensorManager.kt:41-57 | A null event invokes nothing, and unset callbacks are skipped silently. |
| GyroSensor.FallImpliesShock | android/app/src/main/java/com/ieum/GyroSensorManager.kt:50-70 | The thresholds are equal, so every fall is also a shock. |
| MedicationTime.IndexOf | src/screens/MedicationTimeScreen.js:41 | indexOf gives -1 exactly for a missing day. Otherwise it gives the first position holding that day. |
| MedicationTime.DayOffset | src/screens/MedicationTimeScreen.js:46-50 | The offset is in 0..7 and lands on the alarm's weekday. It is 0 exactly when the day is today and the time is still ahead, and 7 exactly when the day is today and the time has passed. No earlier day is an occurrence. |
| MedicationTime.TriggerLandsOnWeekday | src/screens/MedicationTimeScreen.js:33-50 | A time that parses to h:m gives a weekly trigger at h:m, on the named weekday, within the coming seven days. It is today only when h:m is still ahead. |
| MedicationTime.UnparsableTimeGivesInvalidDate | src/screens/MedicationTimeScreen.js:33-44 | A time whose hour or minute is not a number gives an invalid date. |
| MedicationTime.OneNotificationPerRecognisedDay | src/screens/MedicationTimeScreen.js:34-64 | scheduleAlarm makes one weekly notification per day name in 일..토, in the order of the alarm's days. Each carries the message "<timing> 투약 시간입니다" and that day's trigger. |
| MedicationTime.UnknownDaysScheduleNothing | src/screens/MedicationTimeScreen.js:41-42 | Day names outside 일..토 schedule nothing. |
| MedicationTime.MedicationTimeScreen.ScheduleAlarm | src/screens/MedicationTimeScreen.js:32-65 | The loop appends exactly the calls listed by ScheduledCalls for the alarm's days. |
| MedicationTime.MedicationTimeScreen.ScheduleAll | src/screens/MedicationTimeScreen.js:105 | `forEach(scheduleAlarm)` appends the calls of every alarm, in list order. |
| MedicationTime.MedicationTimeScreen.AddAlarm | src/screens/MedicationTimeScreen.js:72-79 | Appends exactly one alarm at the end, with the fresh id replacing the given one, and leaves the earlier alarms as they were. It saves the new list unless the write fails, and schedules the alarm. |
| MedicationTime.MedicationTimeScreen.UpdateAlarm | src/screens/MedicationTimeScreen.js:81-89 | Keeps the length and order, replaces every alarm with that id and only those, and saves. Nothing is scheduled or cancelled. |
| MedicationTime.MedicationTimeScreen.RemoveAlarm | src/screens/MedicationTimeScreen.js:67-98 | Removes all alarms with that id and no others, saves, and records the cancel call for that id. That call matches none of the notifications the screen scheduled, since none has an id, so the removed alarm's weekly notifications stay scheduled. |
| MedicationTime.ScheduledCallsCarryNoId | src/screens/MedicationTimeScreen.js:52-61 | No notification scheduled for an alarm is given an id. |
| MedicationTime.CancelMatchesNothing | src/screens/MedicationTimeScreen.js:66-69 | After calls that give no notification an id, a cancel with any id matches none of the notifications scheduled before it. |
| MedicationTime.MedicationTimeScreen.SaveAlarmsToStorage | src/screens/MedicationTimeScreen.js:11-17 | Stores the list, or keeps the old value when the write fails (the failure is only logged). |
| MedicationTime.MedicationTimeScreen.LoadAlarms | src/screens/MedicationTimeScreen.js:19-107 | Shows what loading returns and schedules every loaded alarm. The stored list is not changed. |
| MedicationTime.MedicationTimeScreen.constructor | src/screens/MedicationTimeScreen.js:9 | The screen starts with an empty list and no calls made. |
| MedicationTime.Replaced | src/screens/MedicationTimeScreen.js:83-85 | The map keeps the length, and each position holds the updated alarm if its id matches, otherwise the old alarm. |
| MedicationTime.Removed | src/screens/MedicationTimeScreen.js:93 | An alarm is kept if and only if it was on the list and its id differs. |
| MedicationTime.RemovedKeepsOrder | src/screens/MedicationTimeScreen.js:93 | The filter distributes over concatenation, so the alarms kept stay in their relative order. |
| MedicationTime.LoadReturnsLastSaved | src/screens/MedicationTimeScreen.js:19-30 | A saved list loads back unchanged. Nothing stored, or a failed read, gives []. |
| MedicationTime.DaysLabelEveryDayIff | src/screens/MedicationTimeScreen.js:151 | For one-letter day names, the label is "매일" if and only if there are seven days. |
| DaySelection.Without | src/screens/AddMedicationTimeScreen.js:31 | The filter removes that day and keeps exactly the other entries. |
| DaySelection.WithoutKeepsOrder | src/screens/AddMedicationTimeScreen.js:31 | Removing a day keeps every other entry, in place order. |
| DaySelection.EveryDayClearsFullSelection | src/screens/AddMedicationTimeScreen.js:23-25 | "매일" with seven days selected clears the selection. |
| DaySelection.EveryDayFillsPartialSelection | src/screens/AddMedicationTimeScreen.js:26-27 | "매일" otherwise selects exactly 월,화,수,목,금,토,일 in that order. |
| DaySelection.ToggleRemovesSelected | src/screens/AddMedicationTimeScreen.js:30-31 | A selected day is removed, and the others keep their order. |
| DaySelection.ToggleAppendsUnselected | src/screens/AddMedicationTimeScreen.js:32-33 | An unselected day is appended at the end. |
| DaySelection.ToggleFlipsOneDay | src/screens/EditMedicationTimeScreen.js:36-42 | As a set, a regular day flips and every other day keeps its state. |
| DaySelection.ToggleTwiceRestores | src/screens/AddMedicationTimeScreen.js:22-36 | Toggling an unselected day twice restores the original selection. |
| DaySelection.ToggleKeepsSelectionClean | src/screens/EditMedicationTimeScreen.js:29-43 | Toggling never creates a duplicate and never inserts "매일" itself. |
| DaySelection.CheckedBoxes | src/screens/EditMedicationTimeScreen.js:98-101 | The "매일" box is checked if and only if seven days are selected. A regular day's box is checked if and only if that day is selected. |
| DaySelection.OptionsAreTwoDigitCounters | src/screens/AddMedicationTimeScreen.js:19-20 | Option i is the two characters of i's tens and units digits, and reads back as the number i. So the lists are "00".."23" and "00".."59". |
| DaySelection.OptionsAreDistinct | src/screens/EditMedicationTimeScreen.js:26-27 | No hour or minute option appears twice. |
| DaySelection.TwoDigitsSpelled | src/screens/AddMedicationTimeScreen.js:19 | For i < 100, `i.toString().padStart(2, '0')` is the tens digit then the units digit, and its value is i. |
| MedicationForm.AddInitialIsWellFormed | src/screens/AddMedicationTimeScreen.js:7-10 | The Add screen starts with "식후", all seven days and 12:00, and each of these is one of the offered options. |
| MedicationForm.ApplyKeepsWellFormed | src/screens/AddMedicationTimeScreen.js:22-100 | Every offered event keeps the form well formed: a valid timing, clean distinct days, and hour and minute from the option lists. |
| MedicationForm.RunKeepsWellFormed | src/screens/AddMedicationTimeScreen.js:7-36 | From the Add screen's initial state, any sequence of offered events leaves a well-formed form. |
| MedicationForm.SavedTimeParses | src/screens/AddMedicationTimeScreen.js:48 | The saved "hour:minute" of a well-formed form splits back into the picked hour and minute. |
| MedicationForm.SavedAlarmSchedulesPickedTime | src/screens/AddMedicationTimeScreen.js:44-50 | An alarm saved from a well-formed form schedules each weekday at the picked hour and minute, within the coming week. |
| MedicationForm.AlarmTimestampFields | src/screens/AddMedicationTimeScreen.js:39-49 | The stored timestamp is today at hour:minute with the seconds set to 0, and the milliseconds of now kept. |
| MedicationForm.TimestampIdRoundTrip | src/screens/AddMedicationTimeScreen.js:45 | The id `Date.now().toString()` reads back as the timestamp it came from. |
| MedicationForm.EditDefaultMatchesAdd | src/screens/EditMedicationTimeScreen.js:8-17 | Opened without an alarm, the Edit screen starts at "식후", all days, "12" and "00". |
| MedicationForm.EditShowsSavedForm | src/screens/EditMedicationTimeScreen.js:16-51 | With two-character parts, `substring(0,2)` and `substring(3,5)` of the saved `${hour}:${minute}` give the same hour and minute back. |
| MedicationForm.EditShowsAddedForm | src/screens/AddMedicationTimeScreen.js:44-50 | An alarm saved on the Add screen opens on the Edit screen with the same form. |
| MedicationForm.UntouchedEditKeepsAlarm | src/screens/EditMedicationTimeScreen.js:14-51 | Saving the Edit screen untouched gives back the original alarm, for any "hh:mm" time. |
| MedicationForm.EditKeepsIdentity | src/screens/EditMedicationTimeScreen.js:46-51 | An edit keeps the id and the stored timestamp, and overrides only timing, days and time. |
| MedicationForm.SavingDefaultUpdatesNothing | src/screens/EditMedicationTimeScreen.js:8-12 | The default alarm has no id, so saving it matches no alarm on a list whose alarms all have ids. |
| MedicationForm.OptionValue | src/screens/EditMedicationTimeScreen.js:26-27 | Every picker option is the padded text of a counter below the list length, and reads back as that counter. |
| NearbyFacilities.FetchGuard | src/screens/NearbyMedicalFacilitiesScreen.js:22-25 | A fetch while loading, or after the end, does nothing. Otherwise it only sets the loading flag. |
| NearbyFacilities.FinishFetchEffects | src/screens/NearbyMedicalFacilitiesScreen.js:27-58 | The callback loads min(10, 11 - loaded) entries. Only when that count is positive does it append the page's slice and advance the page. The data ends exactly when loaded + count ≥ 11 or it had already ended, and the loading flag is always cleared. |
| NearbyFacilities.StepKeepsInv | src/screens/NearbyMedicalFacilitiesScreen.js:13-58 | Each fetch and timer firing keeps four facts: the list is the first min((page-1)·10, 11) entries; more data remains exactly while fewer than 11 are loaded; loading only happens while more remains; and the page is between 1 and 3. |
| NearbyFacilities.RunKeepsInv | src/screens/NearbyMedicalFacilitiesScreen.js:13-58 | In any order of fetches and timer firings, the list is a prefix of the 11 entries, and at most 11 are ever loaded. |
| NearbyFacilities.TwoFetchesLoadEverything | src/screens/NearbyMedicalFacilitiesScreen.js:28-55 | The first fetch loads 10 entries and the second loads 1. After that hasMoreData is false and further fetches do nothing. |
| NearbyFacilities.DistanceLabelReadsBack | src/screens/NearbyMedicalFacilitiesScreen.js:66-68 | A distance below 1000 is labelled with its decimal digits and "m", and the digits read back as the distance. From 1000 on, the label is in kilometres, distance / 1000. |
| NearbyFacilities.StatusLabelIff | src/screens/NearbyMedicalFacilitiesScreen.js:85 | The status reads "영업중" if and only if the facility is operating. |
| NearbyFacilities.NearbyMedicalFacilitiesScreen.FetchData | src/screens/NearbyMedicalFacilitiesScreen.js:22-27 | A step of the guard. The timer starts if and only if the screen was neither loading nor finished. |
| NearbyFacilities.NearbyMedicalFacilitiesScreen.OnTimer | src/screens/NearbyMedicalFacilitiesScreen.js:27-58 | The fields change exactly as the callback's step function says. |
| NearbyFacilities.NearbyMedicalFacilitiesScreen.HandleLoadMore | src/screens/NearbyMedicalFacilitiesScreen.js:92-96 | The same guard as fetchData, so the effect is exactly one fetch step. |
| NearbyFacilities.NearbyMedicalFacilitiesScreen.constructor | src/screens/NearbyMedicalFacilitiesScreen.js:17-20 | Empty list, page 1, not loading, more data. |
| AlarmList.FetchGuard | src/screens/AlarmListScreen.js:24-32 | A fetch while loading, or after the end, sends nothing. Otherwise it sets loading and asks for page `page-1` of size 10. |
| AlarmList.CompleteEffects | src/screens/AlarmListScreen.js:34-45 | A non-empty page is appended in order and advances the page. An empty page ends the data and changes neither list nor page. A failure changes none of the three fields. Loading is cleared in every case. |
| AlarmList.RoundAfterEnd | src/screens/AlarmListScreen.js:24-26 | Once an empty page has come, any further fetch round leaves the screen unchanged, and the page summary still holds. |
| AlarmList.RoundAtEnd | src/screens/AlarmListScreen.js:38-40 | The first empty page ends the list and keeps the list and the page. |
| AlarmList.RoundBeforeEnd | src/screens/AlarmListScreen.js:34-45 | Before the end, a non-empty page is appended as one more delivered page, and a failed request adds none. |
| AlarmList.RoundsDeliverPages | src/screens/AlarmListScreen.js:18-46 | After any answered fetches, the list is the concatenation of the non-empty pages received before the first empty one, and the page counter is one more than their number. hasMoreData is false if and only if an empty page came, and nothing is loading. |
| AlarmList.NextRequestCountsPages | src/screens/AlarmListScreen.js:30-37 | Until the end, the next request asks for zero-based page n, where n is the number of pages received. |
| AlarmList.FirstEnd | src/screens/AlarmListScreen.js:38-40 | The index of the first empty response, or the number of responses if there is none. |
| AlarmList.AlarmListScreen.FetchData | src/screens/AlarmListScreen.js:23-32 | Returns the request fetchData sends (none when guarded), and sets loading exactly as the step says. |
| AlarmList.AlarmListScreen.OnResponse | src/screens/AlarmListScreen.js:34-45 | The fields change as the completion step says for that response. |
| AlarmList.AlarmListScreen.HandleLoadMore | src/screens/AlarmListScreen.js:60-64 | The same guard as fetchData, so the effect is exactly one fetch step. |
| AlarmList.AlarmListScreen.constructor | src/screens/AlarmListScreen.js:18-21 | Empty list, page 1, not loading, more data. |
| Notifications.NotificationCenter.IncrementNotificationCount | src/utils/fcmUtils.js:34-47 | Stores the count read plus one. A missing key and the empty text read as 0. The new count is emitted only in the foreground, and a failing read or write stops the rest. |
| Notifications.NotificationCenter.GetNotificationCount | src/utils/fcmUtils.js:108-117 | Returns the parsed stored count, 0 when the key is absent, and 0 when the read fails. |
| Notifications.NotificationCenter.ResetNotificationCount | src/utils/fcmUtils.js:119-127 | Stores "0" and emits 0, unless the write fails. |
| Notifications.NotificationCenter.DisplayNotification | src/utils/fcmUtils.js:50-64 | Shows the message's title and body, with defaults filled in. |
| Notifications.NotificationCenter.HandleForegroundMessage | src/utils/fcmUtils.js:66-71 | Displays, then increments with the event emitted. A failed display stops the increment. |
| Notifications.NotificationCenter.HandleBackgroundMessage | src/utils/fcmUtils.js:73-78 | Displays, then increments, and never emits. |
| Notifications.NotificationCenter.constructor | src/utils/fcmUtils.js:3-4 | Starts from the given storage, with no events and nothing displayed. |
| Notifications.DisplayDefaults | src/utils/fcmUtils.js:51-52 | A missing or empty title becomes "새 알림", and a missing or empty body becomes "새 메시지가 있습니다". Neither is ever empty. |
| Notifications.PermissionIff | src/utils/fcmUtils.js:7-11 | Permission counts as granted if and only if the status is AUTHORIZED or PROVISIONAL. |
| Notifications.MissingCountIsZero | src/utils/fcmUtils.js:36-111 | A missing key reads as the count 0. |
| Notifications.CountRoundTrip | src/utils/fcmUtils.js:37-112 | A count written with toString reads back with parseInt as the same number. |
| Notifications.IncrementAddsOne | src/utils/fcmUtils.js:36-38 | If the stored count reads as n, an increment makes it read as n + 1, stored as the text of n + 1. |
| Notifications.ResetThenIncrement | src/utils/fcmUtils.js:36-122 | After a reset the count reads 0, and the next increment makes it 1. |
| LogoutModal.LogoutIffTrimmedMatch | src/components/LogoutModal.js:7-13 | onLogout is called if and only if the trimmed input equals "로그아웃 하겠습니다". Otherwise the alert ("오류", "정확한 문구를 입력해주세요.") is shown. |
| LogoutModal.SurroundingWhiteSpaceIgnored | src/components/LogoutModal.js:8 | White space typed before or after the phrase is ignored. |
| LogoutModal.InternalSpacingRejected | src/components/LogoutModal.js:8-11 | A doubled inner space, or a missing one, is rejected with the alert. |
| LogoutModal.PressOutcomes | src/components/LogoutModal.js:5-36 | Each press has exactly one effect and leaves the typed text unchanged. Confirm gives either logout or the alert, logout exactly when the trimmed text matches. Cancel only calls onClose. |
| LogoutModal.TypedPhraseLogsOut | src/components/LogoutModal.js:5-41 | Typing the phrase, with any surrounding blanks, into a fresh dialog and confirming gives logout and nothing else. |
| JsText.IntToStringRoundTrip | src/utils/fcmUtils.js:37-112 | parseInt of n.toString() is n, for every integer n. |
| JsText.TrimIgnoresSurroundingWhiteSpace | src/components/LogoutModal.js:8 | `trim` gives the same result whatever white space surrounds the text. |
| JsText.SplitFirst | src/screens/MedicationTimeScreen.js:33 | The first field of `split(sep)` contains no separator. The text is that field, the separator, and the rest; or the text is the field alone when it has no separator. |
| JsText.SplitFirstOfJoined | src/screens/MedicationTimeScreen.js:33 | Joining a separator-free text, the separator and a rest, then splitting, gives the two parts back. |
| JsText.Slice | src/screens/NearbyMedicalFacilitiesScreen.js:47 | `slice` with indices inside the array is that subsequence, and never longer than the array. |
| JsText.Substring | src/screens/MedicationTimeScreen.js:154-155 | In-range indices give the text between them, in either order. Indices covering the whole text give the whole text, and the result is never longer than the text. |

## Left out

- The alarm auto-dismiss, the SMS or guardian escalation and the timed inactivity reports do not exist in these files.
  - GyroSensorService.kt only logs what it detects.
  - The usage tracker's poll computes the off duration and discards it; its log line is commented out (`UsageTracker.OnPollResult` returns the duration so that the branch can be stated).
  - SendMessageService.js is entirely commented out.
- GyroSensorService.kt, MainActivity.kt, AlarmActivity.kt, MainApplication.kt, AlarmPermissionModule.kt, AlarmPermissionPackage.kt, TokenModule.kt and the keychain wrapper are not part of this model. They are Android lifecycle, permission and credential plumbing, with no logic of their own.
- App.js, index.js, the login, loading and main screens and the help modal are display and navigation only. MainScreen's "99+" badge rule is a display detail.
- In alarmUtils.js, `requestNotificationPermission` returns nothing, so the channel block after it is never taken. That file is not modelled.
- Native platform services are parameters:
  - the power and keyguard managers, `System.currentTimeMillis`, `Platform.OS` and the sensor manager;
  - AsyncStorage is a key-value map (or the stored alarm list itself), and notifee/PushNotification/messaging are records of the calls made;
  - the server is a response value.
- JSON text is not modelled. The alarm list in storage is the list value itself, so `JSON.stringify`/`JSON.parse` is taken to round-trip it. A NaN `alarmTime`, which JSON would turn into `null`, is `None`.
- Real date arithmetic is not modelled:
  - `setDate` month rollover, daylight-saving shifts and `toLocaleString`;
  - a scheduled date is a day offset plus hour and minute.
  - `MedicationTime.MedicationTimeScreen.ScheduleAlarm`: one clock reading stands for the fresh `new Date()` that each day of the forEach takes. Hours or minutes outside 0-23 and 0-59 are not rolled over into other days.
- `MedicationForm.AlarmTimestamp`: `setHours`/`setMinutes` are taken to land on the same calendar day, so rollover and DST are not modelled. The day start is passed in.
- `NearbyFacilities.DistanceLabel`: the kilometre text is kept as the real distance / 1000 and `toFixed(1)` rounding is not modelled, because it depends on binary floating point.
- `GyroSensor.THRESHOLD`: the Kotlin `0.1f` float constants and float sensor values are treated as exact reals.
- `UsageStats.UsageStatsModule.GetUsageStats`: Kotlin `Long` overflow and the `toDouble` conversion of the reported time are not modelled. Integers are unbounded.
- `JsText.ParseInt`: the `0x` hexadecimal prefix and numbers too large for a double are not modelled. Only decimal text is read, as the app stores it.
- `JsText.IntToString`: for |n| of 1e21 or more, JavaScript prints exponent form, and integers beyond 2^53 lose precision. The model always prints every decimal digit, so the round trip is stated for unbounded integers.
- `UsageTracker.JsValue`: an object result that has no `isUsing` key, such as `{}`, is not represented. JavaScript would take the off branch with a NaN duration. The native module always resolves with both keys.
- `JsText.NumberOf`: `Number` is modelled for the empty string and plain digit runs. Any other text, such as signs, blanks, decimals or exponents, gives NaN.
- React's asynchronous updates and stale closures are not modelled. Each handler, fetch or timer callback is one atomic step, on the state as it was when the step started. Two consequences:
  - On focus, the alarm screen's async `loadAlarms` and a synchronous `addAlarm`/`updateAlarm` can interleave. The model runs them one after the other.
  - Timers and intervals (the 1000 ms background poll, the 1000 ms `setTimeout`) are events that the caller supplies.
- `Notifications.NotificationCenter.HandleForegroundMessage` and `HandleBackgroundMessage`: a display that rejects stops the handler before the increment. A failing increment affects only the storage and the events, and is not reported further.
