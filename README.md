# zzpal alarm core, modelled in Dafny

zzpal is an Android alarm clock. This project models the logic that sits
among its platform calls, and proves properties of that model:

- **Alarm record** (`AlarmEntity`). An `Alarm` is a class with public
  mutable fields. The model covers its content equality `sameas`, with
  Java's short-circuit `&&` and the NullPointerException on a null sound.
  It also covers the type label and the `enabled` setter.
- **Fire-time computation and the system alarm table** (`Scheduling`).
  Time is whole seconds and `now` is a parameter. The system's exact-alarm
  table is a `map<int, Registration>` keyed by the request code
  `(int) alarm.id`. `scheduleAlarm` and `cancelAlarm` are methods on it,
  and each is proved against a pure function (`ScheduleInto`, `CancelFrom`).
- **Bounded log buffer** (`Logging`). `AppLogger` appends
  `"[" + timestamp + "] " + message + "\n"` and trims the buffer to its
  last 100 lines. Lines are counted the way Java's `split("\n")` counts
  them, which is written out in full (`JavaSplit`): trailing empty pieces
  are dropped and the empty string splits into one piece. The model also
  covers rebuilding the text from the log file, and the static `instance`
  singleton.
- **Wake lock and ringing** (`Receiver`, `Service`).
  - The receiver's static wake lock is acquired on receipt. It is released
    and nulled only while it is held.
  - The service's `onStartCommand` releases that lock in a `finally`, on
    every path.
  - The player, the vibrator and the delayed stop are explicit state and
    events.
- **Main screen** (`Activity`). This covers:
  - the start-all and stop-all loops over the alarm list;
  - toggling and deleting;
  - the ringtone choice and the two "new alarm" dialogs;
  - the database dump written to the log;
  - the "clear logs" button.

`JavaRuntime` holds the Java semantics the code relies on:
- `null` as `Option`;
- exceptions as result values;
- the narrowing `(int)` cast of a `long`, as two's complement modulo 2^32;
- `String.valueOf` of an integer, as decimal digits with a parse-back
  round trip.

`Android` holds the intent extras the alarm carries.

Some behaviour of the code is easy to misread:
- `toggleAlarm` only sets the flag and persists the alarm. It neither
  registers nor cancels anything, so the alarm table is untouched
  (`Activity.MainActivity.ToggleAlarm`).
- `deleteAlarm` does not cancel a pending registration either
  (`Activity.MainActivity.DeleteAlarm`).
- `sameas` ignores `audioText` as well as `id`.

The wake lock's timeout argument `1 * 60` is taken by the platform as
60 milliseconds, not the minute its comment describes
(`Receiver.AcquireTimeoutUnderASecond`). This also decides what the static
field holds at the end. `releaseWakeLock` nulls the field only while the
lock is still held. When the 60 ms run out before the service's `finally`
releases the lock, the field keeps the dead lock
(`Service.DeliverAlarm`).

A second alarm that rings while the first one still plays replaces the
service's player without stopping it. The old player rings on, and the
delayed stop cannot reach it. The model records such players in a ghost
field, `orphaned` (`Service.AlarmService.StartAlarmSound`).

Both dialogs allow a ringing duration of 0 seconds. For an alarm that also
vibrates, the service asks the platform for a 0 ms one-shot vibration,
which the platform refuses with IllegalArgumentException, since the length
must be positive. `onStartCommand` then throws after the sound has started
and before the delayed stop is posted, so the program itself never stops
that sound (`Service.AlarmService.OnStartCommand`).

## Model

| member | source | states |
|---|---|---|
| JavaRuntime.ToInt | app/src/main/java/com/davidauz/zzpal/entity/AlarmScheduler.java:46-51 | `(int) id` is a Java int congruent to `id` modulo 2^32, and equals `id` when `id` already fits |
| JavaRuntime.ToIntUnique | app/src/main/java/com/davidauz/zzpal/entity/AlarmScheduler.java:48 | no other Java int is congruent to `id` modulo 2^32, so the cast is fully determined |
| JavaRuntime.NatDigitsRoundTrip | app/src/main/java/com/davidauz/zzpal/entity/Alarm.java:58 | reading back the decimal digits of a natural number gives the number |
| JavaRuntime.DecimalString | app/src/main/java/com/davidauz/zzpal/entity/Alarm.java:58 | `String.valueOf` of an int: at least one character, a leading minus exactly for negatives, digits otherwise |
| JavaRuntime.StringOf | app/src/main/java/com/davidauz/zzpal/service/AppLogger.java:80-82 | `String.valueOf` of a reference: the text itself, or "null"; no contract of its own |
| JavaRuntime.DecimalRoundTrip | app/src/main/java/com/davidauz/zzpal/entity/Alarm.java:58 | the decimal text of any integer, sign included, parses back to that integer |
| JavaRuntime.DecimalStringInjective | app/src/main/java/com/davidauz/zzpal/MainActivity.java:256 | distinct ids print as distinct decimal texts |
| AlarmEntity.Alarm.constructor | app/src/main/java/com/davidauz/zzpal/entity/Alarm.java:23-32 | copies the eight arguments verbatim; `id` keeps its default 0 |
| AlarmEntity.Alarm.SetEnabled | app/src/main/java/com/davidauz/zzpal/entity/Alarm.java:38-40 | sets `enabled`; its frame allows no other field to change |
| AlarmEntity.Alarm.SameAs | app/src/main/java/com/davidauz/zzpal/entity/Alarm.java:42-50 | throws NullPointerException exactly when hours, minutes, duration and vibrate match and this `audioUri` is null; returns true exactly when all of those, `audioUri` (non-null), `enabled` and `type` match |
| AlarmEntity.SameAsReflexive | app/src/main/java/com/davidauz/zzpal/entity/Alarm.java:42-50 | an alarm with a sound is the same as itself |
| AlarmEntity.SameAsSymmetric | app/src/main/java/com/davidauz/zzpal/entity/Alarm.java:42-50 | with both sounds non-null, `a.sameas(b) == b.sameas(a)` |
| AlarmEntity.SameAsIgnoresIdAndText | app/src/main/java/com/davidauz/zzpal/entity/Alarm.java:42-50 | alarms that differ only in `id` and `audioText` are the same |
| AlarmEntity.Alarm.TypeDescr | app/src/main/java/com/davidauz/zzpal/entity/Alarm.java:52-59 | the label is "Fixed", "Interval" or "Recurring", or ends with ": unknown" |
| AlarmEntity.TypeDescrCases | app/src/main/java/com/davidauz/zzpal/entity/Alarm.java:52-59 | 1, 2, 3 label as "Fixed", "Interval", "Recurring"; any other type labels as its decimal text, which parses back to the type, followed by ": unknown" |
| AlarmEntity.TypeDescrInjective | app/src/main/java/com/davidauz/zzpal/entity/Alarm.java:52-59 | equal labels mean equal types |
| Scheduling.TargetTime | app/src/main/java/com/davidauz/zzpal/entity/AlarmScheduler.java:60-73 | Fixed throws DateTimeException exactly for a time outside 0..23 h / 0..59 min, and otherwise lands in `[now, now + 24 h)` at that time of day; Elapsed and Recurring give now + hours and minutes; any other type gives `now` |
| Scheduling.MidnightShift | app/src/main/java/com/davidauz/zzpal/entity/AlarmScheduler.java:65-67 | the start of today is at most `now` and less than a day before it; a time of day added to it, or a day later, keeps that time of day |
| Scheduling.FixedTomorrowIffPast | app/src/main/java/com/davidauz/zzpal/entity/AlarmScheduler.java:64-68 | a Fixed alarm moves to tomorrow iff `now` is strictly after today's `hours:minutes:00`, and stays today otherwise |
| Scheduling.MidnightOfDay | app/src/main/java/com/davidauz/zzpal/entity/AlarmScheduler.java:65 | an instant within day `d` has that day's start as its midnight |
| Scheduling.TargetTimeExamples | app/src/main/java/com/davidauz/zzpal/entity/AlarmScheduler.java:63-73 | 23:59 set at 23:58 fires the same day; 08:00 set at 09:00 fires the next day; 0 h 30 min elapsed set at 12:00 fires at 12:30 |
| Scheduling.ElapsedSameAsRecurring | app/src/main/java/com/davidauz/zzpal/entity/AlarmScheduler.java:69-72 | Elapsed and Recurring alarms get the same target |
| Scheduling.PayloadOf | app/src/main/java/com/davidauz/zzpal/entity/AlarmScheduler.java:35-39 | the broadcast extras: id, duration, vibrate flag and sound; no contract of its own, `Service.PayloadRoundTrip` is its partner |
| Scheduling.KeyOf | app/src/main/java/com/davidauz/zzpal/entity/AlarmScheduler.java:46-51 | the request code is a Java int, equal to the id when the id fits in one |
| Scheduling.ScheduleInto | app/src/main/java/com/davidauz/zzpal/entity/AlarmScheduler.java:35-91 | on success the key `(int) id` holds the target, the payload and the id, and every other key is unchanged. On the DateTimeException, a registration already under the key keeps its trigger time but carries the new extras and the new id to show (both pending intents are updated with FLAG_UPDATE_CURRENT before the target is computed), and no key is added |
| Scheduling.CancelFrom | app/src/main/java/com/davidauz/zzpal/entity/AlarmScheduler.java:104-113 | removes the key `(int) id` if present and leaves every other registration as it was |
| Scheduling.ScheduleTwiceKeepsLater | app/src/main/java/com/davidauz/zzpal/entity/AlarmScheduler.java:41-91 | scheduling two alarms with one key leaves only the later registration |
| Scheduling.CancelUndoesSchedule | app/src/main/java/com/davidauz/zzpal/entity/AlarmScheduler.java:94-113 | cancelling right after scheduling leaves the table as cancelling alone would |
| Scheduling.CancelIdempotent | app/src/main/java/com/davidauz/zzpal/entity/AlarmScheduler.java:94-113 | a second cancel changes nothing |
| Scheduling.IdsShareKeyModulo | app/src/main/java/com/davidauz/zzpal/entity/AlarmScheduler.java:46-51 | ids that differ by a multiple of 2^32 share one registration key |
| Scheduling.AlarmScheduler.constructor | app/src/main/java/com/davidauz/zzpal/entity/AlarmScheduler.java:24-29 | keeps the alarm service the context provides, null when there is none |
| Scheduling.AlarmScheduler.ScheduleAlarm | app/src/main/java/com/davidauz/zzpal/entity/AlarmScheduler.java:28-92 | without an alarm service nothing changes and the call returns; otherwise the table and outcome are exactly `ScheduleInto` |
| Scheduling.AlarmScheduler.CancelAlarm | app/src/main/java/com/davidauz/zzpal/entity/AlarmScheduler.java:94-113 | without an alarm service the call throws NullPointerException; otherwise the table becomes `CancelFrom` of the old one |
| Logging.Pieces | app/src/main/java/com/davidauz/zzpal/service/AppLogger.java:108 | the raw pieces between newlines: at least one, none containing a newline |
| Logging.DropTrailingEmpty | app/src/main/java/com/davidauz/zzpal/service/AppLogger.java:108 | a prefix that does not end in an empty string, with only empty strings removed |
| Logging.JavaSplit | app/src/main/java/com/davidauz/zzpal/service/AppLogger.java:108 | the lines hold no newline; the result is `[""]`, empty, or ends in a nonempty line |
| Logging.PiecesAppend | app/src/main/java/com/davidauz/zzpal/service/AppLogger.java:108 | splitting a concatenation joins the last piece of the first part to the first piece of the second |
| Logging.PiecesOfJoin | app/src/main/java/com/davidauz/zzpal/service/AppLogger.java:110-114 | splitting newline-terminated lines gives the lines and one empty piece |
| Logging.JavaSplitOfJoin | app/src/main/java/com/davidauz/zzpal/service/AppLogger.java:108-114 | `split` of joined lines keeps interior empty lines and drops only the trailing ones |
| Logging.JavaSplitOfJoinRoundTrip | app/src/main/java/com/davidauz/zzpal/service/AppLogger.java:108-114 | `split` undoes the joining of lines whose last is nonempty |
| Logging.Entry | app/src/main/java/com/davidauz/zzpal/service/AppLogger.java:55-58 | an entry starts with "[" and ends with a newline |
| Logging.Trimmed | app/src/main/java/com/davidauz/zzpal/service/AppLogger.java:107-116 | the buffer after `limitBufferSize`; no contract of its own, `Logging.TrimmedKeepsLastLines` is its partner |
| Logging.FileText | app/src/main/java/com/davidauz/zzpal/service/AppLogger.java:159-178 | the text `readLogs` rebuilds; no contract of its own, `Logging.FileTextSplits` is its partner |
| Logging.TrimmedKeepsLastLines | app/src/main/java/com/davidauz/zzpal/service/AppLogger.java:107-116 | a buffer of at most 100 lines is unchanged; otherwise it becomes the last 100 lines in order, each followed by "\n"; the result has at most 100 lines |
| Logging.LineCountOfEmpty | app/src/main/java/com/davidauz/zzpal/service/AppLogger.java:108 | an empty buffer counts as one line |
| Logging.LineCountOfNewlines | app/src/main/java/com/davidauz/zzpal/service/AppLogger.java:108 | a buffer of one or more newlines and nothing else counts as no line |
| Logging.LineCountKeepsInnerEmpty | app/src/main/java/com/davidauz/zzpal/service/AppLogger.java:108 | lines that end in a nonempty one, followed by any number of empty lines, count as exactly those lines: interior empty lines count, trailing ones do not |
| Logging.EntryLineNoNewline | app/src/main/java/com/davidauz/zzpal/service/AppLogger.java:56 | an entry built from a newline-free timestamp and message is one line |
| Logging.SplitEndsWithLine | app/src/main/java/com/davidauz/zzpal/service/AppLogger.java:54-59 | appending a line to text that is empty or ends a line makes it the last line `split` finds |
| Logging.LogEndsWithEntry | app/src/main/java/com/davidauz/zzpal/service/AppLogger.java:54-59 | after `log`, trimmed or not, the last line of the buffer is the new entry |
| Logging.FileTextSplits | app/src/main/java/com/davidauz/zzpal/service/AppLogger.java:166-170 | the text rebuilt from a readable file splits back into the file's lines |
| Logging.AppendLines | app/src/main/java/com/davidauz/zzpal/service/AppLogger.java:111-113 | the loop appending each line and a newline builds exactly `JoinLines` of the lines |
| Logging.AppLogger.constructor | app/src/main/java/com/davidauz/zzpal/service/AppLogger.java:26-29 | an empty buffer, within the line bound |
| Logging.AppLogger.Log | app/src/main/java/com/davidauz/zzpal/service/AppLogger.java:54-59 | the buffer becomes the trimmed old buffer plus the entry, and stays within 100 lines |
| Logging.AppLogger.LogException | app/src/main/java/com/davidauz/zzpal/service/AppLogger.java:80-82 | logs the message (or "null") and the stack trace as one entry |
| Logging.AppLogger.ClearLogTextView | app/src/main/java/com/davidauz/zzpal/service/AppLogger.java:85-121 | the buffer is emptied whatever the flag; deleting the file without a context throws NullPointerException |
| Logging.AppLogger.LimitBufferSize | app/src/main/java/com/davidauz/zzpal/service/AppLogger.java:107-116 | the buffer becomes `Trimmed` of the old one, and so holds at most 100 lines |
| Logging.AppLogger.ReadLogs | app/src/main/java/com/davidauz/zzpal/service/AppLogger.java:159-178 | without a context or a file the text is empty; otherwise each line read and "\n", then the error message after an IOException |
| Logging.LoggerRegistry.constructor | app/src/main/java/com/davidauz/zzpal/service/AppLogger.java:20 | the static `instance` field starts null |
| Logging.LoggerRegistry.GetInstance | app/src/main/java/com/davidauz/zzpal/service/AppLogger.java:38-42 | returns the existing logger, and creates a context-less empty one only when there is none |
| Logging.LoggerRegistry.Init | app/src/main/java/com/davidauz/zzpal/service/AppLogger.java:32-36 | always installs a new logger with a context, whose buffer is the file's text plus the init entry, trimmed |
| Receiver.ReleaseStep | app/src/main/java/com/davidauz/zzpal/views/AlarmReceiver.java:46-51 | a held lock is released and the field nulled; anything else is left as it was |
| Receiver.TimeoutStep | app/src/main/java/com/davidauz/zzpal/views/AlarmReceiver.java:38 | when the timeout elapses, the lock stops being held and the field keeps it |
| Receiver.ReleaseIdempotent | app/src/main/java/com/davidauz/zzpal/views/AlarmReceiver.java:47-50 | a second release is a no-op |
| Receiver.ReleaseAfterTimeoutKeepsField | app/src/main/java/com/davidauz/zzpal/views/AlarmReceiver.java:38-51 | a lock that timed out is not held, so a later release leaves it in the field |
| Receiver.AcquireTimeoutUnderASecond | app/src/main/java/com/davidauz/zzpal/views/AlarmReceiver.java:38 | the acquire timeout is the constant 60, under one second in milliseconds |
| Receiver.AlarmReceiver.constructor | app/src/main/java/com/davidauz/zzpal/views/AlarmReceiver.java:13 | the static `wakeLock` field starts null |
| Receiver.AlarmReceiver.AcquireWakeLock | app/src/main/java/com/davidauz/zzpal/views/AlarmReceiver.java:35-38 | a fresh held lock overwrites the field |
| Receiver.AlarmReceiver.ReleaseWakeLock | app/src/main/java/com/davidauz/zzpal/views/AlarmReceiver.java:46-51 | the field becomes `ReleaseStep` of the old one |
| Receiver.AlarmReceiver.WakeLockTimesOut | app/src/main/java/com/davidauz/zzpal/views/AlarmReceiver.java:38 | the field becomes `TimeoutStep` of the old one |
| Receiver.AlarmReceiver.OnReceive | app/src/main/java/com/davidauz/zzpal/views/AlarmReceiver.java:17-33 | all extras are forwarded unchanged exactly when starting the service completes. The lock stays held unless its timeout ran out first. If starting throws, the lock is released, which nulls the field only when the lock is still held, and nothing propagates |
| Service.SoundSetup | app/src/main/java/com/davidauz/zzpal/service/AlarmService.java:110-127 | completes normally exactly for a non-null sound that is not refused; an IOException leaves no player; a null sound throws NullPointerException |
| Service.ReadStartRequest | app/src/main/java/com/davidauz/zzpal/service/AlarmService.java:62-70 | the extras with their defaults; no contract of its own, `Service.PayloadRoundTrip` and `Service.NoExtrasMeansNoAlarm` are its partners |
| Service.Orphaned | app/src/main/java/com/davidauz/zzpal/service/AlarmService.java:110-111 | overwriting the player field leaves the old player ringing exactly when it was playing |
| Service.OneShot | app/src/main/java/com/davidauz/zzpal/service/AlarmService.java:132-133 | the one-shot effect is accepted exactly for a positive length, and otherwise throws IllegalArgumentException |
| Service.PayloadRoundTrip | app/src/main/java/com/davidauz/zzpal/service/AlarmService.java:62-70 | the service reads back the id, duration, vibrate flag and sound that scheduling put in the extras |
| Service.NoExtrasMeansNoAlarm | app/src/main/java/com/davidauz/zzpal/service/AlarmService.java:62-69 | with no extras: id -1, duration 60, no vibration, no sound |
| Service.AlarmService.constructor | app/src/main/java/com/davidauz/zzpal/service/AlarmService.java:54-56 | the player and the vibrator fields start null; no vibration runs, the service is not in the foreground, no stop is posted or requested, and nothing is orphaned |
| Service.AlarmService.OnCreate | app/src/main/java/com/davidauz/zzpal/service/AlarmService.java:89-94 | looks up the system vibrator |
| Service.AlarmService.StartAlarmSound | app/src/main/java/com/davidauz/zzpal/service/AlarmService.java:110-127 | the player and outcome are `SoundSetup`; a player still playing in the field is orphaned, not stopped |
| Service.AlarmService.StartVibration | app/src/main/java/com/davidauz/zzpal/service/AlarmService.java:129-139 | with a vibrator that has the hardware, a positive duration vibrates for duration·1000 ms and any other throws IllegalArgumentException without vibrating; without one, nothing happens |
| Service.AlarmService.StopAlarm | app/src/main/java/com/davidauz/zzpal/service/AlarmService.java:141-157 | the field's player is null afterwards, even a broken one, and no vibration runs; orphaned players are out of reach |
| Service.AlarmService.OnStartCommand | app/src/main/java/com/davidauz/zzpal/service/AlarmService.java:60-86 | `releaseWakeLock` runs on every path. A null intent throws. Id -1 changes nothing and returns START_STICKY. Otherwise the service goes to the foreground and sets up the sound. A failed sound setup, or a vibration the platform refuses, propagates its exception and posts no stop, leaving the sound as it is. Otherwise it vibrates when asked, posts a stop after duration·1000 ms and returns START_STICKY. A player still playing from an earlier alarm is orphaned |
| Service.AlarmService.RunStopCallback | app/src/main/java/com/davidauz/zzpal/service/AlarmService.java:76-80 | a posted stop runs `stopAlarm` and `stopSelf` and is consumed; orphaned players keep ringing |
| Service.AlarmService.PlayerFails | app/src/main/java/com/davidauz/zzpal/service/AlarmService.java:141-150 | a player in the error state stops playing |
| Service.AlarmService.OnDestroy | app/src/main/java/com/davidauz/zzpal/service/AlarmService.java:187-195 | the service's own wake-lock field is never set, so only `stopAlarm` acts |
| Service.DeliverAlarm | app/src/main/java/com/davidauz/zzpal/views/AlarmReceiver.java:17-33 | after the receiver and then the service have run, the lock is never held. The field is null unless the 60 ms timeout ran out before the lock was released, in which case the dead lock stays in it. For an alarm id, the service returns START_STICKY exactly when the sound starts and no vibration of zero seconds or less is refused, and only then is the stop posted |
| Activity.EnabledKeysSnoc | app/src/main/java/com/davidauz/zzpal/MainActivity.java:337-339 | each further enabled alarm adds exactly its own key |
| Activity.StartAll | app/src/main/java/com/davidauz/zzpal/MainActivity.java:331-342 | the start-all loop as a function; no contract of its own, the `StartAll…` lemmas below are its partners |
| Activity.StartAllSnoc | app/src/main/java/com/davidauz/zzpal/MainActivity.java:336-340 | one loop step schedules the next alarm only when it is enabled and nothing has thrown |
| Activity.StartAllStopsAtThrow | app/src/main/java/com/davidauz/zzpal/MainActivity.java:336-340 | an exception ends the loop; the rest of the list has no effect |
| Activity.StartAllOutcome | app/src/main/java/com/davidauz/zzpal/MainActivity.java:331-342 | start-all completes iff every enabled alarm can be scheduled |
| Activity.StartAllKeys | app/src/main/java/com/davidauz/zzpal/MainActivity.java:331-342 | start-all adds exactly the keys of the enabled alarms, and no key for a disabled one |
| Activity.StartAllKeepsOthers | app/src/main/java/com/davidauz/zzpal/MainActivity.java:331-342 | registrations under keys of no enabled alarm are untouched |
| Activity.StartAllLastWins | app/src/main/java/com/davidauz/zzpal/MainActivity.java:331-342 | each key holds the registration of the last enabled alarm with that key |
| Activity.StartAllIgnoresDisabled | app/src/main/java/com/davidauz/zzpal/MainActivity.java:337 | adding disabled alarms to the list changes nothing |
| Activity.MainActivity.constructor | app/src/main/java/com/davidauz/zzpal/MainActivity.java:87-88 | the selected sound starts as the default alarm URI and its title as null (printed "null" in the dump); no list has been delivered and no requests have been made |
| Activity.MainActivity.StartAllActiveAlarms | app/src/main/java/com/davidauz/zzpal/MainActivity.java:331-342 | a null list changes nothing; otherwise the table and outcome are those of `StartAll` over the list |
| Activity.MainActivity.StopAllActiveAlarms | app/src/main/java/com/davidauz/zzpal/MainActivity.java:345-356 | a null list changes nothing; otherwise the keys of the enabled alarms are removed and every other registration stays; without an alarm service the first enabled alarm throws |
| Activity.MainActivity.ToggleAlarm | app/src/main/java/com/davidauz/zzpal/MainActivity.java:492-495 | sets the flag and persists the alarm; the alarm table is unchanged |
| Activity.MainActivity.DeleteAlarm | app/src/main/java/com/davidauz/zzpal/MainActivity.java:497-499 | asks for the deletion by id; the alarm table is unchanged |
| Activity.MainActivity.ClearLogs | app/src/main/java/com/davidauz/zzpal/MainActivity.java:293-295 | the log buffer is emptied; a logger without a context throws |
| Activity.MainActivity.RingtonePicked | app/src/main/java/com/davidauz/zzpal/MainActivity.java:165-179 | a picked sound and its title are selected; none selects the default sound labelled "Silent" |
| Activity.MainActivity.OpenNewAlarmDialog | app/src/main/java/com/davidauz/zzpal/MainActivity.java:375-435 | either dialog selects the default alarm sound again |
| Activity.MainActivity.SubmitFixedAlarm | app/src/main/java/com/davidauz/zzpal/MainActivity.java:390-398 | a new disabled Fixed alarm with the picked time, duration, flag and selected sound is added, and it can always be scheduled |
| Activity.MainActivity.SubmitElapsedAlarm | app/src/main/java/com/davidauz/zzpal/MainActivity.java:450-457 | a new disabled Elapsed alarm with the picked hours, minutes, duration, flag and sound is added |
| Activity.ElapsedDialogAlarmWithinElevenHours | app/src/main/java/com/davidauz/zzpal/MainActivity.java:413-422 | with the dialog's bounds (0..10 h, 0..60 min) an elapsed alarm fires within eleven hours |
| Activity.DialogAlarmsCompareSafely | app/src/main/java/com/davidauz/zzpal/MainActivity.java:390-398 | dialog alarms always carry a sound, so `sameas` on them never throws |
| Activity.ConcatAppend | app/src/main/java/com/davidauz/zzpal/MainActivity.java:255-261 | appending to the builder in two runs gives the concatenation of both |
| Activity.ConcatFrame | app/src/main/java/com/davidauz/zzpal/MainActivity.java:255-261 | the builder's text starts with the first appends and ends with the last |
| Activity.DumpEntry | app/src/main/java/com/davidauz/zzpal/MainActivity.java:256-261 | one dump entry; no contract of its own, `Activity.DumpEntryShape` is its partner |
| Activity.DumpEntryShape | app/src/main/java/com/davidauz/zzpal/MainActivity.java:256-261 | each dump entry starts with "#id : type=" and ends with "\tEnbled: ON" or "\tEnbled: OFF" |
| Activity.DumpEntries | app/src/main/java/com/davidauz/zzpal/MainActivity.java:255-264 | one entry per alarm, the i-th describing the i-th |
| Activity.MainActivity.DumpDb | app/src/main/java/com/davidauz/zzpal/MainActivity.java:251-266 | logs the start line, one entry per alarm, then the end line; a null list throws NullPointerException right after the start line |

## Left out

- Clocks and time zones: the code reads `LocalDateTime.now()` twice and converts to epoch milliseconds in the system zone. The model uses one `now` in local seconds, with no zone or DST.
- The SDK-version branches (`setAlarmClock`, `setExactAndAllowWhileIdle`, `set`, immutable-flag choice): all are modelled as one registration in the table.
- The status-bar intent is kept only as the id it carries (`showAlarmId`).
- `cancelAlarm` also refreshes the extras of an existing pending intent through FLAG_UPDATE_CURRENT before throwing when there is no alarm service. That extras update is not modelled.
- Every `AppLogger.getInstance().log(...)` call made by the scheduler, receiver, service and activity: logging is modelled on its own, not threaded through the other components. The exception is the dump, whose messages are returned.
- AppLogger file I/O (`writeToFileSync`, `getLogFile`, file deletion), the TextView and its scrolling, and timestamp formatting. The log file's contents are an input (`LogFile`), and the timestamp is a parameter.
- Java's `split` is modelled for the single-character pattern "\n" only.
- Notification channel and notification building, `startForeground` details, and `onBind`: the model keeps only the `foreground` flag.
- Handler timing: posted stops are a list of delays, and running one is an explicit event. Real concurrency is not modelled.
- MediaPlayer is reduced to playing/broken flags; how a sound source turns out is an input (`SoundSource`).
- Service.OneShot follows the platform's documented rule for `VibrationEffect.createOneShot`, that the length must be positive. Other failures of `Vibrator.vibrate` are not modelled.
- What the platform does with an exception that escapes `onStartCommand` (it ends the app's process, and the player with it) is not modelled; the model stops at the `Throws` result.
- An orphaned player is never taken out of `orphaned`: the end of its track, its finalisation and the death of the process are not modelled.
- Persistence (DAO, repository, database, view models) and the LiveData list: the list is a field, and add/update/delete requests are recorded in sequences.
- The alarm list adapter, permissions, battery and doze checks, lifecycle logging, the `btnFixes` asset read, and the log-view layouts.
- The service's own `wakeLock` field is never assigned in the source. Its release in `onDestroy` can therefore never run, and is not modelled.
- `startPersistentService`: a platform call with no state of its own.
- The ringtone picker is modelled only for its RESULT_OK result with data. A cancelled picker changes nothing.
- Activity.MainActivity.SubmitFixedAlarm, Activity.MainActivity.SubmitElapsedAlarm: the pickers' value ranges are preconditions rather than checked inputs, as the widgets guarantee them.
- The older `com.davidauz.zzzpal2` package and the Gradle build files are not part of this model.
