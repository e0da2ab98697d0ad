/** The main screen's alarm logic: starting and stopping every enabled
    alarm, toggling one, the two "new alarm" dialogs, and the database
    dump written to the log. */
module Activity {
  import opened JavaRuntime
  import opened AlarmEntity
  import opened Scheduling
  import Logging

  /** `Settings.System.DEFAULT_ALARM_ALERT_URI` as a string. */
  const DEFAULT_ALARM_ALERT_URI: string := "content://settings/system/alarm_alert"
  const DUMP_START: string := "Starting DB dump"
  const DUMP_END: string := "DB dump ended"

  /** The keys of the enabled alarms of the list. */
  function EnabledKeys(alarms: seq<Alarm>): set<int>
    reads alarms
  {
    set i | 0 <= i < |alarms| && alarms[i].enabled :: KeyOf(alarms[i].id)
  }

  lemma EnabledKeysSnoc(alarms: seq<Alarm>)
    requires |alarms| > 0
    ensures var init, a := alarms[..|alarms| - 1], Logging.Last(alarms);
      EnabledKeys(alarms) == EnabledKeys(init) + (if a.enabled then {KeyOf(a.id)} else {})
  {
    var init, a := alarms[..|alarms| - 1], Logging.Last(alarms);
    forall k | k in EnabledKeys(alarms)
      ensures k in EnabledKeys(init) + (if a.enabled then {KeyOf(a.id)} else {})
    {
      var i :| 0 <= i < |alarms| && alarms[i].enabled && KeyOf(alarms[i].id) == k;
      if i < |alarms| - 1 {
        assert init[i] == alarms[i];
      }
    }
    forall k | k in EnabledKeys(init)
      ensures k in EnabledKeys(alarms)
    {
      var i :| 0 <= i < |init| && init[i].enabled && KeyOf(init[i].id) == k;
      assert alarms[i] == init[i];
    }
  }

  /** Whether scheduling the alarm completes: only a fixed alarm with an
      impossible time of day throws. */
  predicate Schedulable(a: Alarm)
    reads a
  {
    !(a.alarmType == TYPE_FIXED && !IsTimeOfDay(a.hours, a.minutes))
  }

  /** The registration scheduling `a` at `now` puts in the table. */
  function RegistrationOf(a: Alarm, now: int): Registration
    reads a
    requires Schedulable(a)
  {
    Registration(TargetTime(a.alarmType, a.hours, a.minutes, now).value, PayloadOf(a), a.id)
  }

  /** The loop of `startAllActiveAlarms` over a list: each enabled alarm
      in turn is scheduled, and the first exception ends the loop. */
  function StartAll(pending: map<int, Registration>, alarms: seq<Alarm>, now: int): Step
    reads alarms
    decreases |alarms|
  {
    if alarms == [] then Step(pending, Normal)
    else
      var prev := StartAll(pending, alarms[..|alarms| - 1], now);
      var a := Logging.Last(alarms);
      if prev.outcome.Threw? || !a.enabled then prev else ScheduleInto(prev.pending, a, now)
  }

  /** One step of the loop: the alarm at `i` is scheduled when it is
      enabled and nothing has thrown yet. */
  lemma StartAllSnoc(pending: map<int, Registration>, alarms: seq<Alarm>, i: int, now: int)
    requires 0 <= i < |alarms|
    ensures var prev := StartAll(pending, alarms[..i], now);
      StartAll(pending, alarms[..i + 1], now) ==
        if prev.outcome.Threw? || !alarms[i].enabled then prev
        else ScheduleInto(prev.pending, alarms[i], now)
  {
    assert alarms[..i + 1][..i] == alarms[..i];
  }

  /** Once an exception has ended the loop, the rest of the list is not
      looked at. */
  lemma {:induction false} StartAllStopsAtThrow(pending: map<int, Registration>, alarms: seq<Alarm>, i: nat, now: int)
    requires i <= |alarms| && StartAll(pending, alarms[..i], now).outcome.Threw?
    ensures StartAll(pending, alarms, now) == StartAll(pending, alarms[..i], now)
    decreases |alarms| - i
  {
    if i < |alarms| {
      var init := alarms[..|alarms| - 1];
      assert init[..i] == alarms[..i];
      StartAllStopsAtThrow(pending, init, i, now);
    } else {
      assert alarms[..i] == alarms;
    }
  }

  /** The bulk start completes exactly when every enabled alarm of the
      list can be scheduled. */
  lemma {:induction false} StartAllOutcome(pending: map<int, Registration>, alarms: seq<Alarm>, now: int)
    ensures StartAll(pending, alarms, now).outcome.Normal? <==>
      forall i :: 0 <= i < |alarms| && alarms[i].enabled ==> Schedulable(alarms[i])
    decreases |alarms|
  {
    if alarms != [] {
      var init := alarms[..|alarms| - 1];
      StartAllOutcome(pending, init, now);
      assert forall i :: 0 <= i < |init| ==> init[i] == alarms[i];
    }
  }

  /** The alarm at `i` is enabled and no enabled alarm after it shares its
      key: its registration is the one that stays. */
  predicate LastEnabledWithKey(alarms: seq<Alarm>, i: int)
    reads alarms
    requires 0 <= i < |alarms|
  {
    alarms[i].enabled &&
    forall j :: i < j < |alarms| && alarms[j].enabled ==> KeyOf(alarms[j].id) != KeyOf(alarms[i].id)
  }

  /** When every enabled alarm can be scheduled, the bulk start registers
      a key for each enabled alarm and adds no other. */
  lemma {:induction false} StartAllKeys(pending: map<int, Registration>, alarms: seq<Alarm>, now: int)
    requires forall i :: 0 <= i < |alarms| && alarms[i].enabled ==> Schedulable(alarms[i])
    ensures StartAll(pending, alarms, now).outcome == Normal
    ensures StartAll(pending, alarms, now).pending.Keys == pending.Keys + EnabledKeys(alarms)
    decreases |alarms|
  {
    StartAllOutcome(pending, alarms, now);
    if alarms != [] {
      var init := alarms[..|alarms| - 1];
      assert forall i :: 0 <= i < |init| ==> init[i] == alarms[i];
      StartAllKeys(pending, init, now);
      EnabledKeysSnoc(alarms);
    }
  }

  /** The bulk start leaves the registration of every key that no enabled
      alarm of the list has as it was. */
  lemma {:induction false} StartAllKeepsOthers(pending: map<int, Registration>, alarms: seq<Alarm>, now: int, k: int)
    requires k in pending && k !in EnabledKeys(alarms)
    ensures var r := StartAll(pending, alarms, now).pending;
      k in r && r[k] == pending[k]
    decreases |alarms|
  {
    if alarms != [] {
      var init := alarms[..|alarms| - 1];
      EnabledKeysSnoc(alarms);
      StartAllKeepsOthers(pending, init, now, k);
    }
  }

  /** When every enabled alarm can be scheduled, the key of an enabled
      alarm that no later enabled alarm shares holds that alarm's
      registration: the last scheduling of a key wins. */
  lemma {:induction false} StartAllLastWins(pending: map<int, Registration>, alarms: seq<Alarm>, now: int, i: int)
    requires forall j :: 0 <= j < |alarms| && alarms[j].enabled ==> Schedulable(alarms[j])
    requires 0 <= i < |alarms| && LastEnabledWithKey(alarms, i)
    ensures var r := StartAll(pending, alarms, now);
      KeyOf(alarms[i].id) in r.pending && r.pending[KeyOf(alarms[i].id)] == RegistrationOf(alarms[i], now)
    decreases |alarms|
  {
    var init, a := alarms[..|alarms| - 1], Logging.Last(alarms);
    StartAllOutcome(pending, init, now);
    assert forall j :: 0 <= j < |init| ==> init[j] == alarms[j];
    if i < |init| {
      assert LastEnabledWithKey(init, i);
      StartAllLastWins(pending, init, now, i);
      if a.enabled {
        assert KeyOf(a.id) != KeyOf(alarms[i].id);
      }
    }
  }

  /** A disabled alarm is never scheduled: a list that only adds disabled
      alarms to another schedules the same. */
  lemma {:induction false} StartAllIgnoresDisabled(pending: map<int, Registration>, alarms: seq<Alarm>, disabled: seq<Alarm>, now: int)
    requires forall i :: 0 <= i < |disabled| ==> !disabled[i].enabled
    ensures StartAll(pending, alarms + disabled, now) == StartAll(pending, alarms, now)
    decreases |disabled|
  {
    if disabled == [] {
      assert alarms + disabled == alarms;
    } else {
      var init := disabled[..|disabled| - 1];
      var all := alarms + disabled;
      assert all[..|all| - 1] == alarms + init;
      StartAllIgnoresDisabled(pending, alarms, init, now);
    }
  }

  /** The concatenation of the parts, in order. */
  function Concat(parts: seq<string>): string
  {
    if parts == [] then "" else parts[0] + Concat(parts[1..])
  }

  lemma {:induction false} ConcatAppend(a: seq<string>, b: seq<string>)
    ensures Concat(a + b) == Concat(a) + Concat(b)
  {
    if a == [] {
      assert a + b == b;
    } else {
      assert (a + b)[1..] == a[1..] + b;
      ConcatAppend(a[1..], b);
    }
  }

  lemma ConcatOfPair(x: string, y: string)
    ensures Concat([x, y]) == x + y
  {
    assert [x, y][1..] == [y];
    assert [y][1..] == [];
    assert Concat([y]) == y + Concat([]);
    assert y + "" == y;
  }

  /** The text of the first parts starts the text of all of them, and the
      text of the last parts ends it. */
  lemma ConcatFrame(h: seq<string>, d: seq<string>, t: seq<string>)
    ensures var e := Concat(h + d + t);
      |e| >= |Concat(h)| + |Concat(t)| &&
      e[..|Concat(h)|] == Concat(h) && e[|e| - |Concat(t)|..] == Concat(t)
  {
    assert h + d + t == h + (d + t);
    ConcatAppend(h, d + t);
    ConcatAppend(d, t);
  }

  lemma ConcatOfTriple(x: string, y: string, z: string)
    ensures Concat([x, y, z]) == x + y + z
  {
    assert [x, y, z][1..] == [y, z];
    ConcatOfPair(y, z);
  }

  /** The id and the start of the type field. */
  function DumpHead(a: Alarm): seq<string>
    reads a
  {
    ["#", DecimalString(a.id), " : type="]
  }

  /** The type and the four tab-indented detail lines. */
  function DumpDetails(a: Alarm): seq<string>
    reads a
  {
    [a.TypeDescr(), "\n",
     "\tTime: ", DecimalString(a.hours), "h:", DecimalString(a.minutes), "m", "\n",
     "\tDuration: ", DecimalString(a.durationSeconds), "s", "\n",
     "\tVibration:", if a.vibrate then "yes" else "no", "\n",
     "\tSound: ", StringOf(a.audioText), "\n"]
  }

  /** The state; the misspelling "Enbled" is the app's own. */
  function DumpTail(a: Alarm): seq<string>
    reads a
  {
    ["\tEnbled: ", if a.enabled then "ON" else "OFF"]
  }

  /** One entry of the database dump, as built in the `StringBuilder`. */
  function DumpEntry(a: Alarm): string
    reads a
  {
    Concat(DumpHead(a) + DumpDetails(a) + DumpTail(a))
  }

  /** Each entry starts with the alarm's id and ends with its state,
      spelled "Enbled: ON" or "Enbled: OFF". */
  lemma DumpEntryShape(a: Alarm)
    ensures var e := DumpEntry(a);
      var head := "#" + DecimalString(a.id) + " : type=";
      var tail := if a.enabled then "\tEnbled: ON" else "\tEnbled: OFF";
      |e| >= |head| + |tail| && e[..|head|] == head && e[|e| - |tail|..] == tail
  {
    var h, t := DumpHead(a), DumpTail(a);
    ConcatFrame(h, DumpDetails(a), t);
    ConcatOfTriple(h[0], h[1], h[2]);
    ConcatOfPair(t[0], t[1]);
  }

  /** The activity: the list the view model last delivered (null before
      the first delivery), the scheduler, the sound chosen for the next
      new alarm, and the requests handed to the view model. */
  class MainActivity {
    var alarms: Option<seq<Alarm>>
    const scheduler: AlarmScheduler
    var selectedRingtoneUri: string
    var selectedRingtoneText: Option<string>
    var added: seq<Alarm>       // `viewModel.addAlarm` calls
    var updated: seq<Alarm>     // `viewModel.updateAlarm` calls
    var deleted: seq<int>       // `viewModel.deleteAlarm` calls

    constructor (scheduler: AlarmScheduler)
      ensures this.scheduler == scheduler && alarms == None
      ensures selectedRingtoneUri == DEFAULT_ALARM_ALERT_URI && selectedRingtoneText == None
      ensures added == [] && updated == [] && deleted == []
    {
      this.scheduler := scheduler;
      alarms := None;
      selectedRingtoneUri := DEFAULT_ALARM_ALERT_URI;
      selectedRingtoneText := None;
      added := [];
      updated := [];
      deleted := [];
    }

    /** Schedules every enabled alarm of the list, at `now`. A null list
        schedules nothing. */
    method StartAllActiveAlarms(now: int) returns (outcome: Outcome)
      modifies scheduler.alarmManager
      ensures alarms.None? ==> outcome == Normal
      ensures alarms.None? && scheduler.alarmManager != null ==>
        scheduler.alarmManager.pending == old(scheduler.alarmManager.pending)
      ensures alarms.Some? && scheduler.alarmManager != null ==>
        Step(scheduler.alarmManager.pending, outcome) ==
          StartAll(old(scheduler.alarmManager.pending), alarms.value, now)
      ensures scheduler.alarmManager == null ==> outcome == Normal
    {
      if alarms.None? {
        return Normal;
      }
      var list := alarms.value;
      var manager := scheduler.alarmManager;
      ghost var start := if manager != null then manager.pending else map[];
      var i := 0;
      while i < |list|
        invariant 0 <= i <= |list|
        invariant manager != null ==> Step(manager.pending, Normal) == StartAll(start, list[..i], now)
      {
        ghost var next := StartAll(start, list[..i + 1], now);
        if manager != null {
          StartAllSnoc(start, list, i, now);
        }
        if list[i].enabled {
          var o := scheduler.ScheduleAlarm(list[i], now);
          assert manager != null ==> Step(manager.pending, o) == next;
          if o.Threw? {
            if manager != null {
              StartAllStopsAtThrow(start, list, i + 1, now);
            }
            return o;
          }
        }
        assert next == StartAll(start, list[..i + 1], now);
        i := i + 1;
      }
      assert list[..i] == list;
      outcome := Normal;
    }

    /** Cancels the registration of every enabled alarm of the list; the
        registrations of disabled alarms stay. A null list cancels nothing.
        Without an alarm service the first cancel throws. */
    method StopAllActiveAlarms() returns (outcome: Outcome)
      modifies scheduler.alarmManager
      ensures alarms.None? ==> outcome == Normal
      ensures alarms.None? && scheduler.alarmManager != null ==>
        scheduler.alarmManager.pending == old(scheduler.alarmManager.pending)
      ensures alarms.Some? && scheduler.alarmManager != null ==>
        outcome == Normal &&
        scheduler.alarmManager.pending == old(scheduler.alarmManager.pending) - EnabledKeys(alarms.value)
      ensures alarms.Some? && scheduler.alarmManager == null ==>
        outcome == if EnabledKeys(alarms.value) == {} then Normal else Threw(NullPointer)
    {
      if alarms.None? {
        return Normal;
      }
      var list := alarms.value;
      var manager := scheduler.alarmManager;
      ghost var start := if manager != null then manager.pending else map[];
      var i := 0;
      while i < |list|
        invariant 0 <= i <= |list|
        invariant manager != null ==> manager.pending == start - EnabledKeys(list[..i])
        invariant manager == null ==> EnabledKeys(list[..i]) == {}
      {
        EnabledKeysSnoc(list[..i + 1]);
        assert list[..i + 1][..i] == list[..i];
        ghost var keys := EnabledKeys(list[..i + 1]);
        if list[i].enabled {
          var o := scheduler.CancelAlarm(list[i].id);
          if o.Threw? {
            assert KeyOf(list[i].id) in EnabledKeys(list);
            return o;
          }
          assert manager.pending == start - keys;
        }
        assert keys == EnabledKeys(list[..i + 1]);
        i := i + 1;
      }
      assert list[..i] == list;
      outcome := Normal;
    }

    /** Sets the flag and asks the view model to persist the alarm; no
        alarm is scheduled or cancelled. */
    method ToggleAlarm(alarm: Alarm, enabled: bool)
      modifies alarm`enabled, this`updated
      ensures alarm.enabled == enabled && updated == old(updated) + [alarm]
      ensures scheduler.alarmManager != null ==>
        scheduler.alarmManager.pending == old(scheduler.alarmManager.pending)
    {
      alarm.SetEnabled(enabled);
      updated := updated + [alarm];
    }

    /** Asks the view model to delete the alarm; its registration, if any,
        stays in the table. */
    method DeleteAlarm(alarm: Alarm)
      modifies this`deleted
      ensures deleted == old(deleted) + [alarm.id]
      ensures scheduler.alarmManager != null ==>
        scheduler.alarmManager.pending == old(scheduler.alarmManager.pending)
    {
      deleted := deleted + [alarm.id];
    }

    /** The ringtone picker returned: a picked sound and its title, or
        none, which selects the default sound under the label "Silent". */
    method RingtonePicked(picked: Option<(string, string)>)
      modifies this`selectedRingtoneUri, this`selectedRingtoneText
      ensures picked.Some? ==> selectedRingtoneUri == picked.value.0 && selectedRingtoneText == Some(picked.value.1)
      ensures picked.None? ==> selectedRingtoneUri == DEFAULT_ALARM_ALERT_URI && selectedRingtoneText == Some("Silent")
    {
      match picked {
        case Some((uri, title)) =>
          selectedRingtoneUri := uri;
          selectedRingtoneText := Some(title);
        case None =>
          selectedRingtoneUri := DEFAULT_ALARM_ALERT_URI;
          selectedRingtoneText := Some("Silent");
      }
    }

    /** The "clear" button: empties the log buffer and deletes the log
        file, which throws when the logger has no context. */
    method ClearLogs(logger: Logging.AppLogger) returns (outcome: Outcome)
      modifies logger`logBuffer
      ensures logger.logBuffer == "" && logger.Valid()
      ensures outcome == if logger.hasContext then Normal else Threw(NullPointer)
    {
      outcome := logger.ClearLogTextView(true);
    }

    /** Opening either dialog selects the default sound again; the title
        chosen last is kept. */
    method OpenNewAlarmDialog()
      modifies this`selectedRingtoneUri
      ensures selectedRingtoneUri == DEFAULT_ALARM_ALERT_URI
    {
      selectedRingtoneUri := DEFAULT_ALARM_ALERT_URI;
    }

    /** Submitting the fixed-time dialog: the time picker gives a time of
        day and the duration picker 0 to 30 seconds. The new alarm is
        disabled and handed to the view model. */
    method SubmitFixedAlarm(hour: int, minute: int, duration: int, vibrate: bool) returns (alarm: Alarm)
      requires IsTimeOfDay(hour, minute) && 0 <= duration <= 30
      modifies this`added
      ensures fresh(alarm) && added == old(added) + [alarm]
      ensures alarm.alarmType == TYPE_FIXED && alarm.hours == hour && alarm.minutes == minute
      ensures alarm.durationSeconds == duration && alarm.vibrate == vibrate && !alarm.enabled
      ensures alarm.audioUri == Some(selectedRingtoneUri) && alarm.audioText == selectedRingtoneText
      ensures alarm.id == 0 && Schedulable(alarm)
    {
      alarm := new Alarm(TYPE_FIXED, hour, minute, duration, vibrate,
                         Some(selectedRingtoneUri), selectedRingtoneText, false);
      added := added + [alarm];
    }

    /** Submitting the elapsed-time dialog: 0 to 10 hours, 0 to 60
        minutes, 0 to 30 seconds of ringing. */
    method SubmitElapsedAlarm(hours: int, minutes: int, duration: int, vibrate: bool) returns (alarm: Alarm)
      requires 0 <= hours <= 10 && 0 <= minutes <= 60 && 0 <= duration <= 30
      modifies this`added
      ensures fresh(alarm) && added == old(added) + [alarm]
      ensures alarm.alarmType == TYPE_ELAPSED && alarm.hours == hours && alarm.minutes == minutes
      ensures alarm.durationSeconds == duration && alarm.vibrate == vibrate && !alarm.enabled
      ensures alarm.audioUri == Some(selectedRingtoneUri) && alarm.audioText == selectedRingtoneText
      ensures alarm.id == 0 && Schedulable(alarm)
    {
      alarm := new Alarm(TYPE_ELAPSED, hours, minutes, duration, vibrate,
                         Some(selectedRingtoneUri), selectedRingtoneText, false);
      added := added + [alarm];
    }

    /** The messages `dumpdb` logs, in order: a start line, one entry per
        alarm of the list, an end line. The list is not checked for null:
        iterating a null list throws after the first message. */
    method DumpDb() returns (messages: seq<string>, outcome: Outcome)
      ensures alarms.None? ==> messages == [DUMP_START] && outcome == Threw(NullPointer)
      ensures alarms.Some? ==>
        |messages| == |alarms.value| + 2 && outcome == Normal &&
        messages[0] == DUMP_START && messages[|messages| - 1] == DUMP_END &&
        forall j :: 0 <= j < |alarms.value| ==> messages[j + 1] == DumpEntry(alarms.value[j])
    {
      messages := [DUMP_START];
      if alarms.None? {
        return messages, Threw(NullPointer);
      }
      var entries := DumpEntries(alarms.value);
      messages := messages + entries + [DUMP_END];
      outcome := Normal;
    }
  }

  /** The loop of `dumpdb`: one entry per alarm, in order. */
  method DumpEntries(list: seq<Alarm>) returns (entries: seq<string>)
    ensures |entries| == |list|
    ensures forall j :: 0 <= j < |list| ==> entries[j] == DumpEntry(list[j])
  {
    entries := [];
    var i := 0;
    while i < |list|
      invariant 0 <= i <= |list| && |entries| == i
      invariant forall j :: 0 <= j < i ==> entries[j] == DumpEntry(list[j])
    {
      entries := entries + [DumpEntry(list[i])];
      i := i + 1;
    }
  }

  /** Alarms from either dialog carry a sound, so comparing them with
      `sameas` never throws. */
  lemma DialogAlarmsCompareSafely(a: Alarm, b: Alarm)
    requires a.audioUri.Some?
    ensures a.SameAs(b).Returns?
  {
  }

  /** An elapsed alarm from the dialog fires within eleven hours. */
  lemma ElapsedDialogAlarmWithinElevenHours(hours: int, minutes: int, now: int)
    requires 0 <= hours <= 10 && 0 <= minutes <= 60
    ensures var r := TargetTime(TYPE_ELAPSED, hours, minutes, now);
      r.Returns? && now <= r.value <= now + 11 * SECONDS_PER_HOUR
  {
  }
}
