/** Computing when an alarm fires and registering it with the system's
    alarm table. Time is counted in whole seconds of local time; day `d`
    starts at `d * SECONDS_PER_DAY`. */
module Scheduling {
  import opened JavaRuntime
  import opened Android
  import opened AlarmEntity

  const SECONDS_PER_MINUTE: int := 60
  const SECONDS_PER_HOUR: int := 3600
  const SECONDS_PER_DAY: int := 86400

  /** The start of the day that contains `t`. */
  function Midnight(t: int): int {
    t - t % SECONDS_PER_DAY
  }

  /** The instant `hours:minutes:00` on the day of `now`. */
  function TodayAt(now: int, hours: int, minutes: int): int {
    Midnight(now) + hours * SECONDS_PER_HOUR + minutes * SECONDS_PER_MINUTE
  }

  predicate IsTimeOfDay(hours: int, minutes: int) {
    0 <= hours < 24 && 0 <= minutes < 60
  }

  /** The target of the `switch` on the alarm's type. A fixed alarm is due
      today at `hours:minutes:00`, or a day later when `now` is already
      past that; building that time throws for an hour outside 0..23 or a
      minute outside 0..59. Elapsed and recurring alarms are due after
      `hours` hours and `minutes` minutes. The switch has no default arm,
      so any other type keeps the target at `now`. */
  function TargetTime(alarmType: int, hours: int, minutes: int, now: int): (r: Result<int>)
    ensures r.Throws? <==> alarmType == TYPE_FIXED && !IsTimeOfDay(hours, minutes)
    ensures r.Throws? ==> r.error == DateTime
    ensures alarmType == TYPE_FIXED && r.Returns? ==>
      now <= r.value < now + SECONDS_PER_DAY &&
      r.value % SECONDS_PER_DAY == hours * SECONDS_PER_HOUR + minutes * SECONDS_PER_MINUTE
    ensures alarmType == TYPE_ELAPSED || alarmType == TYPE_RECURRING ==>
      r == Returns(now + hours * SECONDS_PER_HOUR + minutes * SECONDS_PER_MINUTE)
    ensures alarmType !in {TYPE_FIXED, TYPE_ELAPSED, TYPE_RECURRING} ==> r == Returns(now)
  {
    if alarmType == TYPE_FIXED then
      if !IsTimeOfDay(hours, minutes) then Throws(DateTime)
      else
        var today := TodayAt(now, hours, minutes);
        MidnightShift(now, hours * SECONDS_PER_HOUR + minutes * SECONDS_PER_MINUTE);
        if now > today then Returns(today + SECONDS_PER_DAY) else Returns(today)
    else if alarmType == TYPE_ELAPSED then
      Returns(now + hours * SECONDS_PER_HOUR + minutes * SECONDS_PER_MINUTE)
    else if alarmType == TYPE_RECURRING then
      Returns(now + hours * SECONDS_PER_HOUR + minutes * SECONDS_PER_MINUTE)
    else
      Returns(now)
  }

  /** A time of day added to a midnight, today or tomorrow, keeps that
      time of day. */
  lemma MidnightShift(now: int, tod: int)
    requires 0 <= tod < SECONDS_PER_DAY
    ensures Midnight(now) <= now < Midnight(now) + SECONDS_PER_DAY
    ensures (Midnight(now) + tod) % SECONDS_PER_DAY == tod
    ensures (Midnight(now) + tod + SECONDS_PER_DAY) % SECONDS_PER_DAY == tod
  {
    var q := now / SECONDS_PER_DAY;
    assert Midnight(now) == q * SECONDS_PER_DAY;
    assert (q * SECONDS_PER_DAY + tod) / SECONDS_PER_DAY == q;
    assert ((q + 1) * SECONDS_PER_DAY + tod) / SECONDS_PER_DAY == q + 1;
  }

  /** A fixed alarm moves to the next day exactly when `now` is strictly
      after today's `hours:minutes:00`. */
  lemma FixedTomorrowIffPast(hours: int, minutes: int, now: int)
    requires IsTimeOfDay(hours, minutes)
    ensures var r := TargetTime(TYPE_FIXED, hours, minutes, now);
      r.Returns? &&
      (r.value == TodayAt(now, hours, minutes) + SECONDS_PER_DAY <==> now > TodayAt(now, hours, minutes)) &&
      (r.value == TodayAt(now, hours, minutes) <==> now <= TodayAt(now, hours, minutes))
  {
  }

  /** The midnight of an instant `tod` seconds into day `d`. */
  lemma MidnightOfDay(d: int, tod: int)
    requires 0 <= tod < SECONDS_PER_DAY
    ensures Midnight(d * SECONDS_PER_DAY + tod) == d * SECONDS_PER_DAY
  {
    assert (d * SECONDS_PER_DAY + tod) / SECONDS_PER_DAY == d;
  }

  /** On any day `d`: a fixed 23:59 alarm set at 23:58 fires a minute
      later the same day, a fixed 08:00 alarm set at 09:00 fires at 08:00
      the next day, and a 0 h 30 min elapsed alarm set at 12:00 fires at
      12:30. */
  lemma TargetTimeExamples(d: int)
    ensures TargetTime(TYPE_FIXED, 23, 59, d * SECONDS_PER_DAY + 23 * 3600 + 58 * 60) ==
      Returns(d * SECONDS_PER_DAY + 23 * 3600 + 59 * 60)
    ensures TargetTime(TYPE_FIXED, 8, 0, d * SECONDS_PER_DAY + 9 * 3600) ==
      Returns((d + 1) * SECONDS_PER_DAY + 8 * 3600)
    ensures TargetTime(TYPE_ELAPSED, 0, 30, d * SECONDS_PER_DAY + 12 * 3600) ==
      Returns(d * SECONDS_PER_DAY + 12 * 3600 + 30 * 60)
  {
    MidnightOfDay(d, 23 * 3600 + 58 * 60);
    MidnightOfDay(d, 9 * 3600);
  }

  /** Elapsed and recurring alarms cannot be told apart by their target. */
  lemma ElapsedSameAsRecurring(hours: int, minutes: int, now: int)
    ensures TargetTime(TYPE_ELAPSED, hours, minutes, now) == TargetTime(TYPE_RECURRING, hours, minutes, now)
  {
  }

  /** One pending alarm in the system's table: when it fires, the extras
      the broadcast will carry, and the id the status-bar intent carries. */
  datatype Registration = Registration(triggerAt: int, operation: Extras, showAlarmId: int)

  /** The extras put on the broadcast intent: id, duration, vibrate flag
      and sound, but not the sound's title. */
  function PayloadOf(alarm: Alarm): Extras
    reads alarm
  {
    Extras(Some(alarm.id), Some(alarm.durationSeconds), Some(alarm.vibrate), alarm.audioUri)
  }

  /** The request code the alarm's pending intents are keyed by. */
  function KeyOf(alarmId: int): (r: int)
    ensures IsInt(r) && (IsInt(alarmId) ==> r == alarmId)
  {
    ToInt(alarmId)
  }

  /** A change to the alarm table together with how the call completed. */
  datatype Step = Step(pending: map<int, Registration>, outcome: Outcome)

  /** What `scheduleAlarm` does to the table when the alarm service is
      available. The broadcast's pending intent is obtained with
      FLAG_UPDATE_CURRENT before the target is computed, and so is the
      status-bar intent, so when computing the target throws, a
      registration already under the key keeps its trigger time but
      carries the new extras and the new id to show. */
  function ScheduleInto(pending: map<int, Registration>, alarm: Alarm, now: int): (r: Step)
    reads alarm
    ensures r.outcome.Threw? <==> alarm.alarmType == TYPE_FIXED && !IsTimeOfDay(alarm.hours, alarm.minutes)
    ensures r.outcome.Threw? ==> r.outcome.error == DateTime
    ensures r.pending.Keys == if r.outcome.Normal? then pending.Keys + {KeyOf(alarm.id)} else pending.Keys
    ensures forall k :: k in pending && k != KeyOf(alarm.id) ==> r.pending[k] == pending[k]
    ensures KeyOf(alarm.id) in r.pending ==>
      r.pending[KeyOf(alarm.id)].operation == PayloadOf(alarm) &&
      r.pending[KeyOf(alarm.id)].showAlarmId == alarm.id
    ensures r.outcome.Normal? ==>
      r.pending[KeyOf(alarm.id)] ==
        Registration(TargetTime(alarm.alarmType, alarm.hours, alarm.minutes, now).value, PayloadOf(alarm), alarm.id)
    ensures r.outcome.Threw? && KeyOf(alarm.id) in pending ==>
      r.pending[KeyOf(alarm.id)].triggerAt == pending[KeyOf(alarm.id)].triggerAt
  {
    var key := KeyOf(alarm.id);
    match TargetTime(alarm.alarmType, alarm.hours, alarm.minutes, now)
    case Returns(t) =>
      Step(pending[key := Registration(t, PayloadOf(alarm), alarm.id)], Normal)
    case Throws(e) =>
      if key in pending
      then Step(pending[key := pending[key].(operation := PayloadOf(alarm), showAlarmId := alarm.id)], Threw(e))
      else Step(pending, Threw(e))
  }

  /** What `cancelAlarm` does to the table: the registration under the key
      goes, if there is one, and every other stays. */
  function CancelFrom(pending: map<int, Registration>, alarmId: int): (r: map<int, Registration>)
    ensures r.Keys == pending.Keys - {KeyOf(alarmId)}
    ensures forall k :: k in r ==> r[k] == pending[k]
  {
    pending - {KeyOf(alarmId)}
  }

  /** Scheduling twice under one key leaves one registration, the later. */
  lemma ScheduleTwiceKeepsLater(pending: map<int, Registration>, first: Alarm, second: Alarm, t1: int, t2: int)
    requires KeyOf(first.id) == KeyOf(second.id)
    requires ScheduleInto(pending, first, t1).outcome.Normal?
    requires ScheduleInto(pending, second, t2).outcome.Normal?
    ensures ScheduleInto(ScheduleInto(pending, first, t1).pending, second, t2) == ScheduleInto(pending, second, t2)
  {
  }

  /** Cancelling what was just scheduled restores the table without the key. */
  lemma CancelUndoesSchedule(pending: map<int, Registration>, alarm: Alarm, now: int)
    ensures CancelFrom(ScheduleInto(pending, alarm, now).pending, alarm.id) == CancelFrom(pending, alarm.id)
  {
  }

  /** Cancelling is idempotent. */
  lemma CancelIdempotent(pending: map<int, Registration>, alarmId: int)
    ensures CancelFrom(CancelFrom(pending, alarmId), alarmId) == CancelFrom(pending, alarmId)
  {
  }

  /** Ids that differ by a multiple of 2^32 share a key, so scheduling one
      replaces the other's registration. */
  lemma IdsShareKeyModulo(alarmId: int, n: int)
    ensures KeyOf(alarmId + n * TWO_32) == KeyOf(alarmId)
  {
    var k := KeyOf(alarmId);
    assert (alarmId + n * TWO_32 - k) == (alarmId - k) + n * TWO_32;
    assert (alarmId - k) == TWO_32 * ((alarmId - k) / TWO_32);
    assert (alarmId + n * TWO_32 - k) == TWO_32 * ((alarmId - k) / TWO_32 + n);
    ToIntUnique(alarmId + n * TWO_32, k);
  }

  /** The system's exact-alarm table, keyed by request code. */
  class AlarmManager {
    var pending: map<int, Registration>

    constructor ()
      ensures pending == map[]
    {
      pending := map[];
    }
  }

  /** Schedules and cancels alarms. `alarmManager` is what the context's
      `getSystemService(ALARM_SERVICE)` returns, null when unavailable. */
  class AlarmScheduler {
    const alarmManager: AlarmManager?

    constructor (alarmManager: AlarmManager?)
      ensures this.alarmManager == alarmManager
    {
      this.alarmManager := alarmManager;
    }

    /** Without an alarm service it logs and returns having registered
        nothing; otherwise it upserts the registration under `(int) id`. */
    method ScheduleAlarm(alarm: Alarm, now: int) returns (outcome: Outcome)
      modifies alarmManager
      ensures alarmManager == null ==> outcome == Normal
      ensures alarmManager != null ==>
        Step(alarmManager.pending, outcome) == ScheduleInto(old(alarmManager.pending), alarm, now)
    {
      if alarmManager == null {
        return Normal;
      }
      var r := ScheduleInto(alarmManager.pending, alarm, now);
      alarmManager.pending := r.pending;
      outcome := r.outcome;
    }

    /** Removes the registration under `(int) alarmId`. There is no check
        for a missing alarm service here, so the call then throws. */
    method CancelAlarm(alarmId: int) returns (outcome: Outcome)
      modifies alarmManager
      ensures alarmManager == null ==> outcome == Threw(NullPointer)
      ensures alarmManager != null ==>
        outcome == Normal && alarmManager.pending == CancelFrom(old(alarmManager.pending), alarmId)
    {
      if alarmManager == null {
        return Threw(NullPointer);
      }
      alarmManager.pending := CancelFrom(alarmManager.pending, alarmId);
      outcome := Normal;
    }
  }
}
