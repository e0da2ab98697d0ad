/** The foreground service that rings: sound, vibration, and a delayed
    stop. The player, the vibrator and the handler are platform devices,
    modelled by the state the service can observe of them. */
module Service {
  import opened JavaRuntime
  import opened Android
  import opened AlarmEntity
  import opened Scheduling
  import opened Receiver

  /** The `ALARM_ID` that means "no alarm". */
  const NO_ALARM: int := -1
  const DEFAULT_DURATION: int := 60
  const MILLIS_PER_SECOND: int := 1000

  /** What `onStartCommand` reads from its intent. */
  datatype StartRequest = StartRequest(alarmId: int, duration: int, vibrate: bool, audioUri: Option<string>)

  /** The intent's extras with their defaults: no id, 60 seconds, no
      vibration, no sound. */
  function ReadStartRequest(e: Extras): StartRequest {
    StartRequest(e.alarmId.GetOr(NO_ALARM), e.duration.GetOr(DEFAULT_DURATION),
                 e.vibrate.GetOr(false), e.audioUri)
  }

  /** A `MediaPlayer`: whether it is playing, and whether it went into the
      error state, where `isPlaying` and `stop` throw IllegalStateException. */
  datatype MediaPlayer = MediaPlayer(playing: bool, broken: bool)

  /** The player an overwrite of the field leaves behind still ringing:
      the old one, when it was playing. Nothing stops it afterwards. */
  function Orphaned(previous: Option<MediaPlayer>): (r: seq<MediaPlayer>)
    ensures |r| <= 1
    ensures r != [] <==> previous.Some? && previous.value.playing
    ensures r != [] ==> r[0] == previous.value
  {
    if previous.Some? && previous.value.playing then [previous.value] else []
  }

  /** The system vibrator, if the device has that service. */
  datatype Vibrator = Vibrator(hasVibrator: bool)

  predicate HasHardware(v: Option<Vibrator>) {
    v.Some? && v.value.hasVibrator
  }

  /** `VibrationEffect.createOneShot(ms, DEFAULT_AMPLITUDE)`: the platform
      accepts only a positive length and throws IllegalArgumentException
      otherwise. */
  function OneShot(ms: int): (r: Outcome)
    ensures r.Normal? <==> ms > 0
    ensures r.Threw? ==> r.error == IllegalArgument
  {
    if ms > 0 then Normal else Threw(IllegalArgument)
  }

  /** How setting the data source and preparing the player turns out for a
      non-null sound: it plays, it throws IOException, or it throws
      another exception (a bad or forbidden URI). */
  datatype SoundSource = Playable | Unreadable | Refused

  /** `startAlarmSound`: the player left in the field and how the call
      completed. A null URI cannot be parsed and throws before anything
      plays; an IOException is caught and the player released and
      dropped; any other exception escapes with the player still set. */
  function SoundSetup(audioUri: Option<string>, source: SoundSource): (r: (Option<MediaPlayer>, Outcome))
    ensures r.1.Normal? <==> audioUri.Some? && source != Refused
    ensures r.1.Normal? ==> (r.0.Some? <==> source == Playable)
    ensures r.0.Some? ==> !r.0.value.broken && (r.0.value.playing <==> r.1.Normal?)
    ensures audioUri.None? ==> r.1 == Threw(NullPointer)
  {
    if audioUri.None? then (Some(MediaPlayer(false, false)), Threw(NullPointer))
    else match source
      case Playable => (Some(MediaPlayer(true, false)), Normal)
      case Unreadable => (None, Normal)
      case Refused => (Some(MediaPlayer(false, false)), Threw(IllegalArgument))
  }

  /** The alarm table's payload reaches the service intact: the service
      rings for the alarm's id, duration, vibrate flag and sound. */
  lemma PayloadRoundTrip(alarm: Alarm)
    ensures ReadStartRequest(PayloadOf(alarm)) ==
      StartRequest(alarm.id, alarm.durationSeconds, alarm.vibrate, alarm.audioUri)
  {
  }

  /** An intent without extras, as sent when the app starts the service
      itself, reads as "no alarm". */
  lemma NoExtrasMeansNoAlarm()
    ensures ReadStartRequest(NO_EXTRAS) == StartRequest(NO_ALARM, DEFAULT_DURATION, false, None)
  {
  }

  class AlarmService {
    var mediaPlayer: Option<MediaPlayer>
    var vibrator: Option<Vibrator>
    var vibrationMs: Option<int>     // the one-shot vibration under way
    var foreground: bool              // `startForeground` has been called
    var pendingStops: seq<int>        // delays, in ms, of posted stop callbacks
    var stopRequested: bool           // `stopSelf` has been called
    ghost var orphaned: seq<MediaPlayer> // players the field let go of while they played
    const systemVibrator: Option<Vibrator>
    const receiver: AlarmReceiver

    /** The vibrator field only ever holds the system vibrator, and a
        vibration runs only on a vibrator that has the hardware. */
    ghost predicate Valid()
      reads this
    {
      (vibrator == None || vibrator == systemVibrator) &&
      (vibrationMs.Some? ==> vibrator.Some? && vibrator.value.hasVibrator)
    }

    constructor (receiver: AlarmReceiver, systemVibrator: Option<Vibrator>)
      ensures this.receiver == receiver && this.systemVibrator == systemVibrator
      ensures mediaPlayer == None && vibrator == None && vibrationMs == None
      ensures !foreground && pendingStops == [] && !stopRequested && orphaned == []
      ensures Valid()
    {
      this.receiver := receiver;
      this.systemVibrator := systemVibrator;
      mediaPlayer := None;
      vibrator := None;
      vibrationMs := None;
      foreground := false;
      pendingStops := [];
      stopRequested := false;
      orphaned := [];
    }

    /** Looks up the vibrator. The notification channel is not modelled. */
    method OnCreate()
      requires Valid()
      modifies this`vibrator
      ensures vibrator == systemVibrator && Valid()
    {
      vibrator := systemVibrator;
    }

    /** A new player replaces the field's; a player still playing there is
        not stopped and keeps ringing, out of the service's reach. */
    method StartAlarmSound(audioUri: Option<string>, source: SoundSource) returns (outcome: Outcome)
      modifies this`mediaPlayer, this`orphaned
      ensures (mediaPlayer, outcome) == SoundSetup(audioUri, source)
      ensures orphaned == old(orphaned) + Orphaned(old(mediaPlayer))
    {
      orphaned := orphaned + Orphaned(mediaPlayer);
      mediaPlayer := Some(MediaPlayer(false, false));
      if audioUri.None? {
        return Threw(NullPointer);
      }
      match source {
        case Playable =>
          mediaPlayer := Some(MediaPlayer(true, false));
          outcome := Normal;
        case Unreadable =>
          mediaPlayer := None;
          outcome := Normal;
        case Refused =>
          outcome := Threw(IllegalArgument);
      }
    }

    /** Vibrates for the duration only when there is a vibrator and it has
        the hardware. The one-shot effect is built first, so a duration of
        zero seconds or less throws before anything vibrates. */
    method StartVibration(duration: int) returns (outcome: Outcome)
      requires Valid()
      modifies this`vibrator, this`vibrationMs
      ensures Valid() && vibrator == systemVibrator
      ensures outcome == if HasHardware(systemVibrator) then OneShot(duration * MILLIS_PER_SECOND) else Normal
      ensures vibrationMs ==
        if HasHardware(systemVibrator) && outcome.Normal?
        then Some(duration * MILLIS_PER_SECOND) else old(vibrationMs)
    {
      vibrator := systemVibrator;
      outcome := Normal;
      if vibrator.Some? && vibrator.value.hasVibrator {
        outcome := OneShot(duration * MILLIS_PER_SECOND);
        if outcome.Threw? {
          return;
        }
        vibrationMs := Some(duration * MILLIS_PER_SECOND);
      }
    }

    /** Stops and releases the field's player, swallowing the
        IllegalStateException of a broken one, and cancels the vibrator.
        Afterwards the field holds no player and no vibration runs; players
        orphaned by an earlier `StartAlarmSound` are not reached. */
    method StopAlarm()
      requires Valid()
      modifies this`mediaPlayer, this`vibrationMs
      ensures Valid()
      ensures mediaPlayer == None && vibrationMs == None
    {
      if mediaPlayer.Some? {
        if !mediaPlayer.value.broken && mediaPlayer.value.playing {
          mediaPlayer := Some(mediaPlayer.value.(playing := false));
        }
        mediaPlayer := None;
      }
      if vibrator.Some? {
        vibrationMs := None;
      }
    }

    /** `onStartCommand`. A null intent, as the platform passes when it
        restarts a sticky service, throws on its first use. Id -1 starts
        nothing. Otherwise the service goes to the foreground, starts the
        sound, vibrates if asked, and posts the stop after the duration.
        An exception from the sound or the vibration ends the call before
        the stop is posted, with the sound left as it is. The receiver's
        wake lock is released on every path. */
    method OnStartCommand(intent: Option<Extras>, source: SoundSource) returns (r: Result<int>)
      requires Valid()
      modifies this, receiver
      ensures Valid()
      ensures receiver.wakeLock == ReleaseStep(old(receiver.wakeLock))
      ensures stopRequested == old(stopRequested)
      ensures orphaned == old(orphaned) +
        if intent.Some? && ReadStartRequest(intent.value).alarmId != NO_ALARM
        then Orphaned(old(mediaPlayer)) else []
      ensures intent.None? ==> r == Throws(NullPointer)
      ensures intent.None? || ReadStartRequest(intent.value).alarmId == NO_ALARM ==>
        foreground == old(foreground) && mediaPlayer == old(mediaPlayer) &&
        vibrator == old(vibrator) && vibrationMs == old(vibrationMs) &&
        pendingStops == old(pendingStops)
      ensures intent.Some? && ReadStartRequest(intent.value).alarmId == NO_ALARM ==>
        r == Returns(START_STICKY)
      ensures intent.Some? && ReadStartRequest(intent.value).alarmId != NO_ALARM ==>
        var req := ReadStartRequest(intent.value);
        var sound := SoundSetup(req.audioUri, source);
        var rings := sound.1.Normal?;
        var ms := req.duration * MILLIS_PER_SECOND;
        var shakes := rings && req.vibrate && HasHardware(systemVibrator);
        var refused := shakes && OneShot(ms).Threw?;
        var posted := rings && !refused;
        foreground && mediaPlayer == sound.0 &&
        r == (if !rings then Throws(sound.1.error)
              else if refused then Throws(IllegalArgument)
              else Returns(START_STICKY)) &&
        vibrator == (if rings && req.vibrate then systemVibrator else old(vibrator)) &&
        vibrationMs == (if shakes && !refused then Some(ms) else old(vibrationMs)) &&
        pendingStops == (if posted then old(pendingStops) + [ms] else old(pendingStops))
    {
      if intent.None? {
        receiver.ReleaseWakeLock();
        return Throws(NullPointer);
      }
      var req := ReadStartRequest(intent.value);
      if req.alarmId != NO_ALARM {
        foreground := true;
        var outcome := StartAlarmSound(req.audioUri, source);
        if outcome.Threw? {
          receiver.ReleaseWakeLock();
          return Throws(outcome.error);
        }
        if req.vibrate {
          outcome := StartVibration(req.duration);
          if outcome.Threw? {
            receiver.ReleaseWakeLock();
            return Throws(outcome.error);
          }
        }
        pendingStops := pendingStops + [req.duration * MILLIS_PER_SECOND];
      }
      receiver.ReleaseWakeLock();
      r := Returns(START_STICKY);
    }

    /** The handler runs the `k`-th posted stop callback: `stopAlarm`, then
        `stopSelf`. */
    method RunStopCallback(k: nat)
      requires Valid() && k < |pendingStops|
      modifies this
      ensures Valid()
      ensures mediaPlayer == None && vibrationMs == None && stopRequested
      ensures pendingStops == old(pendingStops[..k] + pendingStops[k + 1..])
      ensures foreground == old(foreground) && vibrator == old(vibrator)
      ensures orphaned == old(orphaned)
    {
      StopAlarm();
      stopRequested := true;
      pendingStops := pendingStops[..k] + pendingStops[k + 1..];
    }

    /** The platform signals that the player failed. */
    method PlayerFails()
      modifies this`mediaPlayer
      ensures mediaPlayer == if old(mediaPlayer).Some? then Some(MediaPlayer(false, true)) else None
    {
      if mediaPlayer.Some? {
        mediaPlayer := Some(MediaPlayer(false, true));
      }
    }

    /** `onDestroy`: the service's own wake lock field is never assigned,
        so only `stopAlarm` has an effect. */
    method OnDestroy()
      requires Valid()
      modifies this`mediaPlayer, this`vibrationMs
      ensures Valid() && mediaPlayer == None && vibrationMs == None
    {
      StopAlarm();
    }
  }

  /** When, if ever, the receiver's wake lock times out on its own. */
  datatype LockTimeout =
    | NoTimeout
    | DuringReceive   // before `onReceive` reaches its `catch`; the platform posts
                      // the timed release to the main thread, which `onReceive`
                      // occupies, so this case over-approximates the program
    | BeforeService   // after `onReceive` returns, before the service's `finally`

  /** The platform fires a registration: the receiver takes the wake lock
      and starts the service, which rings. The lock is no longer held by
      the end; the field is nulled only when the lock was still held at
      its release, and a lock that timed out first stays in it. */
  method DeliverAlarm(receiver: AlarmReceiver, service: AlarmService, extras: Extras,
                      startResult: Outcome, timeout: LockTimeout, source: SoundSource)
    returns (r: Option<Result<int>>)
    requires service.receiver == receiver && service.Valid()
    modifies receiver, service
    ensures service.Valid()
    ensures receiver.wakeLock.None? || !receiver.wakeLock.value.held
    ensures receiver.wakeLock ==
      if timeout == DuringReceive || (timeout == BeforeService && startResult.Normal?)
      then Some(WakeLock(false, WAKE_LOCK_TIMEOUT)) else None
    ensures startResult.Threw? ==> r == None
    ensures startResult.Normal? && ReadStartRequest(extras).alarmId != NO_ALARM ==>
      r.Some? && service.foreground &&
      var req := ReadStartRequest(extras);
      (r.value == Returns(START_STICKY) <==>
        SoundSetup(req.audioUri, source).1.Normal? &&
        !(req.vibrate && HasHardware(service.systemVibrator) && req.duration <= 0)) &&
      (r.value == Returns(START_STICKY) ==>
        service.pendingStops == old(service.pendingStops) + [req.duration * MILLIS_PER_SECOND])
  {
    var started := receiver.OnReceive(extras, startResult, timeout == DuringReceive);
    if started.None? {
      return None;
    }
    if timeout == BeforeService {
      receiver.WakeLockTimesOut();
    }
    var result := service.OnStartCommand(started, source);
    r := Some(result);
  }
}
