/** The broadcast receiver the alarm table fires: it takes a wake lock and
    hands the alarm's extras to the ringing service. */
module Receiver {
  import opened JavaRuntime
  import opened Android

  /** A partial wake lock: whether the platform still holds it, and the
      timeout it was acquired with, which the platform reads in
      milliseconds. */
  datatype WakeLock = WakeLock(held: bool, timeoutMs: int)

  /** The argument of `acquire`, written `1 * 60`. */
  const WAKE_LOCK_TIMEOUT: int := 1 * 60

  /** `releaseWakeLock` on the static field: release and null it when a
      lock is there and still held, otherwise change nothing. */
  function ReleaseStep(lock: Option<WakeLock>): (r: Option<WakeLock>)
    ensures lock.Some? && lock.value.held ==> r == None
    ensures !(lock.Some? && lock.value.held) ==> r == lock
    ensures r.Some? ==> !r.value.held
  {
    match lock
    case Some(l) => if l.held then None else lock
    case None => None
  }

  /** The platform releases the lock by itself once its timeout elapses;
      the field still refers to it. */
  function TimeoutStep(lock: Option<WakeLock>): (r: Option<WakeLock>)
    ensures r.Some? <==> lock.Some?
    ensures r.Some? ==> r.value == lock.value.(held := false)
  {
    match lock
    case Some(l) => Some(l.(held := false))
    case None => None
  }

  /** Releasing twice is releasing once. */
  lemma ReleaseIdempotent(lock: Option<WakeLock>)
    ensures ReleaseStep(ReleaseStep(lock)) == ReleaseStep(lock)
  {
  }

  /** A lock that timed out is no longer held, so a later release leaves
      it in the field instead of nulling it. */
  lemma ReleaseAfterTimeoutKeepsField(lock: Option<WakeLock>)
    requires lock.Some?
    ensures ReleaseStep(TimeoutStep(lock)) == TimeoutStep(lock) != None
  {
  }

  /** The 60 given to `acquire` is 60 ms, well short of the minute the
      comment beside it describes. */
  lemma AcquireTimeoutUnderASecond()
    ensures WAKE_LOCK_TIMEOUT == 60 && WAKE_LOCK_TIMEOUT < 1000
  {
  }

  /** `AlarmReceiver`'s static state: the `wakeLock` field. */
  class AlarmReceiver {
    var wakeLock: Option<WakeLock>

    constructor ()
      ensures wakeLock == None
    {
      wakeLock := None;
    }

    /** Creates a new lock and acquires it, overwriting the field whatever
        it held before. */
    method AcquireWakeLock()
      modifies this
      ensures wakeLock == Some(WakeLock(true, WAKE_LOCK_TIMEOUT))
    {
      wakeLock := Some(WakeLock(true, WAKE_LOCK_TIMEOUT));
    }

    method ReleaseWakeLock()
      modifies this
      ensures wakeLock == ReleaseStep(old(wakeLock))
    {
      if wakeLock.Some? && wakeLock.value.held {
        wakeLock := None;
      }
    }

    /** The platform event: the lock's timeout elapses. */
    method WakeLockTimesOut()
      modifies this
      ensures wakeLock == TimeoutStep(old(wakeLock))
    {
      if wakeLock.Some? {
        wakeLock := Some(wakeLock.value.(held := false));
      }
    }

    /** `onReceive`: acquires the lock, then asks the platform to start the
        ringing service with every extra of the incoming intent.
        `startResult` is how that request completed, and `timedOut` says
        whether the lock's 60 ms ran out before it did. On failure the
        exception is logged and the lock released, which nulls the field
        only while the lock is still held; nothing propagates. Returns the
        extras of the service intent when it was started. */
    method OnReceive(extras: Extras, startResult: Outcome, timedOut: bool) returns (started: Option<Extras>)
      modifies this
      ensures started == if startResult.Normal? then Some(extras) else None
      ensures wakeLock ==
        if timedOut then Some(WakeLock(false, WAKE_LOCK_TIMEOUT))
        else if startResult.Normal? then Some(WakeLock(true, WAKE_LOCK_TIMEOUT))
        else None
    {
      AcquireWakeLock();
      var service := extras;
      if timedOut {
        WakeLockTimesOut();
      }
      if startResult.Threw? {
        ReleaseWakeLock();
        return None;
      }
      started := Some(service);
    }
  }
}
