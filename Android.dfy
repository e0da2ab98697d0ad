/** The platform values that pass between the app's components. */
module Android {
  import opened JavaRuntime

  /** The extras of an Intent as the alarm components use them. An absent
      extra and an extra stored as `null` both read back as `None`. */
  datatype Extras = Extras(
    alarmId: Option<int>,     // "ALARM_ID", a long
    duration: Option<int>,    // "DURATION", an int, in seconds
    vibrate: Option<bool>,    // "VIBRATE"
    audioUri: Option<string>  // "AUDIO_URI"
  )

  /** An Intent that carries no extras. */
  const NO_EXTRAS: Extras := Extras(None, None, None, None)

  /** `Service.START_STICKY`. */
  const START_STICKY: int := 1
}
