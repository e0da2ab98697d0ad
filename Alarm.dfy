/** The alarm record persisted in the `alarms` table. */
module AlarmEntity {
  import opened JavaRuntime

  const TYPE_FIXED: int := 1
  const TYPE_ELAPSED: int := 2
  const TYPE_RECURRING: int := 3

  /** An alarm. Its fields are public and updated in place, so it is an
      object: every holder of a reference sees a change made through another. */
  class Alarm {
    var id: int                   // long; 0 until persistence assigns one
    var alarmType: int            // `type` in Java
    var hours: int
    var minutes: int
    var durationSeconds: int
    var vibrate: bool
    var audioUri: Option<string>
    var audioText: Option<string>
    var enabled: bool

    /** Copies its eight arguments; `id` keeps Java's default 0. */
    constructor (alarmType: int, hours: int, minutes: int, durationSeconds: int,
                 vibrate: bool, audioUri: Option<string>, audioText: Option<string>,
                 enabled: bool)
      ensures this.id == 0
      ensures this.alarmType == alarmType && this.hours == hours && this.minutes == minutes
      ensures this.durationSeconds == durationSeconds && this.vibrate == vibrate
      ensures this.audioUri == audioUri && this.audioText == audioText
      ensures this.enabled == enabled
    {
      this.id := 0;
      this.alarmType := alarmType;
      this.hours := hours;
      this.minutes := minutes;
      this.durationSeconds := durationSeconds;
      this.vibrate := vibrate;
      this.audioUri := audioUri;
      this.audioText := audioText;
      this.enabled := enabled;
    }

    /** Changes `enabled` and, by its frame, nothing else. */
    method SetEnabled(en: bool)
      modifies this`enabled
      ensures enabled == en
    {
      enabled := en;
    }

    /** Content equality used to diff the displayed list: `id` and
        `audioText` are ignored. The conjuncts are evaluated left to right
        and stop at the first false one, so `audioUri.equals` runs, and
        throws on a null `audioUri`, only once hours, minutes, duration and
        vibrate have all matched. */
    function SameAs(other: Alarm): (r: Result<bool>)
      reads this, other
      ensures r.Throws? <==>
        hours == other.hours && minutes == other.minutes &&
        durationSeconds == other.durationSeconds && vibrate == other.vibrate &&
        audioUri.None?
      ensures r.Throws? ==> r.error == NullPointer
      ensures r == Returns(true) <==>
        hours == other.hours && minutes == other.minutes &&
        durationSeconds == other.durationSeconds && vibrate == other.vibrate &&
        audioUri.Some? && audioUri == other.audioUri &&
        enabled == other.enabled && alarmType == other.alarmType
    {
      if hours == other.hours && minutes == other.minutes &&
         durationSeconds == other.durationSeconds && vibrate == other.vibrate
      then
        match audioUri
        case None => Throws(NullPointer)
        case Some(u) => Returns(Some(u) == other.audioUri && enabled == other.enabled && alarmType == other.alarmType)
      else Returns(false)
    }

    /** The label shown for the alarm's type. */
    function TypeDescr(): (r: string)
      reads this
      ensures r == "Fixed" || r == "Interval" || r == "Recurring" ||
              (|r| > 9 && r[|r| - 9..] == ": unknown")
    {
      if alarmType == TYPE_FIXED then "Fixed"
      else if alarmType == TYPE_ELAPSED then "Interval"
      else if alarmType == TYPE_RECURRING then "Recurring"
      else DecimalString(alarmType) + ": unknown"
    }
  }

  /** `sameas` is reflexive on alarms with a sound. */
  lemma SameAsReflexive(a: Alarm)
    requires a.audioUri.Some?
    ensures a.SameAs(a) == Returns(true)
  {
  }

  /** `sameas` is symmetric when both alarms have a sound. */
  lemma SameAsSymmetric(a: Alarm, b: Alarm)
    requires a.audioUri.Some? && b.audioUri.Some?
    ensures a.SameAs(b) == b.SameAs(a)
  {
  }

  /** Two alarms that differ only in `id` and `audioText` are the same. */
  lemma SameAsIgnoresIdAndText(a: Alarm, b: Alarm)
    requires a.audioUri.Some?
    requires a.alarmType == b.alarmType && a.hours == b.hours && a.minutes == b.minutes
    requires a.durationSeconds == b.durationSeconds && a.vibrate == b.vibrate
    requires a.audioUri == b.audioUri && a.enabled == b.enabled
    ensures a.SameAs(b) == Returns(true)
  {
  }

  /** The three known types have fixed labels; any other type is spelled
      out in decimal followed by ": unknown". */
  lemma TypeDescrCases(a: Alarm)
    ensures a.alarmType == TYPE_FIXED ==> a.TypeDescr() == "Fixed"
    ensures a.alarmType == TYPE_ELAPSED ==> a.TypeDescr() == "Interval"
    ensures a.alarmType == TYPE_RECURRING ==> a.TypeDescr() == "Recurring"
    ensures a.alarmType !in {TYPE_FIXED, TYPE_ELAPSED, TYPE_RECURRING} ==>
      var d := a.TypeDescr();
      |d| > 9 && d[|d| - 9..] == ": unknown" && ParseDecimal(d[..|d| - 9]) == a.alarmType
  {
    if a.alarmType !in {TYPE_FIXED, TYPE_ELAPSED, TYPE_RECURRING} {
      var d := a.TypeDescr();
      DecimalRoundTrip(a.alarmType);
      assert d[..|d| - 9] == DecimalString(a.alarmType);
    }
  }

  /** The label determines the type: no two types share a label. */
  lemma TypeDescrInjective(a: Alarm, b: Alarm)
    requires a.TypeDescr() == b.TypeDescr()
    ensures a.alarmType == b.alarmType
  {
    var known := {TYPE_FIXED, TYPE_ELAPSED, TYPE_RECURRING};
    TypeDescrCases(a);
    TypeDescrCases(b);
    if a.alarmType !in known && b.alarmType !in known {
      DecimalRoundTrip(a.alarmType);
      DecimalRoundTrip(b.alarmType);
    }
  }
}
