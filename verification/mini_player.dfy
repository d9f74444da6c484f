/**
 * The mini player's helpers: the `m:ss` time label, the five-second skips, the progress
 * percentage, when the player shows at all and what its button does.
 *
 * A time is `Some(seconds)` when it is finite and `None` when it is `NaN` or infinite.
 */
module MiniPlayer {
  import opened Wrappers
  import opened Spectrum
  import opened Text
  import opened Audio

  /** `Math.trunc`: the integer part, rounding toward zero. */
  function Trunc(x: real): (r: int)
    ensures x >= 0.0 ==> r == x.Floor
    ensures x < 0.0 ==> x <= r as real < x + 1.0 && r <= 0
  {
    if x >= 0.0 then x.Floor else -((-x).Floor)
  }

  /** JavaScript's `x % 60`: the remainder carries the sign of `x`. */
  function Rem60(x: real): (r: real)
    ensures x >= 0.0 ==> 0.0 <= r < 60.0 && r == x - 60.0 * (x / 60.0).Floor as real
    ensures x < 0.0 ==> -60.0 < r <= 0.0
  {
    var q := x / 60.0;
    x - 60.0 * Trunc(q) as real
  }

  /**
   * `formatTime`: `0:00` for a non-finite time, otherwise the whole minutes, a colon, and
   * the whole seconds of the remainder padded to two characters.
   */
  function FormatTime(seconds: Option<real>): (s: string)
    ensures seconds.None? ==> s == "0:00"
    ensures |s| >= 3
  {
    if seconds.None? then "0:00"
    else
      var t := seconds.value;
      var mins := (t / 60.0).Floor;
      var secs := Rem60(t).Floor;
      IntString(mins) + ":" + PadStart2(IntString(secs))
  }

  /** The seconds field of a non-negative time, for a whole number of seconds below 60: two digits. */
  lemma TwoDigitSeconds(secs: nat)
    requires secs < 60
    ensures PadStart2(IntString(secs)) == [DigitChar(secs / 10), DigitChar(secs % 10)]
  {
    if secs >= 10 {
      assert DecimalString(secs) == DecimalString(secs / 10) + [DigitChar(secs % 10)];
    }
  }

  /**
   * For a non-negative time the label is the minutes, a colon, and two digits for the
   * seconds left over, which lie in 0..59.
   */
  lemma FormatTimeShape(t: real)
    requires t >= 0.0
    ensures var mins := (t / 60.0).Floor;
      var secs := t.Floor - 60 * mins;
      && mins >= 0 && 0 <= secs < 60
      && FormatTime(Some(t)) == DecimalString(mins) + ":" + [DigitChar(secs / 10), DigitChar(secs % 10)]
  {
    var mins := (t / 60.0).Floor;
    var rem := Rem60(t);
    assert rem == t - 60.0 * mins as real;
    assert rem.Floor == t.Floor - 60 * mins;
    TwoDigitSeconds(rem.Floor);
  }

  /** Two digits written for a number below 60 read back as that number. */
  lemma TwoDigitsValue(secs: nat)
    requires secs < 60
    ensures var tail := [DigitChar(secs / 10), DigitChar(secs % 10)];
      AllDigits(tail) && DecimalValue(tail) == secs
  {
    var tail := [DigitChar(secs / 10), DigitChar(secs % 10)];
    assert tail[..1] == [DigitChar(secs / 10)] && tail[..1][..0] == [];
    assert DigitValue(tail[0]) == secs / 10 && DigitValue(tail[1]) == secs % 10;
    assert DecimalValue(tail[..1]) == secs / 10;
  }

  /**
   * `shown` reads back as `total` seconds: digits for the minutes, a colon, two digits for
   * the seconds, and minutes times 60 plus seconds is `total`.
   */
  predicate ReadsBackAs(shown: string, total: int)
  {
    && |shown| >= 4 && shown[|shown| - 3] == ':'
    && AllDigits(shown[..|shown| - 3]) && AllDigits(shown[|shown| - 2..])
    && DecimalValue(shown[..|shown| - 3]) * 60 + DecimalValue(shown[|shown| - 2..]) == total
  }

  /** Reading the label back: its minutes times 60 plus its seconds is the time's whole seconds. */
  lemma FormatTimeRoundTrip(t: real)
    requires t >= 0.0
    ensures ReadsBackAs(FormatTime(Some(t)), t.Floor)
  {
    FormatTimeShape(t);
    var mins := (t / 60.0).Floor;
    var secs := t.Floor - 60 * mins;
    ReadMinutesSeconds(FormatTime(Some(t)), mins, secs, t.Floor);
  }

  /** A label made of the minutes and the two-digit seconds reads back as `mins * 60 + secs`. */
  lemma ReadMinutesSeconds(s: string, mins: nat, secs: nat, total: int)
    requires secs < 60 && total == mins * 60 + secs
    requires s == DecimalString(mins) + ":" + [DigitChar(secs / 10), DigitChar(secs % 10)]
    ensures ReadsBackAs(s, total)
  {
    var head := DecimalString(mins);
    var tail := [DigitChar(secs / 10), DigitChar(secs % 10)];
    assert s[..|s| - 3] == head;
    assert s[|s| - 2..] == tail;
    DecimalRoundTrip(mins);
    TwoDigitsValue(secs);
  }

  /** For instance 125.7 seconds reads `2:05`. */
  lemma FormatTimeExample()
    ensures FormatTime(Some(125.7)) == "2:05"
  {
    FormatTimeShape(125.7);
    assert (125.7 / 60.0).Floor == 2;
    assert 125.7.Floor == 125;
  }

  /** `Math.max(0, currentTime - 5)`: five seconds back, never before the start. */
  function SkipBack(currentTime: real): (r: real)
    ensures r >= 0.0 && r >= currentTime - 5.0
    ensures currentTime >= 5.0 ==> r == currentTime - 5.0
    ensures currentTime <= 5.0 ==> r == 0.0
  {
    MaxReal(0.0, currentTime - 5.0)
  }

  /** `Math.min(duration, currentTime + 5)`: five seconds on, never past the end. */
  function SkipForward(currentTime: real, duration: real): (r: real)
    ensures r <= duration && r <= currentTime + 5.0
    ensures currentTime + 5.0 <= duration ==> r == currentTime + 5.0
    ensures currentTime + 5.0 >= duration ==> r == duration
  {
    MinReal(duration, currentTime + 5.0)
  }

  /** From a position inside the track both skips land inside the track. */
  lemma SkipsStayInTrack(currentTime: real, duration: real)
    requires 0.0 <= currentTime <= duration
    ensures 0.0 <= SkipBack(currentTime) <= currentTime
    ensures currentTime <= SkipForward(currentTime, duration) <= duration
  {
  }

  /** Away from both ends, skipping forward and then back returns to the same position. */
  lemma SkipForwardThenBack(currentTime: real, duration: real)
    requires currentTime >= 0.0 && currentTime + 5.0 <= duration
    ensures SkipBack(SkipForward(currentTime, duration)) == currentTime
  {
  }

  /** `duration > 0 ? currentTime / duration * 100 : 0`. */
  function ProgressPercent(currentTime: real, duration: real): (p: real)
    ensures duration <= 0.0 ==> p == 0.0
    ensures 0.0 <= currentTime <= duration && duration > 0.0 ==> 0.0 <= p <= 100.0
    ensures currentTime == duration && duration > 0.0 ==> p == 100.0
    ensures currentTime == 0.0 ==> p == 0.0
  {
    if duration > 0.0 then
      var q := currentTime / duration;
      assert 0.0 <= currentTime <= duration ==> q == Fraction(currentTime, duration);
      q * 100.0
    else 0.0
  }

  /** The player shows only while a file is the source. */
  predicate Visible(audioSource: Option<SourceKind>)
    ensures audioSource.None? ==> !Visible(audioSource)
    ensures audioSource == Some(MicrophoneSource) ==> !Visible(audioSource)
    ensures audioSource == Some(FileSource) ==> Visible(audioSource)
  {
    audioSource == Some(FileSource)
  }

  datatype Control = PauseControl | PlayControl

  /** The play/pause button pauses while playing and plays otherwise. */
  function PlayPause(isPlaying: bool): (c: Control)
    ensures c == PauseControl <==> isPlaying
  {
    if isPlaying then PauseControl else PlayControl
  }

  /** A loaded and playing file shows the player with its pause control; a stopped provider hides it. */
  lemma PlayerFollowsProvider(s: SourceState)
    requires s.Valid()
    ensures var t := AfterLoadFile(s); Visible(t.audioSource) && PlayPause(t.isPlaying) == PauseControl
    ensures !Visible(AfterStop(s).audioSource)
    ensures var t := AfterPlaybackEnded(AfterLoadFile(s)); Visible(t.audioSource) && PlayPause(t.isPlaying) == PlayControl
  {
  }
}
