/**
 * The display arithmetic of the screensaver widgets: the Pomodoro countdown as
 * `MM:SS`, track positions as `m:ss`, truncation of track titles and artist
 * lines, the timer's labels and which playback panel is shown.
 */
module TimeFormat {
  import opened Wrappers
  import opened Text

  // ---------------------------------------------------------------------------
  // Countdown and track time

  /**
   * `formatPomodoroTime(seconds)`: whole minutes and the remaining seconds, each
   * rendered in decimal and left-padded with '0' to two characters, joined by ':'.
   * The countdown never goes negative, so floor division and `%` agree with Dafny's.
   */
  function FormatPomodoroTime(seconds: nat): string {
    PadStart(DecimalString(seconds / 60), 2, '0') + ":" + PadStart(DecimalString(seconds % 60), 2, '0')
  }

  /**
   * `formatTime(ms)` of the playback panel: whole seconds of `ms`, then minutes
   * unpadded and seconds padded to two characters.
   */
  function FormatTrackTime(ms: nat): string {
    var seconds := ms / 1000;
    DecimalString(seconds / 60) + ":" + PadStart(DecimalString(seconds % 60), 2, '0')
  }

  /** Index of the first ':' in `s`, or `|s|` when there is none. */
  function FirstColon(s: string): (k: nat)
    ensures k <= |s|
    ensures k < |s| ==> s[k] == ':'
    ensures forall j :: 0 <= j < k ==> s[j] != ':'
  {
    if s == [] then 0 else if s[0] == ':' then 0 else 1 + FirstColon(s[1..])
  }

  /**
   * Reads a clock string `M:S` back as `M * 60 + S`: both fields must be
   * non-empty decimal numerals. The reference decoder for the two formats above.
   */
  function ParseClock(s: string): Option<nat> {
    var k := FirstColon(s);
    if k == |s| then None
    else
      var m, r := s[..k], s[k + 1..];
      if m != [] && r != [] && AllDigits(m) && AllDigits(r)
      then Some(DigitsValue(m) * 60 + DigitsValue(r))
      else None
  }

  /** A `M:S` string built from two numerals is read back field by field. */
  lemma ParseClockFields(m: string, r: string)
    requires m != [] && r != [] && AllDigits(m) && AllDigits(r)
    ensures ParseClock(m + ":" + r) == Some(DigitsValue(m) * 60 + DigitsValue(r))
  {
    var s := m + (":" + r);
    assert s == m + ":" + r;
    FirstColonAfterDigits(m, ":" + r);
    SplitAtColon(m, r);
    ParseClockAt(s, |m|);
  }

  /** The two fields around the separator are recovered by slicing. */
  lemma SplitAtColon(m: string, r: string)
    ensures (m + (":" + r))[..|m|] == m
    ensures (m + (":" + r))[|m| + 1..] == r
  {
  }

  /** Once the first ':' is known, the reading depends only on the two slices around it. */
  lemma ParseClockAt(s: string, k: nat)
    requires FirstColon(s) == k < |s|
    ensures ParseClock(s) == if s[..k] != [] && s[k + 1..] != [] && AllDigits(s[..k]) && AllDigits(s[k + 1..])
      then Some(DigitsValue(s[..k]) * 60 + DigitsValue(s[k + 1..])) else None
  {
  }

  /** A numeral holds no ':', so the first ':' after it is the first ':' of the whole string. */
  lemma {:induction false} FirstColonAfterDigits(m: string, rest: string)
    requires AllDigits(m) && rest != [] && rest[0] == ':'
    ensures FirstColon(m + rest) == |m|
    decreases |m|
  {
    if m == [] {
      assert m + rest == rest;
    } else {
      assert (m + rest)[0] == m[0] && IsDigit(m[0]);
      assert (m + rest)[1..] == m[1..] + rest;
      FirstColonAfterDigits(m[1..], rest);
    }
  }

  /** A zero-padded numeral still denotes its number. */
  lemma PaddedNumeral(n: nat, width: nat)
    ensures AllDigits(PadStart(DecimalString(n), width, '0'))
    ensures DigitsValue(PadStart(DecimalString(n), width, '0')) == n
  {
    DecimalRoundTrip(n);
    PadZerosKeepsValue(DecimalString(n), width);
  }

  /** Numbers below 100 take at most two digits, so padding them to two gives exactly two. */
  lemma TwoDigitsBelowHundred(n: nat)
    requires n < 100
    ensures |DecimalString(n)| <= 2 && |PadStart(DecimalString(n), 2, '0')| == 2
  {
    if n >= 10 {
      assert |DecimalString(n / 10)| == 1;
    }
  }

  /**
   * The countdown text is `<minutes>:<seconds>` where the seconds field is
   * exactly two digits denoting `seconds % 60` (so 00..59) and the minutes field
   * has at least two digits and denotes `seconds / 60`; it is never cut short,
   * even from 100 minutes on.
   */
  lemma PomodoroTimeFields(seconds: nat)
    ensures var text := FormatPomodoroTime(seconds);
      var m := PadStart(DecimalString(seconds / 60), 2, '0');
      var sec := PadStart(DecimalString(seconds % 60), 2, '0');
      && text == m + ":" + sec
      && |sec| == 2 && AllDigits(sec) && DigitsValue(sec) == seconds % 60 < 60
      && |m| >= 2 && AllDigits(m) && DigitsValue(m) == seconds / 60
      && m[|m| - |DecimalString(seconds / 60)|..] == DecimalString(seconds / 60)
  {
    var mins, secs := seconds / 60, seconds % 60;
    assert secs < 60;
    PaddedNumeral(mins, 2);
    PaddedNumeral(secs, 2);
    TwoDigitsBelowHundred(secs);
  }

  /** Reading the countdown text back as minutes * 60 + seconds gives the countdown. */
  lemma PomodoroTimeRoundTrip(seconds: nat)
    ensures ParseClock(FormatPomodoroTime(seconds)) == Some(seconds)
  {
    var mins, secs := seconds / 60, seconds % 60;
    var m, sec := PadStart(DecimalString(mins), 2, '0'), PadStart(DecimalString(secs), 2, '0');
    PaddedNumeral(mins, 2);
    PaddedNumeral(secs, 2);
    ClockRoundTrip(FormatPomodoroTime(seconds), m, sec, seconds);
  }

  lemma ClockRoundTrip(text: string, m: string, sec: string, value: nat)
    requires text == m + ":" + sec
    requires m != [] && sec != [] && AllDigits(m) && AllDigits(sec)
    requires DigitsValue(m) * 60 + DigitsValue(sec) == value
    ensures ParseClock(text) == Some(value)
  {
    ParseClockFields(m, sec);
  }

  /**
   * The track time is the unpadded minutes of `ms / 1000`, a ':', and two digits
   * holding the seconds within the minute.
   */
  lemma TrackTimeFields(ms: nat)
    ensures var text := FormatTrackTime(ms);
      var sec := PadStart(DecimalString(ms / 1000 % 60), 2, '0');
      && text == DecimalString(ms / 1000 / 60) + ":" + sec
      && |sec| == 2 && AllDigits(sec) && DigitsValue(sec) == ms / 1000 % 60 < 60
  {
    var secs := ms / 1000 % 60;
    assert secs < 60;
    PaddedNumeral(secs, 2);
    TwoDigitsBelowHundred(secs);
  }

  /** Reading a track time back gives the whole seconds of the position. */
  lemma TrackTimeRoundTrip(ms: nat)
    ensures ParseClock(FormatTrackTime(ms)) == Some(ms / 1000)
  {
    var seconds := ms / 1000;
    var mins, secs := seconds / 60, seconds % 60;
    var m, sec := DecimalString(mins), PadStart(DecimalString(secs), 2, '0');
    PaddedNumeral(secs, 2);
    DecimalRoundTrip(mins);
    ClockRoundTrip(FormatTrackTime(ms), m, sec, seconds);
  }

  // ---------------------------------------------------------------------------
  // Truncation of titles

  /** `truncateText(text, maxLength)`. */
  function Truncate(text: string, maxLength: nat): string {
    if |text| > maxLength then text[..maxLength] + "..." else text
  }

  /**
   * Text within the limit is shown unchanged; longer text becomes its first
   * `maxLength` characters followed by "...", so it is `maxLength + 3` long.
   * Either way the shown text starts with as much of the original as fits.
   */
  lemma TruncateSpec(text: string, maxLength: nat)
    ensures var r := Truncate(text, maxLength);
      && (|text| <= maxLength ==> r == text)
      && (|text| > maxLength ==> |r| == maxLength + 3 && r[maxLength..] == "...")
      && |r| <= maxLength + 3
      && (var n := if |text| < maxLength then |text| else maxLength; r[..n] == text[..n])
  {
  }

  /** Track title line: the name cut to 25 characters. */
  function TrackTitle(name: string): string {
    Truncate(name, 25)
  }

  /** Artist line: the names joined with ", " in their order, cut to 30 characters. */
  function ArtistLine(names: seq<string>): string {
    Truncate(Join(names, ", "), 30)
  }

  /** A single artist whose name fits is shown as is; a short list reads as the names in order. */
  lemma ArtistLineShort(names: seq<string>)
    requires names != [] && TotalLength(names) + 2 * (|names| - 1) <= 30
    ensures ArtistLine(names) == Join(names, ", ")
    ensures |names| == 1 ==> ArtistLine(names) == names[0]
  {
    var j := Join(names, ", ");
    assert |j| <= 30 by {
      JoinLength(names, ", ");
    }
    assert ArtistLine(names) == j;
    if |names| == 1 {
      assert j == names[0];
    }
  }

  // ---------------------------------------------------------------------------
  // Timer labels

  /** The cycle number shown: one display cycle is a focus phase and the break after it. */
  function DisplayCycle(cycle: nat): (n: nat)
    ensures n >= 1 && 2 * (n - 1) <= cycle < 2 * n
  {
    cycle / 2 + 1
  }

  function PhaseLabel(isBreak: bool): string {
    if isBreak then "Break" else "Focus"
  }

  /** Headline of the completion overlay: names the phase that just ran out, between two sparkles. */
  function CompletionHeadline(isBreak: bool): string {
    "✨ " + PhaseLabel(isBreak) + " Complete! ✨"
  }

  /** Follow-up of the completion overlay: suggests the other phase. */
  function CompletionHint(isBreak: bool): string {
    "Great work! Time to " + (if isBreak then "focus" else "take a break")
  }

  /** The headline names the current phase after its leading sparkle, and the hint ends with the other one. */
  lemma CompletionLabels(isBreak: bool)
    ensures var h := CompletionHeadline(isBreak);
      |h| >= 7 && h[2..7] == (if isBreak then "Break" else "Focus")
      && h[..2] == "✨ " && h[|h| - 12..] == " Complete! ✨"
    ensures var hint := CompletionHint(isBreak);
      |hint| >= 5 && hint[|hint| - 5..] == (if isBreak then "focus" else "break")
  {
  }

  /** Length of the phase being timed, as the timer panel reads it. */
  function CurrentDuration(isBreak: bool, workDuration: int, breakDuration: int): (d: int)
    ensures isBreak ==> d == breakDuration
    ensures !isBreak ==> d == workDuration
  {
    if isBreak then breakDuration else workDuration
  }

  // ---------------------------------------------------------------------------
  // Playback panel

  datatype PlayerView = Hidden | ConnectPrompt | NothingPlaying | NowPlaying

  /**
   * Which playback panel is rendered: nothing while loading, the connect button
   * when disconnected, "No music playing" without a current item, else the player.
   */
  function SelectView(isLoading: bool, isConnected: bool, hasItem: bool): (v: PlayerView)
    ensures v == Hidden <==> isLoading
    ensures v == ConnectPrompt <==> !isLoading && !isConnected
    ensures v == NothingPlaying <==> !isLoading && isConnected && !hasItem
    ensures v == NowPlaying <==> !isLoading && isConnected && hasItem
  {
    if isLoading then Hidden
    else if !isConnected then ConnectPrompt
    else if !hasItem then NothingPlaying
    else NowPlaying
  }
}
