/**
 * The settings dialog: preset or custom Pomodoro durations, the custom minute
 * inputs with their range checks, and the clock style and time format tabs.
 * Custom input goes through JavaScript's `parseInt`, modelled here in full for
 * the radix-less call the dialog makes.
 */
module Settings {
  import opened Wrappers
  import opened Text

  // ---------------------------------------------------------------------------
  // parseInt(string) with no radix argument (section 19.2.5 of ECMA-262)

  predicate IsHexDigit(c: char) {
    IsDigit(c) || 'a' <= c <= 'f' || 'A' <= c <= 'F'
  }

  /** Is `c` a digit in base `radix` (10, or 16 after a "0x" prefix)? */
  predicate IsRadixDigit(c: char, radix: nat) {
    if radix == 16 then IsHexDigit(c) else IsDigit(c)
  }

  predicate AllRadixDigits(s: string, radix: nat) {
    forall i :: 0 <= i < |s| ==> IsRadixDigit(s[i], radix)
  }

  function RadixDigitValue(c: char, radix: nat): (d: nat)
    requires IsRadixDigit(c, radix)
  {
    if radix != 16 then DigitValue(c)
    else if IsDigit(c) then DigitValue(c)
    else if 'a' <= c <= 'f' then c as int - 'a' as int + 10
    else c as int - 'A' as int + 10
  }

  /** The number a run of base-`radix` digits denotes. */
  function RadixValue(s: string, radix: nat): nat
    requires AllRadixDigits(s, radix)
  {
    if s == [] then 0 else radix * RadixValue(s[..|s| - 1], radix) + RadixDigitValue(s[|s| - 1], radix)
  }

  /** Length of the longest prefix of `s` made of base-`radix` digits. */
  function DigitRun(s: string, radix: nat): (k: nat)
    ensures k <= |s|
    ensures forall i :: 0 <= i < k ==> IsRadixDigit(s[i], radix)
    ensures k < |s| ==> !IsRadixDigit(s[k], radix)
  {
    if s != [] && IsRadixDigit(s[0], radix) then 1 + DigitRun(s[1..], radix) else 0
  }

  /** The value of the leading digits of `s`, or `None` when `s` does not start with one. */
  function LeadingNumber(s: string, radix: nat): Option<nat> {
    var k := DigitRun(s, radix);
    if k == 0 then None else Some(RadixValue(s[..k], radix))
  }

  predicate HasHexPrefix(s: string) {
    |s| >= 2 && s[0] == '0' && (s[1] == 'x' || s[1] == 'X')
  }

  /** The sign `parseInt` applies: negative only after a leading '-'. */
  function SignOf(t: string): int {
    if t != [] && t[0] == '-' then -1 else 1
  }

  /** What follows an optional leading '+' or '-'. */
  function DropSign(t: string): string {
    if t != [] && (t[0] == '-' || t[0] == '+') then t[1..] else t
  }

  /** The unsigned number: hexadecimal after "0x"/"0X", decimal otherwise. */
  function Magnitude(u: string): Option<nat> {
    if HasHexPrefix(u) then LeadingNumber(u[2..], 16) else LeadingNumber(u, 10)
  }

  /**
   * `parseInt(s)`: skip leading whitespace, take an optional sign, switch to
   * base 16 after a "0x"/"0X" prefix, then read the longest run of digits;
   * `None` is NaN (no digit at all). Whatever follows the digits is ignored.
   */
  function ParseInt(s: string): Option<int> {
    var t := TrimStart(s);
    match Magnitude(DropSign(t))
    case None => None
    case Some(m) => Some(SignOf(t) * m)
  }

  lemma {:induction false} RadixTenIsDecimal(s: string)
    requires AllDigits(s)
    ensures RadixValue(s, 10) == DigitsValue(s)
  {
    if s != [] {
      RadixTenIsDecimal(s[..|s| - 1]);
    }
  }

  /** The leading decimal digits of `d + rest` are exactly `d` when `rest` starts with a non-digit. */
  lemma LeadingDecimal(d: string, rest: string)
    requires d != [] && AllDigits(d)
    requires rest == [] || !IsDigit(rest[0])
    ensures LeadingNumber(d + rest, 10) == Some(DigitsValue(d))
  {
    var s := d + rest;
    assert DigitRun(s, 10) == |d| by {
      assert forall i :: 0 <= i < |d| ==> s[i] == d[i];
      if |d| < |s| { assert s[|d|] == rest[0]; }
    }
    assert s[..|d|] == d;
    RadixTenIsDecimal(d);
  }

  /**
   * `parseInt` reads back a decimal numeral and ignores whatever follows it, as
   * long as the next character is not a further digit; the single exception is
   * "0" followed by 'x' or 'X', which starts a hexadecimal numeral.
   */
  lemma ParseIntDecimalPrefix(n: nat, rest: string)
    requires rest == [] || !IsDigit(rest[0])
    requires n == 0 && rest != [] ==> rest[0] != 'x' && rest[0] != 'X'
    ensures ParseInt(DecimalString(n) + rest) == Some(n)
  {
    DecimalRoundTrip(n);
    ParseIntNumeral(DecimalString(n), rest);
  }

  lemma ParseIntNumeral(d: string, rest: string)
    requires d != [] && AllDigits(d)
    requires rest == [] || !IsDigit(rest[0])
    requires d[0] == '0' && rest != [] ==> |d| > 1 || (rest[0] != 'x' && rest[0] != 'X')
    ensures ParseInt(d + rest) == Some(DigitsValue(d))
  {
    var s := d + rest;
    assert s[0] == d[0];
    assert !HasHexPrefix(s) by {
      if |s| >= 2 && s[0] == '0' && |d| > 1 {
        assert s[1] == d[1];
      }
    }
    ParseIntUnsigned(s);
    LeadingDecimal(d, rest);
  }

  /** A text that starts with a digit and no "0x" prefix is read as its leading decimal digits. */
  lemma ParseIntUnsigned(s: string)
    requires s != [] && IsDigit(s[0]) && !HasHexPrefix(s)
    ensures ParseInt(s) == LeadingNumber(s, 10)
  {
    assert !IsJsWhitespace(s[0]);
    assert TrimStart(s) == s;
    assert DropSign(s) == s && SignOf(s) == 1;
    assert Magnitude(s) == LeadingNumber(s, 10);
  }

  /** Whitespace before the number does not change what `parseInt` reads. */
  lemma ParseIntSkipsWhitespace(ws: string, s: string)
    requires AllWhitespace(ws)
    ensures ParseInt(ws + s) == ParseInt(s)
  {
    TrimStartSkips(ws, s);
  }

  /** A text with no decimal digit, such as "" or "abc", reads as NaN. */
  lemma ParseIntNoDigits(s: string)
    requires forall i :: 0 <= i < |s| ==> !IsDigit(s[i])
    ensures ParseInt(s) == None
  {
    var t := TrimStart(s);
    var u := DropSign(t);
    if u != [] {
      var j := if u == t then 0 else 1;
      assert u[0] == t[j] == s[|s| - |t| + j];
    }
    MagnitudeNone(u);
  }

  /** Without a digit up front there is no number to read. */
  lemma MagnitudeNone(u: string)
    requires u == [] || !IsDigit(u[0])
    ensures Magnitude(u) == None
  {
    assert !HasHexPrefix(u);
    assert DigitRun(u, 10) == 0;
  }

  // ---------------------------------------------------------------------------
  // Validation of custom minutes

  const MinWorkMinutes: int := 1
  const MaxWorkMinutes: int := 120
  const MinBreakMinutes: int := 1
  const MaxBreakMinutes: int := 60

  /** The minutes `validateAndSetWorkDuration` accepts, or `None` when it ignores the input. */
  function AcceptedMinutes(value: string, lo: int, hi: int): (r: Option<int>)
    ensures r.Some? <==> ParseInt(value).Some? && lo <= ParseInt(value).value <= hi
    ensures r.Some? ==> r.value == ParseInt(value).value && lo <= r.value <= hi
  {
    match ParseInt(value)
    case Some(n) => if lo <= n <= hi then Some(n) else None
    case None => None
  }

  function AcceptedWorkMinutes(value: string): Option<int> {
    AcceptedMinutes(value, MinWorkMinutes, MaxWorkMinutes)
  }

  function AcceptedBreakMinutes(value: string): Option<int> {
    AcceptedMinutes(value, MinBreakMinutes, MaxBreakMinutes)
  }

  /**
   * Typing a whole number of minutes (optionally followed by non-digits, as in
   * "30x") is accepted exactly when it is within 1..120 for work and 1..60 for
   * a break; the stored duration is then that many minutes in seconds.
   */
  lemma TypedMinutes(n: nat, rest: string)
    requires rest == [] || !IsDigit(rest[0])
    requires n == 0 && rest != [] ==> rest[0] != 'x' && rest[0] != 'X'
    ensures AcceptedWorkMinutes(DecimalString(n) + rest) == if 1 <= n <= 120 then Some(n) else None
    ensures AcceptedBreakMinutes(DecimalString(n) + rest) == if 1 <= n <= 60 then Some(n) else None
  {
    ParseIntDecimalPrefix(n, rest);
  }

  /** Every duration the custom inputs can set is a whole number of minutes within range. */
  lemma AcceptedDurationRange(value: string)
    ensures AcceptedWorkMinutes(value).Some? ==> 60 <= AcceptedWorkMinutes(value).value * 60 <= 7200
    ensures AcceptedBreakMinutes(value).Some? ==> 60 <= AcceptedBreakMinutes(value).value * 60 <= 3600
  {
  }

  // ---------------------------------------------------------------------------
  // Preset or custom

  const PresetWorkMinutes: seq<int> := [20, 25, 30, 45]
  const PresetBreakMinutes: seq<int> := [5, 10, 15]

  /**
   * `presets.includes(duration / 60)`: JavaScript divides exactly, so the
   * quotient is one of the presets only when the duration is a whole number of
   * minutes.
   */
  predicate IsPreset(presets: seq<int>, duration: int) {
    duration % 60 == 0 && duration / 60 in presets
  }

  /** `isCustomWorkDuration` / `isCustomBreakDuration`. */
  predicate IsCustom(customSelected: bool, presets: seq<int>, duration: int) {
    customSelected || !IsPreset(presets, duration)
  }

  /**
   * With the custom flag clear, a duration of `m` whole minutes counts as custom
   * exactly when `m` is not a preset, and a duration that is not a whole number
   * of minutes always counts as custom.
   */
  lemma CustomClassification(presets: seq<int>, m: int, extra: int)
    requires 0 < extra < 60
    ensures IsCustom(false, presets, m * 60) <==> m !in presets
    ensures IsCustom(false, presets, m * 60 + extra)
  {
    assert (m * 60) / 60 == m;
    assert (m * 60 + extra) % 60 == extra;
  }

  /** A preset number of minutes, stored in seconds, is recognised as that preset. */
  lemma WholeMinutesPreset(presets: seq<int>, m: int)
    requires m in presets
    ensures IsPreset(presets, m * 60) && !IsCustom(false, presets, m * 60)
    ensures (forall i :: 0 <= i < |presets| ==> presets[i] >= 1) ==> m * 60 >= 60
  {
    CustomClassification(presets, m, 1);
  }

  /** The options of the two duration selects. */
  const WorkOptions: set<string> := {"20", "25", "30", "45", "custom"}
  const BreakOptions: set<string> := {"5", "10", "15", "custom"}

  /** The minutes a preset option of the selects stands for. */
  function OptionMinutes(v: string): int {
    if v == "20" then 20 else if v == "25" then 25 else if v == "30" then 30
    else if v == "45" then 45 else if v == "5" then 5 else if v == "10" then 10 else 15
  }

  /** Each preset option of the selects reads as its own number of minutes, a preset. */
  lemma PresetOptionParses(v: string)
    requires v in WorkOptions + BreakOptions && v != "custom"
    ensures ParseInt(v) == Some(OptionMinutes(v)) && OptionMinutes(v) >= 5
    ensures v in WorkOptions ==> OptionMinutes(v) in PresetWorkMinutes
    ensures v in BreakOptions ==> OptionMinutes(v) in PresetBreakMinutes
  {
    if v == "20" || v == "25" || v == "30" || v == "45" {
      assert v !in BreakOptions;
    } else {
      assert v == "5" || v == "10" || v == "15";
      assert v !in WorkOptions;
    }
    assert AllDigits(v) && v[0] != '0' && DigitsValue(v) == OptionMinutes(v) by {
      if v == "20" {} else if v == "25" {} else if v == "30" {} else if v == "45" {}
      else if v == "5" {} else if v == "10" {} else {}
    }
    ParseIntNumeral(v, "");
    assert v + "" == v;
  }

  /** `String(duration / 60)` for a duration of whole minutes. */
  function MinutesText(duration: int): string
    requires duration >= 0 && duration % 60 == 0
  {
    DecimalString(duration / 60)
  }

  // ---------------------------------------------------------------------------
  // The dialog's state and handlers

  /**
   * The dialog's own cells (custom texts and custom flags) together with the
   * parent's cells it writes through the setter props (durations, clock style,
   * time format).
   */
  class SettingsDialog {
    var customWorkDuration: string
    var customBreakDuration: string
    var isCustomWorkSelected: bool
    var isCustomBreakSelected: bool
    var workDuration: int
    var breakDuration: int
    var enableClockBounce: bool
    var use24Hour: bool

    /** Durations are whole, positive numbers of minutes: every setter writes `n * 60` with `n >= 1`. */
    ghost predicate Valid()
      reads this
    {
      workDuration >= 60 && workDuration % 60 == 0 && breakDuration >= 60 && breakDuration % 60 == 0
    }

    constructor (workDuration: int, breakDuration: int, enableClockBounce: bool, use24Hour: bool)
      requires workDuration >= 60 && workDuration % 60 == 0 && breakDuration >= 60 && breakDuration % 60 == 0
      ensures Valid()
      ensures this.workDuration == workDuration && this.breakDuration == breakDuration
      ensures this.enableClockBounce == enableClockBounce && this.use24Hour == use24Hour
      ensures customWorkDuration == "" && customBreakDuration == ""
      ensures !isCustomWorkSelected && !isCustomBreakSelected
    {
      this.workDuration := workDuration;
      this.breakDuration := breakDuration;
      this.enableClockBounce := enableClockBounce;
      this.use24Hour := use24Hour;
      customWorkDuration := "";
      customBreakDuration := "";
      isCustomWorkSelected := false;
      isCustomBreakSelected := false;
    }

    predicate IsCustomWorkDuration()
      reads this
    {
      IsCustom(isCustomWorkSelected, PresetWorkMinutes, workDuration)
    }

    predicate IsCustomBreakDuration()
      reads this
    {
      IsCustom(isCustomBreakSelected, PresetBreakMinutes, breakDuration)
    }

    /** Sets the work duration when `parseInt` reads 1..120 minutes from the text; ignores it otherwise. */
    method ValidateAndSetWorkDuration(value: string)
      requires Valid()
      modifies this`workDuration
      ensures Valid()
      ensures AcceptedWorkMinutes(value).Some? ==> workDuration == AcceptedWorkMinutes(value).value * 60
      ensures AcceptedWorkMinutes(value).None? ==> workDuration == old(workDuration)
    {
      var accepted := AcceptedWorkMinutes(value);
      if accepted.Some? {
        workDuration := accepted.value * 60;
      }
    }

    /** Sets the break duration when `parseInt` reads 1..60 minutes from the text; ignores it otherwise. */
    method ValidateAndSetBreakDuration(value: string)
      requires Valid()
      modifies this`breakDuration
      ensures Valid()
      ensures AcceptedBreakMinutes(value).Some? ==> breakDuration == AcceptedBreakMinutes(value).value * 60
      ensures AcceptedBreakMinutes(value).None? ==> breakDuration == old(breakDuration)
    {
      var accepted := AcceptedBreakMinutes(value);
      if accepted.Some? {
        breakDuration := accepted.value * 60;
      }
    }

    /**
     * A choice in the work select: "custom" raises the custom flag and fills the
     * custom text with the current minutes, leaving the duration; a preset clears
     * the flag and sets the duration to that many minutes.
     */
    method HandleWorkDurationChange(value: string)
      requires Valid() && value in WorkOptions
      modifies this
      ensures Valid()
      ensures value == "custom" ==>
        isCustomWorkSelected && customWorkDuration == MinutesText(workDuration)
        && workDuration == old(workDuration)
      ensures value != "custom" ==>
        !isCustomWorkSelected && workDuration == OptionMinutes(value) * 60
        && !IsCustomWorkDuration() && customWorkDuration == old(customWorkDuration)
      ensures breakDuration == old(breakDuration) && customBreakDuration == old(customBreakDuration)
      ensures isCustomBreakSelected == old(isCustomBreakSelected)
      ensures enableClockBounce == old(enableClockBounce) && use24Hour == old(use24Hour)
    {
      if value == "custom" {
        SelectCustomWork();
      } else {
        SelectPresetWorkOption(value);
      }
    }

    /** The "custom" entry of the work select. */
    method SelectCustomWork()
      requires Valid()
      modifies this`isCustomWorkSelected, this`customWorkDuration
      ensures Valid()
      ensures isCustomWorkSelected && customWorkDuration == MinutesText(workDuration)
    {
      isCustomWorkSelected := true;
      customWorkDuration := MinutesText(workDuration);
    }

    /** A preset entry of the work select: `parseInt` reads its minutes. */
    method SelectPresetWorkOption(value: string)
      requires Valid() && value in WorkOptions && value != "custom"
      modifies this`isCustomWorkSelected, this`workDuration
      ensures Valid()
      ensures !isCustomWorkSelected && workDuration == OptionMinutes(value) * 60
      ensures !IsCustomWorkDuration()
    {
      PresetOptionParses(value);
      var minutes := ParseInt(value).value;
      SelectPresetWork(minutes);
    }

    /** A preset entry of the work select, once `parseInt` has read its minutes. */
    method SelectPresetWork(minutes: int)
      requires Valid() && minutes in PresetWorkMinutes
      modifies this`isCustomWorkSelected, this`workDuration
      ensures Valid()
      ensures !isCustomWorkSelected && workDuration == minutes * 60
      ensures !IsCustomWorkDuration()
    {
      isCustomWorkSelected := false;
      WholeMinutesPreset(PresetWorkMinutes, minutes);
      workDuration := minutes * 60;
    }

    /** The same for the break select. */
    method HandleBreakDurationChange(value: string)
      requires Valid() && value in BreakOptions
      modifies this
      ensures Valid()
      ensures value == "custom" ==>
        isCustomBreakSelected && customBreakDuration == MinutesText(breakDuration)
        && breakDuration == old(breakDuration)
      ensures value != "custom" ==>
        !isCustomBreakSelected && breakDuration == OptionMinutes(value) * 60
        && !IsCustomBreakDuration() && customBreakDuration == old(customBreakDuration)
      ensures workDuration == old(workDuration) && customWorkDuration == old(customWorkDuration)
      ensures isCustomWorkSelected == old(isCustomWorkSelected)
      ensures enableClockBounce == old(enableClockBounce) && use24Hour == old(use24Hour)
    {
      if value == "custom" {
        SelectCustomBreak();
      } else {
        SelectPresetBreakOption(value);
      }
    }

    /** The "custom" entry of the break select. */
    method SelectCustomBreak()
      requires Valid()
      modifies this`isCustomBreakSelected, this`customBreakDuration
      ensures Valid()
      ensures isCustomBreakSelected && customBreakDuration == MinutesText(breakDuration)
    {
      isCustomBreakSelected := true;
      customBreakDuration := MinutesText(breakDuration);
    }

    /** A preset entry of the break select: `parseInt` reads its minutes. */
    method SelectPresetBreakOption(value: string)
      requires Valid() && value in BreakOptions && value != "custom"
      modifies this`isCustomBreakSelected, this`breakDuration
      ensures Valid()
      ensures !isCustomBreakSelected && breakDuration == OptionMinutes(value) * 60
      ensures !IsCustomBreakDuration()
    {
      PresetOptionParses(value);
      var minutes := ParseInt(value).value;
      SelectPresetBreak(minutes);
    }

    /** A preset entry of the break select, once `parseInt` has read its minutes. */
    method SelectPresetBreak(minutes: int)
      requires Valid() && minutes in PresetBreakMinutes
      modifies this`isCustomBreakSelected, this`breakDuration
      ensures Valid()
      ensures !isCustomBreakSelected && breakDuration == minutes * 60
      ensures !IsCustomBreakDuration()
    {
      isCustomBreakSelected := false;
      WholeMinutesPreset(PresetBreakMinutes, minutes);
      breakDuration := minutes * 60;
    }

    /**
     * Typing in the custom work input: the text always follows the input; only a
     * non-empty text is validated, so clearing the field never changes the duration.
     */
    method HandleCustomWorkDurationChange(value: string)
      requires Valid()
      modifies this
      ensures Valid()
      ensures customWorkDuration == value
      ensures value == [] || AcceptedWorkMinutes(value).None? ==> workDuration == old(workDuration)
      ensures value != [] && AcceptedWorkMinutes(value).Some? ==> workDuration == AcceptedWorkMinutes(value).value * 60
      ensures breakDuration == old(breakDuration) && customBreakDuration == old(customBreakDuration)
      ensures isCustomWorkSelected == old(isCustomWorkSelected) && isCustomBreakSelected == old(isCustomBreakSelected)
      ensures enableClockBounce == old(enableClockBounce) && use24Hour == old(use24Hour)
    {
      customWorkDuration := value;
      if value != [] {
        ValidateAndSetWorkDuration(value);
      }
    }

    /** Typing in the custom break input. */
    method HandleCustomBreakDurationChange(value: string)
      requires Valid()
      modifies this
      ensures Valid()
      ensures customBreakDuration == value
      ensures value == [] || AcceptedBreakMinutes(value).None? ==> breakDuration == old(breakDuration)
      ensures value != [] && AcceptedBreakMinutes(value).Some? ==> breakDuration == AcceptedBreakMinutes(value).value * 60
      ensures workDuration == old(workDuration) && customWorkDuration == old(customWorkDuration)
      ensures isCustomWorkSelected == old(isCustomWorkSelected) && isCustomBreakSelected == old(isCustomBreakSelected)
      ensures enableClockBounce == old(enableClockBounce) && use24Hour == old(use24Hour)
    {
      customBreakDuration := value;
      if value != [] {
        ValidateAndSetBreakDuration(value);
      }
    }

    /** The clock style tab: floating exactly when the tab's value is "floating". */
    method HandleClockAnimationChange(value: string)
      modifies this`enableClockBounce
      ensures enableClockBounce <==> value == "floating"
    {
      enableClockBounce := value == "floating";
    }

    /** The time format tab: 24-hour exactly when the tab's value is "24hour". */
    method HandleTimeFormatChange(value: string)
      modifies this`use24Hour
      ensures use24Hour <==> value == "24hour"
    {
      use24Hour := value == "24hour";
    }
  }
}
