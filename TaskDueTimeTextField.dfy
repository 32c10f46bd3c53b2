/**
 * The due-time field (presentation/components/TaskDueTimeTextField.kt): an
 * `HH:MM` keystroke mask, the time picker's `%02d:%02d` output, and the parse
 * of the field's text into the picker's initial hour and minute. The clock
 * the parse falls back on is a parameter.
 */
module TaskDueTimeTextField {
  import opened Wrappers
  import opened Text
  import DateFormatter

  /** The mask applied on every keystroke: the first four digits, with ':' after the second. */
  function MaskTime(input: string): (r: string)
    ensures |r| <= 5
    ensures 2 < |r| ==> r[2] == ':'
    ensures forall i :: 0 <= i < |r| && i != 2 ==> IsDigit(r[i])
  {
    var digits := DateFormatter.Take(DigitsOf(input), 4);
    if |digits| == 0 then ""
    else if |digits| == 1 then digits
    else if |digits| == 2 then digits + ":"
    else digits[..2] + ":" + digits[2..]
  }

  /** The mask by digit count: 0 → "", 1 → "d", 2 → "dd:", 3 → "dd:d", 4 or more → "dd:dd". */
  lemma MaskTimeByCount(input: string)
    ensures var d := DigitsOf(input);
      && (|d| == 0 ==> MaskTime(input) == "")
      && (|d| == 1 ==> MaskTime(input) == d)
      && (|d| == 2 ==> MaskTime(input) == d + ":")
      && (|d| == 3 ==> MaskTime(input) == d[..2] + ":" + d[2..])
      && (|d| >= 4 ==> MaskTime(input) == d[..2] + ":" + d[2..4])
  {
  }

  /** Only the first four digits are kept, in order; every other character is discarded. */
  lemma MaskTimeKeepsFirstFourDigits(input: string)
    ensures DigitsOf(MaskTime(input)) == DateFormatter.Take(DigitsOf(input), 4)
  {
    var d := DateFormatter.Take(DigitsOf(input), 4);
    if |d| == 1 {
      DigitsOfAllDigits(d);
    } else if |d| == 2 {
      DigitsOfAppend(d, ":");
      DigitsOfAllDigits(d);
    } else if |d| >= 3 {
      DigitsOfAppend(d[..2] + ":", d[2..]);
      DigitsOfAppend(d[..2], ":");
      DigitsOfAllDigits(d[..2]);
      DigitsOfAllDigits(d[2..]);
      assert d[..2] + d[2..] == d;
    }
  }

  /** Feeding the masked text back into the mask changes nothing. */
  lemma MaskTimeIdempotent(input: string)
    ensures MaskTime(MaskTime(input)) == MaskTime(input)
  {
    MaskTimeKeepsFirstFourDigits(input);
    var d := DateFormatter.Take(DigitsOf(input), 4);
    assert DateFormatter.Take(d, 4) == d;
  }

  /** Text of the form dd:dd is left unchanged by the keystroke mask. */
  lemma PatternTextStable(s: string)
    requires |s| == 5 && AllDigits(s[..2]) && s[2] == ':' && AllDigits(s[3..])
    ensures MaskTime(s) == s
  {
    var h, m := s[..2], s[3..];
    assert s == h + ":" + m;
    DigitsOfAppend(h + ":", m);
    DigitsOfAppend(h, ":");
    DigitsOfAllDigits(h);
    DigitsOfAllDigits(m);
    assert DigitsOf(s) == h + m;
    assert (h + m)[..2] == h && (h + m)[2..] == m;
  }

  /**
   * The `\d{2}:\d{2}` pattern the picker's initial time must match in full.
   * Text that matches it is a fixed point of the keystroke mask, so the field
   * never rewrites a complete time.
   */
  function MatchesTimePattern(s: string): (b: bool)
    ensures b ==> MaskTime(s) == s
  {
    if |s| == 5 && IsDigit(s[0]) && IsDigit(s[1]) && s[2] == ':' && IsDigit(s[3]) && IsDigit(s[4]) then
      PatternTextStable(s);
      true
    else
      false
  }

  /** The hour and minute read from text that matches the pattern (no range check), or None. */
  function ParseTime(s: string): (r: Option<(nat, nat)>)
    ensures r.Some? <==> MatchesTimePattern(s)
    ensures r.Some? ==> r.value.0 < 100 && r.value.1 < 100
  {
    if MatchesTimePattern(s) then
      Some((10 * DigitValue(s[0]) + DigitValue(s[1]), 10 * DigitValue(s[3]) + DigitValue(s[4])))
    else None
  }

  /** `TimePickerModal`'s initial hour and minute: the parsed text, or the current clock time. */
  function InitialTime(initialTime: string, clockHour: int, clockMinute: int): (r: (int, int))
    ensures MatchesTimePattern(initialTime) ==> r == (ParseTime(initialTime).value.0, ParseTime(initialTime).value.1)
    ensures !MatchesTimePattern(initialTime) ==> r == (clockHour, clockMinute)
  {
    match ParseTime(initialTime)
    case Some(hm) => (hm.0, hm.1)
    case None => (clockHour, clockMinute)
  }

  /** Round trip: four or more typed digits give text that parses back into the first two digit pairs. */
  lemma MaskTimeParses(input: string)
    ensures var d := DigitsOf(input);
      |d| >= 4 <==> MatchesTimePattern(MaskTime(input))
    ensures var d := DigitsOf(input);
      |d| >= 4 ==>
        ParseTime(MaskTime(input)) == Some((10 * DigitValue(d[0]) + DigitValue(d[1]), 10 * DigitValue(d[2]) + DigitValue(d[3])))
  {
  }

  /** `%02d` for a non-negative number: at least two digits, zero-padded. */
  function Pad2(n: nat): (r: string)
    ensures AllDigits(r)
    ensures n < 100 ==> |r| == 2 && ParseDigits(r) == n
  {
    ParseNatToString(n);
    if n < 10 then
      assert ParseDigits("0" + NatToString(n)) == ParseDigits(NatToString(n)) by {
        assert ("0" + NatToString(n))[..1] == "0";
      }
      "0" + NatToString(n)
    else NatToString(n)
  }

  /** The text the picker writes back: `String.format("%02d:%02d", hour, minute)`, which matches the field's pattern for a real clock time. */
  function PickerText(hour: nat, minute: nat): (r: string)
    ensures hour < 100 && minute < 100 ==> MatchesTimePattern(r)
  {
    Pad2(hour) + ":" + Pad2(minute)
  }

  /** Round trip: the picker's text for an hour and minute below 100 is five characters and parses back to them. */
  lemma PickerTextParses(hour: nat, minute: nat)
    requires hour < 100 && minute < 100
    ensures |PickerText(hour, minute)| == 5
    ensures ParseTime(PickerText(hour, minute)) == Some((hour, minute))
  {
    TwoDigitValue(Pad2(hour));
    TwoDigitValue(Pad2(minute));
  }

  lemma TwoDigitValue(s: string)
    requires |s| == 2 && AllDigits(s)
    ensures ParseDigits(s) == 10 * DigitValue(s[0]) + DigitValue(s[1])
  {
    var p := s[..1];
    assert p[..0] == [] && p[0] == s[0];
    assert ParseDigits(p) == 10 * ParseDigits(p[..0]) + DigitValue(s[0]);
    assert ParseDigits(p) == DigitValue(s[0]);
    assert s[..|s| - 1] == p;
  }

  /** The picker's text is left unchanged by the keystroke mask. */
  lemma PickerTextStable(hour: nat, minute: nat)
    requires hour < 100 && minute < 100
    ensures MaskTime(PickerText(hour, minute)) == PickerText(hour, minute)
  {
    var h, m := Pad2(hour), Pad2(minute);
    DigitsOfAppend(h + ":", m);
    DigitsOfAppend(h, ":");
    DigitsOfAllDigits(h);
    DigitsOfAllDigits(m);
    assert DigitsOf(PickerText(hour, minute)) == h + m;
    assert (h + m)[..2] == h && (h + m)[2..] == m;
  }

  /** The field's UI state: the text shown and whether the picker dialog is open. */
  class DueTimeField {
    var localTime: string
    var showTimePicker: bool
    /** Every value handed to `onTaskDueTimeChange`, oldest first. */
    var emitted: seq<string>

    constructor (taskDueTime: string)
      ensures localTime == taskDueTime && !showTimePicker && emitted == []
    {
      localTime := taskDueTime;
      showTimePicker := false;
      emitted := [];
    }

    /** `onValueChange`: show the masked text and pass it on. */
    method OnValueChange(input: string)
      modifies this
      ensures localTime == MaskTime(input)
      ensures emitted == old(emitted) + [MaskTime(input)]
      ensures showTimePicker == old(showTimePicker)
    {
      var formatted := MaskTime(input);
      localTime := formatted;
      emitted := emitted + [formatted];
    }

    /**
     * A new `taskDueTime` from the parent: `remember(taskDueTime)` and the
     * `LaunchedEffect` both reset the shown text to it; nothing is emitted.
     */
    method OnTaskDueTimeChanged(taskDueTime: string)
      modifies this`localTime
      ensures localTime == taskDueTime
    {
      localTime := taskDueTime;
    }

    /** The clock icon opens the picker. */
    method OpenPicker()
      modifies this`showTimePicker
      ensures showTimePicker
    {
      showTimePicker := true;
    }

    /** The picker opens on the parsed text, or on the current clock time. */
    function PickerInitialTime(clockHour: int, clockMinute: int): (r: (int, int))
      reads this
      ensures MatchesTimePattern(localTime) ==> 0 <= r.0 < 100 && 0 <= r.1 < 100
    {
      InitialTime(localTime, clockHour, clockMinute)
    }

    /** `onTimeSelected`: show the picker's text, pass it on, close the picker. */
    method OnTimeSelected(hour: nat, minute: nat)
      modifies this
      ensures localTime == PickerText(hour, minute)
      ensures emitted == old(emitted) + [PickerText(hour, minute)]
      ensures !showTimePicker
    {
      var formatted := PickerText(hour, minute);
      localTime := formatted;
      emitted := emitted + [formatted];
      showTimePicker := false;
    }

    /** `onDismiss` closes the picker and changes nothing else. */
    method Dismiss()
      modifies this`showTimePicker
      ensures !showTimePicker
    {
      showTimePicker := false;
    }
  }
}
