/**
 * `DateInputInteractor` (domain/interactor/DateInputInteractor.kt): the date
 * field's keystroke handler. It keeps the digits of what was typed and masks
 * them with `DateFormatter.fromDigits`. `SimpleDateFormat` (behind
 * `formatFromPicker` and `isValid`) is a parameter.
 */
module DateInputInteractor {
  import opened Text
  import opened DateFormatter

  /** Every character is a digit or '/'. */
  predicate DigitsAndSlashes(s: string) {
    forall i :: 0 <= i < |s| ==> IsDigit(s[i]) || s[i] == '/'
  }

  /** Masking digits gives only digits and '/'. */
  lemma MaskDateDigitsAndSlashes(d: string)
    requires AllDigits(d)
    ensures DigitsAndSlashes(MaskDate(d))
  {
    MaskDatePositions(d);
  }

  /** `formatUserInput`: the digits of the raw input, masked as `MM/dd/yyyy`. */
  function FormatUserInput(rawInput: string): (r: string)
    ensures |r| <= 10
    ensures DigitsAndSlashes(r)
    ensures DigitsOf(r) == DigitsOf(rawInput)[..Min(|DigitsOf(rawInput)|, 8)]
  {
    var digits := DigitsOf(rawInput);
    MaskDateLength(digits);
    MaskDateDigitsAndSlashes(digits);
    MaskDateDigits(digits);
    MaskDate(digits)
  }

  /** The shape `MM/dd/yyyy` formats a four-digit year to: two digits, '/', two digits, '/', four digits. */
  predicate PickerDateShape(s: string) {
    |s| == 10 && s[2] == '/' && s[5] == '/' && AllDigits(s[..2]) && AllDigits(s[3..5]) && AllDigits(s[6..])
  }

  /** A date in the picker's shape is a fixed point of the keystroke mask. */
  lemma PickerDateStable(s: string)
    requires PickerDateShape(s)
    ensures FormatUserInput(s) == s
  {
    var a, b, c := s[..2], s[3..5], s[6..];
    assert s == a + "/" + b + "/" + c;
    DigitsOfTwo(a, b, c);
    var d := a + b + c;
    MaskDateExamples(d);
    assert d[..2] == a && d[2..4] == b && d[4..] == c;
  }

  /**
   * `formatFromPicker`: `SimpleDateFormat("MM/dd/yyyy").format(Date(millis))`,
   * a library call. When the library writes the `MM/dd/yyyy` shape, the text
   * field's mask leaves the picked date as it is.
   */
  function FormatFromPicker(millis: int, formatMillis: int -> string): (r: string)
    ensures PickerDateShape(r) ==> FormatUserInput(r) == r
  {
    var text := formatMillis(millis);
    if PickerDateShape(text) then PickerDateStable(text); text else text
  }

  /** `isValid`: whether `SimpleDateFormat` parses the string, a library call. */
  predicate IsValid(dateString: string, parses: string -> bool) {
    parses(dateString)
  }

  /** Only the digits of the input matter: non-digit characters never reach the output. */
  lemma FormatUserInputDigitsOnly(rawInput: string)
    ensures FormatUserInput(rawInput) == FormatUserInput(DigitsOf(rawInput))
  {
    DigitsOfAllDigits(DigitsOf(rawInput));
  }

  /** Two inputs with the same digits, in the same order, are masked alike. */
  lemma FormatUserInputSameDigits(x: string, y: string)
    requires DigitsOf(x) == DigitsOf(y)
    ensures FormatUserInput(x) == FormatUserInput(y)
  {
  }

  /**
   * Idempotence: the text field feeds the masked text back in on every
   * keystroke, and masking it again changes nothing.
   */
  lemma FormatUserInputIdempotent(rawInput: string)
    ensures FormatUserInput(FormatUserInput(rawInput)) == FormatUserInput(rawInput)
  {
    var d := DigitsOf(rawInput);
    MaskDateDigits(d);
    MaskDateFirstEight(d);
  }
}
