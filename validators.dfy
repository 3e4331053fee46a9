/** The form's `integerValidator`: a value is accepted when it is empty or a whole string of digits. */
module Validators {

  import opened Wrappers

  /** A form control's value, as the validator sees it. */
  datatype ControlValue = Null | Text(text: string)

  /** The error record the validator reports, `{integer: true}`. */
  datatype ValidationErrors = ValidationErrors(integer: bool)

  /** The class `\d` of the pattern: the ASCII decimal digits. */
  predicate IsDigit(c: char) {
    '0' <= c <= '9'
  }

  /** End of the greedy run of digits that starts at position `i`, as `\d+` scans it. */
  function DigitRunEnd(s: string, i: nat): (r: nat)
    requires i <= |s|
    ensures i <= r <= |s|
    ensures forall k :: i <= k < r ==> IsDigit(s[k])
    ensures r == |s| || !IsDigit(s[r])
    decreases |s| - i
  {
    if i < |s| && IsDigit(s[i]) then DigitRunEnd(s, i + 1) else i
  }

  /**
   * `INTEGER_REGEX.test(text)` for the pattern `^\d+$`: anchored at the start, at least one digit,
   * and the run of digits must reach the end of the text.
   */
  function IntegerPatternTest(text: string): (matched: bool)
    ensures matched <==> |text| > 0 && forall k :: 0 <= k < |text| ==> IsDigit(text[k])
  {
    var e := DigitRunEnd(text, 0);
    0 < e && e == |text|
  }

  /** The validator: `null` (no error) or `{integer: true}`. */
  function IntegerValidator(value: ControlValue): (r: Option<ValidationErrors>)
    ensures r == None || r == Some(ValidationErrors(true))
    ensures value == Null || value == Text("") ==> r == None
    ensures value.Text? && value.text != "" ==>
              (r == None <==> forall k :: 0 <= k < |value.text| ==> IsDigit(value.text[k]))
  {
    match value
    case Null => None
    case Text(text) =>
      if text == "" then None
      else if !IntegerPatternTest(text) then Some(ValidationErrors(true))
      else None
  }

  /** A single character that is not a digit anywhere in the text makes it an error. */
  lemma NonDigitRejected(text: string, k: nat)
    requires k < |text| && !IsDigit(text[k])
    ensures IntegerValidator(Text(text)) == Some(ValidationErrors(true))
  {
  }

  /** Leading zeros pass; signs, decimal points, spaces and exponents do not. */
  lemma ValidatorExamples()
    ensures IntegerValidator(Text("007")) == None
    ensures IntegerValidator(Text("-1")) == Some(ValidationErrors(true))
    ensures IntegerValidator(Text("1.5")) == Some(ValidationErrors(true))
    ensures IntegerValidator(Text(" 1")) == Some(ValidationErrors(true))
    ensures IntegerValidator(Text("1e3")) == Some(ValidationErrors(true))
  {
    NonDigitRejected("-1", 0);
    NonDigitRejected("1.5", 1);
    NonDigitRejected(" 1", 0);
    NonDigitRejected("1e3", 1);
  }
}
