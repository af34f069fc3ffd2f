/** The quantity input of the storefront: a text box that accepts only digit
    strings while typing, commits a value clamped into [min, max] on blur, and
    two buttons that step the value by one inside the bounds. */
module QuantitySelector {
  import opened Common

  const DefaultMin: int := 1
  const DefaultMax: int := 99

  /** What the text box holds: text being typed, or a number put there by a
      synchronisation with the `value` prop or by a commit. */
  datatype InputValue = Text(text: string) | Num(n: int)

  predicate IsDigit(c: char) {
    '0' <= c <= '9'
  }

  predicate AllDigits(s: string) {
    forall i :: 0 <= i < |s| ==> IsDigit(s[i])
  }

  /** The keystroke filter `val === "" || /^[0-9]+$/.test(val)`. */
  predicate Accepts(text: string) {
    text == "" || AllDigits(text)
  }

  /** Text typed by the user only ever holds digits. */
  predicate WellFormed(v: InputValue) {
    v.Text? ==> AllDigits(v.text)
  }

  /** The input state after the user edits the text to `text`. */
  function OnInput(current: InputValue, text: string): (r: InputValue)
    ensures Accepts(text) ==> r == Text(text)
    ensures !Accepts(text) ==> r == current
  {
    if Accepts(text) then Text(text) else current
  }

  function DigitValue(c: char): (d: nat)
    requires IsDigit(c)
    ensures d < 10
  {
    (c as int) - ('0' as int)
  }

  function DigitChar(d: nat): (c: char)
    requires d < 10
    ensures IsDigit(c) && DigitValue(c) == d
  {
    (('0' as int) + d) as char
  }

  /** The number a non-empty digit string denotes in base ten. */
  function DecimalValue(s: string): nat
    requires AllDigits(s)
    decreases |s|
  {
    if s == [] then 0 else DecimalValue(s[..|s| - 1]) * 10 + DigitValue(s[|s| - 1])
  }

  /** `parseInt` on a digit string: NaN (`None`) exactly for the empty string. */
  function ParseDigits(s: string): (r: Option<int>)
    requires AllDigits(s)
    ensures r.None? <==> s == ""
    ensures r.Some? ==> r.value >= 0
  {
    if s == "" then None else Some(DecimalValue(s))
  }

  /** The number the commit starts from: the text parsed, or the number held. */
  function ParseInput(v: InputValue): (r: Option<int>)
    requires WellFormed(v)
    ensures v.Num? ==> r == Some(v.n)
    ensures v.Text? ==> (r.None? <==> v.text == "")
    ensures v.Text? && r.Some? ==> r.value >= 0
  {
    match v
    case Num(n) => Some(n)
    case Text(s) => ParseDigits(s)
  }

  /** The decimal text the input shows for a non-negative number. */
  function Show(n: nat): (s: string)
    ensures s != ""
  {
    if n < 10 then [DigitChar(n)] else Show(n / 10) + [DigitChar(n % 10)]
  }

  /** The committed value: NaN or a value below `min` becomes `min`, then a
      value above `max` becomes `max`. */
  function Clamp(parsed: Option<int>, min: int, max: int): (r: int)
    ensures min <= max ==> min <= r <= max
    ensures r == min || r == max || (parsed.Some? && r == parsed.value)
  {
    var v := if parsed.None? || parsed.value < min then min else parsed.value;
    if v > max then max else v
  }

  /** What the minus button emits through `onChange`. */
  function StepDown(value: int, min: int): (r: Option<int>)
    ensures r.Some? <==> value > min
    ensures r.Some? ==> r.value == value - 1
  {
    if value > min then Some(value - 1) else None
  }

  /** What the plus button emits through `onChange`. */
  function StepUp(value: int, max: int): (r: Option<int>)
    ensures r.Some? <==> value < max
    ensures r.Some? ==> r.value == value + 1
  {
    if value < max then Some(value + 1) else None
  }

  predicate DecreaseDisabled(value: int, min: int) {
    value <= min
  }

  predicate IncreaseDisabled(value: int, max: int) {
    value >= max
  }

  /** The filter admits only digit text, so a well-formed input stays well formed. */
  lemma OnInputKeepsWellFormed(current: InputValue, text: string)
    requires WellFormed(current)
    ensures WellFormed(OnInput(current, text))
    ensures OnInput(current, text) != current ==> OnInput(current, text) == Text(text) && AllDigits(text)
  {
  }

  /** The four cases of a commit, for bounds with min <= max. */
  lemma CommitCases(parsed: Option<int>, min: int, max: int)
    requires min <= max
    ensures parsed.None? ==> Clamp(parsed, min, max) == min
    ensures parsed.Some? && parsed.value < min ==> Clamp(parsed, min, max) == min
    ensures parsed.Some? && parsed.value > max ==> Clamp(parsed, min, max) == max
    ensures parsed.Some? && min <= parsed.value <= max ==> Clamp(parsed, min, max) == parsed.value
  {
  }

  /** Committing a committed value changes nothing, whatever the bounds. */
  lemma RecommitIsNoop(parsed: Option<int>, min: int, max: int)
    ensures Clamp(Some(Clamp(parsed, min, max)), min, max) == Clamp(parsed, min, max)
  {
  }

  /** The text shown for a committed non-negative number parses back to it. */
  lemma {:induction false} ShowParses(n: nat)
    ensures AllDigits(Show(n))
    ensures ParseDigits(Show(n)) == Some(n)
  {
    if n < 10 {
      var s := [DigitChar(n)];
      assert s[..|s| - 1] == [];
      assert DecimalValue(s) == n;
    } else {
      ShowParses(n / 10);
      var s := Show(n / 10) + [DigitChar(n % 10)];
      assert s[..|s| - 1] == Show(n / 10);
      assert DecimalValue(s) == DecimalValue(Show(n / 10)) * 10 + n % 10;
      assert (n / 10) * 10 + n % 10 == n;
    }
  }

  /** A button emits a value exactly when it is enabled, and from a value
      inside the bounds it emits a value inside the bounds. */
  lemma StepsStayInBounds(value: int, min: int, max: int)
    requires min <= value <= max
    ensures StepDown(value, min).Some? <==> !DecreaseDisabled(value, min)
    ensures StepUp(value, max).Some? <==> !IncreaseDisabled(value, max)
    ensures StepDown(value, min).Some? ==> min <= StepDown(value, min).value <= max
    ensures StepUp(value, max).Some? ==> min <= StepUp(value, max).value <= max
  {
  }

  /** The component: the `value`, `min` and `max` props and the input's state. */
  class QuantityInput {
    var value: int
    var inputValue: InputValue
    const min: int
    const max: int

    ghost predicate Valid()
      reads this
    {
      WellFormed(inputValue)
    }

    /** Mounting with optional bounds, which default to 1 and 99. */
    constructor (value: int, min: Option<int>, max: Option<int>)
      ensures Valid()
      ensures this.value == value && inputValue == Num(value)
      ensures this.min == (if min.Some? then min.value else DefaultMin)
      ensures this.max == (if max.Some? then max.value else DefaultMax)
    {
      this.value := value;
      inputValue := Num(value);
      this.min := if min.Some? then min.value else DefaultMin;
      this.max := if max.Some? then max.value else DefaultMax;
    }

    /** The parent passes a new `value`: the input is resynchronised to it. */
    method SyncValue(v: int)
      modifies this
      ensures Valid()
      ensures value == v && inputValue == Num(v)
    {
      value := v;
      inputValue := Num(v);
    }

    method HandleInputChange(text: string)
      requires Valid()
      modifies this`inputValue
      ensures Valid()
      ensures inputValue == OnInput(old(inputValue), text)
    {
      if text == "" || AllDigits(text) {
        inputValue := Text(text);
      }
    }

    /** On blur: parse, clamp, snap the input to the result and emit it when it
        differs from `value`. */
    method CommitChange() returns (emitted: Option<int>)
      requires Valid()
      modifies this`inputValue
      ensures Valid()
      ensures inputValue == Num(Clamp(ParseInput(old(inputValue)), min, max))
      ensures emitted.Some? <==> inputValue.n != value
      ensures emitted.Some? ==> emitted.value == inputValue.n
    {
      var parsed := ParseInput(inputValue);
      var newVal: int;
      if parsed.None? || parsed.value < min {
        newVal := min;
      } else {
        newVal := parsed.value;
      }
      if newVal > max {
        newVal := max;
      }
      inputValue := Num(newVal);
      if newVal != value {
        emitted := Some(newVal);
      } else {
        emitted := None;
      }
    }

    method Decrease() returns (emitted: Option<int>)
      ensures emitted == StepDown(value, min)
    {
      emitted := StepDown(value, min);
    }

    method Increase() returns (emitted: Option<int>)
      ensures emitted == StepUp(value, max)
    {
      emitted := StepUp(value, max);
    }
  }
}
