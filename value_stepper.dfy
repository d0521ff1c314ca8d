/** The value stepper: four buttons (-10, -1, +1, +10) around a value that
    the owner holds. The stepper keeps no state; a click reports the clamped
    new value to the owner, or nothing when the stepper is disabled. */
module ValueStepper {
  import opened Numeric
  import opened Collections

  /** The props the owner passes in. */
  datatype Stepper = Stepper(value: real, min: real, max: real, disabled: bool)

  datatype Button = MinusTen | MinusOne | PlusOne | PlusTen

  function Amount(b: Button): real {
    match b
    case MinusTen => -10.0
    case MinusOne => -1.0
    case PlusOne => 1.0
    case PlusTen => 10.0
  }

  /** `handleAdjust(amount)`: `None` when `onChange` is not called, otherwise
      the value it is called with. */
  function Adjust(s: Stepper, amount: real): (r: Option<real>)
    ensures r.None? <==> s.disabled
    ensures r.Some? && s.min <= s.max ==> s.min <= r.value <= s.max
  {
    if s.disabled then None else Some(Clamp(s.value + amount, s.min, s.max))
  }

  /** The -10 and -1 buttons are disabled iff the stepper is, or the value is at
      or below the lower bound; the +1 and +10 buttons likewise at the upper bound. */
  function ButtonDisabled(s: Stepper, b: Button): (d: bool)
    ensures Amount(b) < 0.0 ==> (d <==> s.disabled || s.value <= s.min)
    ensures Amount(b) > 0.0 ==> (d <==> s.disabled || s.value >= s.max)
  {
    match b
    case MinusTen => s.disabled || s.value <= s.min
    case MinusOne => s.disabled || s.value <= s.min
    case PlusOne => s.disabled || s.value >= s.max
    case PlusTen => s.disabled || s.value >= s.max
  }

  /** A disabled stepper never reports a value. */
  lemma DisabledNeverReports(s: Stepper, amount: real)
    requires s.disabled
    ensures Adjust(s, amount) == None
  {
  }

  /** Otherwise it reports exactly the clamped sum. */
  lemma EnabledReportsClamp(s: Stepper, amount: real)
    requires !s.disabled
    ensures Adjust(s, amount) == Some(Clamp(s.value + amount, s.min, s.max))
  {
  }

  /** Clamping is idempotent at the bounds: stepping up from the maximum, or
      down from the minimum, reports the bound itself. */
  lemma IdempotentAtBounds(min: real, max: real)
    requires min <= max
    ensures Adjust(Stepper(max, min, max, false), Amount(PlusOne)) == Some(max)
    ensures Adjust(Stepper(max, min, max, false), Amount(PlusTen)) == Some(max)
    ensures Adjust(Stepper(min, min, max, false), Amount(MinusOne)) == Some(min)
    ensures Adjust(Stepper(min, min, max, false), Amount(MinusTen)) == Some(min)
  {
  }

  /** For a value in range, a positive step never reports less than the value
      and a negative step never reports more. */
  lemma AdjustMonotone(s: Stepper, amount: real)
    requires !s.disabled && s.min <= s.value <= s.max
    ensures amount >= 0.0 ==> Adjust(s, amount).value >= s.value
    ensures amount <= 0.0 ==> Adjust(s, amount).value <= s.value
  {
  }

  /** An enabled button always moves the value in its direction. */
  lemma EnabledButtonMoves(s: Stepper, b: Button)
    requires !ButtonDisabled(s, b)
    ensures Amount(b) < 0.0 ==> Adjust(s, Amount(b)).value < s.value
    ensures Amount(b) > 0.0 ==> Adjust(s, Amount(b)).value > s.value
  {
  }

  /** A button is disabled exactly where pressing it could not change an
      in-range value: at the bound it points past, the report is the value itself. */
  lemma DisabledButtonIsNoOp(s: Stepper, b: Button)
    requires !s.disabled && s.min <= s.value <= s.max
    requires ButtonDisabled(s, b)
    ensures Adjust(s, Amount(b)) == Some(s.value)
  {
  }
}
