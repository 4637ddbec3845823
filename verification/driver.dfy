/**
 * The actuator driver as the launcher controller sees it: a few fixed GPIO
 * pins, and an abstract log of the commands sent to them.  Nothing here talks
 * to hardware; a command is just a value appended to the log.
 */
module Driver {

  /** Left/right aiming servo. */
  const DIRECTION_PIN: int := 18
  /** Ball release servo. */
  const RELEASE_PIN: int := 19
  /** The two launcher motors, always driven with the same duty value. */
  const MOTOR_PIN_1: int := 12
  const MOTOR_PIN_2: int := 13

  /** Servo pulse widths, in microseconds. */
  const MIN_PULSE: int := 500
  const MAX_PULSE: int := 2500
  const CENTER_PULSE: int := 1500
  const RELEASE_OPEN: int := 2000
  const RELEASE_CLOSED: int := 1000

  /** Largest PWM duty value the motor pins accept (8-bit range). */
  const MAX_DUTY: int := 255

  /** A motor power in percent, as stored by the controller. */
  type Percent = x: int | 0 <= x <= 100

  /** One call into the driver, or a pause between calls. */
  datatype Cmd =
    | Duty(pin: int, value: int)     // set_PWM_dutycycle
    | Pulse(pin: int, width: int)    // set_servo_pulsewidth
    | Wait(ms: nat)                  // time.sleep

  /**
   * Scales a percentage to the 0..255 duty range, truncating: the result is
   * the largest d with d * 100 <= p * 255.  For integer percentages this is
   * what truncating the floating-point quotient p * 255 / 100 gives.
   */
  function DutyFor(p: Percent): (d: int)
    ensures 0 <= d <= MAX_DUTY
    ensures d * 100 <= p * MAX_DUTY < (d + 1) * 100
  {
    p * MAX_DUTY / 100
  }

  /** Both motors receive the same duty value, pin 12 first. */
  function MotorPair(v: int): seq<Cmd> {
    [Duty(MOTOR_PIN_1, v), Duty(MOTOR_PIN_2, v)]
  }

  /** The scaling is monotone, so more power never means a smaller duty. */
  lemma DutyForMonotone(a: Percent, b: Percent)
    requires a <= b
    ensures DutyFor(a) <= DutyFor(b)
  {
  }

  /** No power is no duty, full power is full duty, and any nonzero power turns the motors. */
  lemma DutyForEndpoints(p: Percent)
    ensures DutyFor(0) == 0
    ensures DutyFor(100) == MAX_DUTY
    ensures DutyFor(50) == 127
    ensures p > 0 <==> DutyFor(p) > 0
  {
  }

  /** A command is physically safe: known pin, and a value within that pin's range. */
  predicate Safe(c: Cmd) {
    match c
    case Duty(pin, v) =>
      (pin == MOTOR_PIN_1 || pin == MOTOR_PIN_2) && 0 <= v <= MAX_DUTY
    case Pulse(pin, w) =>
      || (pin == DIRECTION_PIN && MIN_PULSE <= w <= MAX_PULSE)
      || (pin == RELEASE_PIN && (w == RELEASE_OPEN || w == RELEASE_CLOSED))
    case Wait(_) => true
  }

  predicate AllSafe(log: seq<Cmd>) {
    forall k | 0 <= k < |log| :: Safe(log[k])
  }
}
