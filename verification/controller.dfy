/**
 * The launcher controller: the three process-wide variables of the server
 * (aim position, motor power, launching flag) together with the launch
 * threads, and the operations that act on them.  Every operation is a pure
 * function returning the next state and the driver commands it issued.
 */
module Controller {
  import opened Driver
  import opened Schedule

  /** Servo step per left/right request, in microseconds. */
  const STEP: int := 100
  /** Launches below this power are refused. */
  const MIN_LAUNCH_POWER: int := 10

  datatype Option<T> = None | Some(value: T)

  datatype Direction = Left | Right | Center | Unrecognised

  /**
   * The controller state.
   *   position  -- last pulse width sent to the direction servo
   *   power     -- last requested motor power
   *   launching -- the flag manual power requests consult
   *   spawned   -- powers captured by launch threads that have been started
   *                but have not yet entered the sequence body
   *   phase     -- where the thread holding the launch lock is
   */
  datatype Controller = Controller(
    position: int,
    power: Percent,
    launching: bool,
    spawned: seq<Percent>,
    phase: Phase)

  /** A transition: the next state and the driver commands issued, in order. */
  datatype Step = Step(next: Controller, emitted: seq<Cmd>)

  /** The synchronous answer to a launch request. */
  datatype Admission = Accepted | Busy | PowerTooLow

  /** A launch request drives no hardware; it only answers and may start a thread. */
  datatype Launched = Launched(reply: Admission, next: Controller)

  /** State at process start: servo centred, motors off, nothing launching. */
  function Init(): (c: Controller)
    ensures c.position == CENTER_PULSE && c.power == 0 && !c.launching
    ensures c.spawned == [] && c.phase.Idle?
  {
    Controller(CENTER_PULSE, 0, false, [], Idle)
  }

  /** The `direction` query argument; a missing one means "center". */
  function DirectionOf(arg: Option<string>): Direction {
    match arg
    case None => Center
    case Some(s) =>
      if s == "left" then Left
      else if s == "right" then Right
      else if s == "center" then Center
      else Unrecognised
  }

  function Max(a: int, b: int): int { if a < b then b else a }
  function Min(a: int, b: int): int { if a < b then a else b }

  /**
   * Whether the driver call at index `fault` of a run of `n` calls raises.
   * An index at or past the end names no call, so then nothing raises.
   */
  predicate Raises(fault: Option<nat>, n: nat) {
    fault.Some? && fault.value < n
  }

  /** The calls of `log` that were issued when the one at index `fault` may raise. */
  function Issued(log: seq<Cmd>, fault: Option<nat>): (r: seq<Cmd>)
    ensures !Raises(fault, |log|) ==> r == log
    ensures Raises(fault, |log|) ==> r < log && |r| == fault.value
  {
    if Raises(fault, |log|) then log[..fault.value] else log
  }

  /**
   * Manual aim.  Left/right move one step and stop at the servo's limits,
   * center recentres, anything else keeps the position; in every case the
   * resulting position is sent to the direction servo.  Only the position
   * changes.  The position is stored before the servo call, so if that call
   * raises (`fault` is 0) the new position is kept but nothing is issued.
   */
  function Aim(c: Controller, arg: Option<string>, fault: Option<nat>): (r: Step)
    ensures r.next == c.(position := r.next.position)
    ensures !Raises(fault, 1) ==> r.emitted == [Pulse(DIRECTION_PIN, r.next.position)]
    ensures Raises(fault, 1) ==> r.emitted == []
    ensures DirectionOf(arg) == Center ==> r.next.position == CENTER_PULSE
    ensures DirectionOf(arg) == Unrecognised ==> r.next.position == c.position
    ensures DirectionOf(arg) == Left ==>
      && MIN_PULSE <= r.next.position
      && c.position - STEP <= r.next.position
      && (r.next.position == MIN_PULSE || r.next.position == c.position - STEP)
    ensures DirectionOf(arg) == Right ==>
      && r.next.position <= MAX_PULSE
      && r.next.position <= c.position + STEP
      && (r.next.position == MAX_PULSE || r.next.position == c.position + STEP)
  {
    var position :=
      match DirectionOf(arg)
      case Left => Max(MIN_PULSE, c.position - STEP)
      case Right => Min(MAX_PULSE, c.position + STEP)
      case Center => CENTER_PULSE
      case Unrecognised => c.position;
    Step(c.(position := position), Issued([Pulse(DIRECTION_PIN, position)], fault))
  }

  /** The `power` query argument; a missing one means 0. */
  function RequestedPower(arg: Option<int>): int {
    match arg
    case None => 0
    case Some(v) => v
  }

  /** `v` clamped to the range 0..100. */
  function Clamp(v: int): Percent {
    Max(0, Min(100, v))
  }

  /**
   * Manual power.  The request is clamped to 0..100 and stored whether or
   * not a launch is running.  Only when the flag is clear are both motors
   * driven, pin 12 then pin 13, at the scaled duty; while it is set, no
   * command is issued at all.  The power is stored before the motor calls,
   * so a call that raises keeps the new power but cuts the pair short.
   */
  function SetPower(c: Controller, arg: Option<int>, fault: Option<nat>): (r: Step)
    ensures r.next == c.(power := r.next.power)
    ensures 0 <= RequestedPower(arg) <= 100 ==> r.next.power == RequestedPower(arg)
    ensures RequestedPower(arg) < 0 ==> r.next.power == 0
    ensures RequestedPower(arg) > 100 ==> r.next.power == 100
    ensures c.launching ==> r.emitted == []
    ensures !c.launching && !Raises(fault, 2) ==> r.emitted == MotorPair(DutyFor(r.next.power))
    ensures !c.launching && Raises(fault, 2) ==>
      r.emitted < MotorPair(DutyFor(r.next.power)) && |r.emitted| == fault.value
  {
    var power := Clamp(RequestedPower(arg));
    var next := c.(power := power);
    if c.launching then Step(next, [])
    else Step(next, Issued(MotorPair(DutyFor(power)), fault))
  }

  /**
   * Launch admission.  A set flag is reported as Busy before the power is
   * looked at; otherwise a power under 10 is refused.  A refusal changes
   * nothing.  An acceptance only starts a thread carrying the current power:
   * the flag is left as it is, to be set by the thread itself.
   */
  function Launch(c: Controller): (r: Launched)
    ensures r.reply == Busy <==> c.launching
    ensures r.reply == PowerTooLow <==> !c.launching && c.power < MIN_LAUNCH_POWER
    ensures r.reply != Accepted ==> r.next == c
    ensures r.reply == Accepted ==> r.next == c.(spawned := c.spawned + [c.power])
  {
    if c.launching then Launched(Busy, c)
    else if c.power < MIN_LAUNCH_POWER then Launched(PowerTooLow, c)
    else Launched(Accepted, c.(spawned := c.spawned + [c.power]))
  }

  /**
   * The exit path of a launch thread: whatever happened in the body, the
   * flag is cleared, and the lock is free again.
   */
  function Finally(c: Controller): (d: Controller)
    ensures !d.launching && d.phase.Idle?
    ensures d.position == c.position && d.power == c.power && d.spawned == c.spawned
  {
    c.(launching := false, phase := Idle)
  }

  /**
   * Runs `segment`, where the call at index `fault` may raise.  If it does,
   * the calls before it are issued and the thread leaves through Finally:
   * the flag is clear, the lock free, and aim, power and queue are as they
   * were.  Otherwise the whole segment is issued and the thread moves to
   * `after`.
   */
  function RunSegment(c: Controller, segment: seq<Cmd>, after: Controller, fault: Option<nat>): (r: Step)
    ensures !Raises(fault, |segment|) ==> r.next == after && r.emitted == segment
    ensures Raises(fault, |segment|) ==>
      && !r.next.launching && r.next.phase.Idle?
      && r.next.position == c.position && r.next.power == c.power && r.next.spawned == c.spawned
      && r.emitted < segment && |r.emitted| == fault.value
  {
    if Raises(fault, |segment|) then Step(Finally(c), Issued(segment, fault))
    else Step(after, segment)
  }

  /** `s` without its element at index `i`. */
  function RemoveAt(s: seq<Percent>, i: nat): (t: seq<Percent>)
    requires i < |s|
    ensures |t| == |s| - 1
    ensures forall j | 0 <= j < |t| :: t[j] == if j < i then s[j] else s[j + 1]
  {
    s[..i] + s[i + 1..]
  }

  /**
   * Thread `i` takes the free launch lock: it sets the flag and starts both
   * motors at the power it captured at admission.  A fault on either motor
   * command ends the thread with the flag clear again.
   */
  function StartThread(c: Controller, i: nat, fault: Option<nat>): (r: Step)
    requires c.phase.Idle? && i < |c.spawned|
    ensures r.next.position == c.position && r.next.power == c.power
    ensures r.next.spawned == RemoveAt(c.spawned, i)
    ensures !Raises(fault, 2) ==> r.next.launching && r.next.phase == Spinning(c.spawned[i])
    ensures !Raises(fault, 2) ==> r.emitted == MotorPair(DutyFor(c.spawned[i]))
    ensures Raises(fault, 2) ==> !r.next.launching && r.next.phase.Idle?
    ensures Raises(fault, 2) ==> r.emitted < MotorPair(DutyFor(c.spawned[i]))
  {
    var p := c.spawned[i];
    var holding := c.(spawned := RemoveAt(c.spawned, i), launching := true);
    RunSegment(holding, StartSegment(p), holding.(phase := Spinning(p)), fault)
  }

  /**
   * The lock holder wakes from its sleep and runs the rest of its current
   * phase.  Leaving Ejecting (normally or by a fault anywhere) clears the
   * flag and frees the lock; leaving an earlier phase normally keeps both.
   */
  function Advance(c: Controller, fault: Option<nat>): (r: Step)
    requires !c.phase.Idle?
    ensures r.next.position == c.position && r.next.power == c.power
    ensures r.next.spawned == c.spawned
    ensures !Raises(fault, |Segment(c.phase)|) ==> r.emitted == Segment(c.phase)
    ensures !Raises(fault, |Segment(c.phase)|) ==> r.next.phase == Successor(c.phase)
    ensures !Raises(fault, |Segment(c.phase)|) && !c.phase.Ejecting? ==> r.next.launching == c.launching
    ensures Raises(fault, |Segment(c.phase)|) || c.phase.Ejecting? ==> !r.next.launching && r.next.phase.Idle?
    ensures Raises(fault, |Segment(c.phase)|) ==> r.emitted < Segment(c.phase)
  {
    var after :=
      if c.phase.Ejecting? then Finally(c)
      else c.(phase := Successor(c.phase));
    RunSegment(c, Segment(c.phase), after, fault)
  }
}
