/**
 * The launch sequence body as data: the phases the launching thread passes
 * through, and the driver commands it issues on the way out of each phase.
 * The thread sleeps at the start of every segment after the first, so a
 * phase boundary is exactly where manual commands can slip in.
 */
module Schedule {
  import opened Driver

  /** Spin-up before the ball is fed. */
  const SPIN_UP_MS: nat := 3000
  /** Time the release gate stays open for one ball to drop. */
  const RELEASE_MS: nat := 500
  /** Motors keep running while the released ball is ejected. */
  const EJECT_MS: nat := 3000

  /**
   * Program point of the thread that holds the launch lock, carrying the
   * power it captured at admission.  Idle: no thread holds the lock.
   */
  datatype Phase =
    | Idle
    | Spinning(power: Percent)    // motors started, about to sleep SPIN_UP_MS
    | Releasing(power: Percent)   // gate opened, about to sleep RELEASE_MS
    | Ejecting(power: Percent)    // gate closed, about to sleep EJECT_MS

  /** Commands issued as soon as a thread takes the lock: both motors at the captured power. */
  function StartSegment(p: Percent): seq<Cmd> {
    MotorPair(DutyFor(p))
  }

  /** Commands issued when the lock holder leaves phase `ph`. */
  function Segment(ph: Phase): seq<Cmd> {
    match ph
    case Idle => []
    case Spinning(_) => [Wait(SPIN_UP_MS), Pulse(RELEASE_PIN, RELEASE_OPEN)]
    case Releasing(_) => [Wait(RELEASE_MS), Pulse(RELEASE_PIN, RELEASE_CLOSED)]
    case Ejecting(_) => [Wait(EJECT_MS)] + MotorPair(0)
  }

  /**
   * The phase after `ph` completes without fault.  The sequence only moves
   * forward, ends after Ejecting, and the captured power never changes.
   */
  function Successor(ph: Phase): (s: Phase)
    ensures s.Idle? <==> ph.Idle? || ph.Ejecting?
    ensures !s.Idle? ==> s.power == ph.power
    ensures Remaining(s) == if ph.Idle? then 0 else Remaining(ph) - 1
  {
    match ph
    case Idle => Idle
    case Spinning(p) => Releasing(p)
    case Releasing(p) => Ejecting(p)
    case Ejecting(_) => Idle
  }

  /** How many more segments the lock holder has to run. */
  function Remaining(ph: Phase): nat {
    match ph
    case Idle => 0
    case Spinning(_) => 3
    case Releasing(_) => 2
    case Ejecting(_) => 1
  }

  /** The whole body of a launch that runs without fault, segment after segment. */
  function Body(p: Percent): seq<Cmd> {
    StartSegment(p) + Segment(Spinning(p)) + Segment(Releasing(p)) + Segment(Ejecting(p))
  }

  /**
   * The launch body is, in order: both motors to the captured duty, a 3 s
   * spin-up, the gate opened, 0.5 s, the gate closed, 3 s more, and both
   * motors to zero.  When the captured power is not zero, the final two
   * commands are the only zero-duty commands: each motor is stopped exactly
   * once.
   */
  lemma BodyInOrder(p: Percent)
    ensures Body(p) == [
      Duty(12, DutyFor(p)), Duty(13, DutyFor(p)),
      Wait(3000),
      Pulse(19, 2000),
      Wait(500),
      Pulse(19, 1000),
      Wait(3000),
      Duty(12, 0), Duty(13, 0)]
    ensures p > 0 ==> forall k | 0 <= k < |Body(p)| && Body(p)[k].Duty? && Body(p)[k].value == 0 :: k >= 7
  {
    DutyForEndpoints(p);
  }

  /** Every command of the body is safe, whatever power was captured. */
  lemma SegmentsSafe(p: Percent, ph: Phase)
    ensures AllSafe(StartSegment(p))
    ensures AllSafe(Segment(ph))
  {
  }
}
