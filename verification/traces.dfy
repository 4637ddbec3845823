/**
 * Runs of the controller: requests from the web front end and steps of the
 * launch threads, interleaved in any order.  A thread step that the real
 * program could not take at that moment (a start while another thread holds
 * the lock, a wake-up with no thread holding it) leaves everything unchanged.
 * Every request and thread step may name the driver call that raises; an
 * index past its last call means none does.
 */
module Traces {
  import opened Driver
  import opened Schedule
  import opened Controller

  datatype Event =
    | AimRequest(direction: Option<string>, fault: Option<nat>)
    | PowerRequest(value: Option<int>, fault: Option<nat>)
    | LaunchRequest
    | ThreadStart(index: nat, fault: Option<nat>)   // a spawned thread takes the lock
    | ThreadWake(fault: Option<nat>)                // the lock holder finishes a sleep

  predicate Manual(e: Event) {
    e.AimRequest? || e.PowerRequest?
  }

  function Apply(c: Controller, e: Event): (r: Step)
    ensures e.LaunchRequest? ==> r.emitted == []
    ensures Manual(e) ==>
      r.next.spawned == c.spawned && r.next.phase == c.phase && r.next.launching == c.launching
  {
    match e
    case AimRequest(d, f) => Aim(c, d, f)
    case PowerRequest(v, f) => SetPower(c, v, f)
    case LaunchRequest => Step(Launch(c).next, [])
    case ThreadStart(i, f) =>
      if c.phase.Idle? && i < |c.spawned| then StartThread(c, i, f) else Step(c, [])
    case ThreadWake(f) =>
      if !c.phase.Idle? then Advance(c, f) else Step(c, [])
  }

  /** `s` followed by one more event: its state, and its commands after those of `s`. */
  function Extend(s: Step, e: Event): Step {
    var last := Apply(s.next, e);
    Step(last.next, s.emitted + last.emitted)
  }

  /** The state after `events` and every command issued along the way, in order. */
  function Run(c: Controller, events: seq<Event>): Step
    decreases |events|
  {
    if events == [] then Step(c, [])
    else Extend(Run(c, events[..|events| - 1]), events[|events| - 1])
  }

  /** Running one more event extends the log by what that event issues. */
  lemma RunSnoc(c: Controller, events: seq<Event>, e: Event)
    ensures var before := Run(c, events);
      var last := Apply(before.next, e);
      Run(c, events + [e]) == Step(last.next, before.emitted + last.emitted)
  {
    assert (events + [e])[..|events|] == events;
  }

  /** Extending a run that follows `a` is extending the run alone, after `a`. */
  lemma ExtendAfter(a: Step, y: Step, e: Event)
    ensures Extend(Step(y.next, a.emitted + y.emitted), e)
         == Step(Extend(y, e).next, a.emitted + Extend(y, e).emitted)
  {
    var last := Apply(y.next, e);
    assert (a.emitted + y.emitted) + last.emitted == a.emitted + (y.emitted + last.emitted);
  }

  /** Running two event lists one after the other is running their concatenation. */
  lemma {:induction false} RunAppend(c: Controller, first: seq<Event>, second: seq<Event>)
    ensures var a := Run(c, first);
      var b := Run(a.next, second);
      Run(c, first + second) == Step(b.next, a.emitted + b.emitted)
    decreases |second|
  {
    if second == [] {
      assert first + second == first;
    } else {
      var init := second[..|second| - 1];
      var e := second[|second| - 1];
      var a := Run(c, first);
      var y := Run(a.next, init);
      assert Run(c, first + second) == Extend(Step(y.next, a.emitted + y.emitted), e) by {
        assert (first + second)[..|first + second| - 1] == first + init;
        assert (first + second)[|first + second| - 1] == e;
        RunAppend(c, first, init);
      }
      assert Run(a.next, second) == Extend(y, e);
      ExtendAfter(a, y, e);
    }
  }

  /**
   * What holds of every reachable state: the aim stays on the 100 us grid
   * inside the servo range, the flag is set exactly while a thread holds
   * the lock, and every captured power passed the low-power guard.
   */
  predicate Valid(c: Controller) {
    && MIN_PULSE <= c.position <= MAX_PULSE
    && c.position % STEP == 0
    && (c.launching <==> !c.phase.Idle?)
    && (!c.phase.Idle? ==> c.phase.power >= MIN_LAUNCH_POWER)
    && (forall j | 0 <= j < |c.spawned| :: c.spawned[j] >= MIN_LAUNCH_POWER)
  }

  lemma ApplyPreservesValid(c: Controller, e: Event)
    requires Valid(c)
    ensures Valid(Apply(c, e).next)
    ensures AllSafe(Apply(c, e).emitted)
  {
    var r := Apply(c, e);
    match e
    case AimRequest(d, f) =>
    case PowerRequest(v, f) =>
    case LaunchRequest =>
    case ThreadStart(i, f) =>
      if c.phase.Idle? && i < |c.spawned| {
        SegmentsSafe(c.spawned[i], c.phase);
        AllSafePrefix(StartSegment(c.spawned[i]), r.emitted);
      }
    case ThreadWake(f) =>
      if !c.phase.Idle? {
        SegmentsSafe(c.phase.power, c.phase);
        AllSafePrefix(Segment(c.phase), r.emitted);
      }
  }

  lemma AllSafePrefix(a: seq<Cmd>, b: seq<Cmd>)
    requires AllSafe(a) && b <= a
    ensures AllSafe(b)
  {
    forall k | 0 <= k < |b|
      ensures Safe(b[k])
    {
      assert b[k] == a[k];
    }
  }

  lemma AllSafeAppend(a: seq<Cmd>, b: seq<Cmd>)
    requires AllSafe(a) && AllSafe(b)
    ensures AllSafe(a + b)
  {
    forall k | 0 <= k < |a + b|
      ensures Safe((a + b)[k])
    {
      if k >= |a| {
        assert (a + b)[k] == b[k - |a|];
      }
    }
  }

  lemma {:induction false} RunPreservesValid(c: Controller, events: seq<Event>)
    requires Valid(c)
    ensures Valid(Run(c, events).next)
    ensures AllSafe(Run(c, events).emitted)
    decreases |events|
  {
    if events != [] {
      var before := Run(c, events[..|events| - 1]);
      RunPreservesValid(c, events[..|events| - 1]);
      ApplyPreservesValid(before.next, events[|events| - 1]);
      AllSafeAppend(before.emitted, Apply(before.next, events[|events| - 1]).emitted);
    }
  }

  /**
   * Whatever the operator requests and however the threads interleave or
   * fault: the direction servo stays in 500..2500 on the 100 us grid, the
   * flag matches the lock, and no unsafe command ever reaches the driver.
   */
  lemma Reachable(events: seq<Event>)
    ensures Valid(Run(Init(), events).next)
    ensures AllSafe(Run(Init(), events).emitted)
  {
    RunPreservesValid(Init(), events);
  }

  /**
   * Manual requests never touch the launch: the spawned threads, the lock
   * holder's phase and the flag stay as they were.  While the flag is set,
   * they issue no motor command at all.
   */
  lemma {:induction false} ManualLeavesLaunch(c: Controller, events: seq<Event>)
    requires forall k | 0 <= k < |events| :: Manual(events[k])
    ensures Run(c, events).next.spawned == c.spawned
    ensures Run(c, events).next.phase == c.phase
    ensures Run(c, events).next.launching == c.launching
    ensures c.launching ==> forall k | 0 <= k < |Run(c, events).emitted| :: !Run(c, events).emitted[k].Duty?
    decreases |events|
  {
    if events != [] {
      var prefix := events[..|events| - 1];
      ManualLeavesLaunch(c, prefix);
      var before := Run(c, prefix);
      var last := Apply(before.next, events[|events| - 1]);
      assert Manual(events[|events| - 1]);
      if c.launching {
        forall k | 0 <= k < |before.emitted + last.emitted|
          ensures !(before.emitted + last.emitted)[k].Duty?
        {
          if k >= |before.emitted| {
            assert (before.emitted + last.emitted)[k] == last.emitted[k - |before.emitted|];
          }
        }
      }
    }
  }

  /**
   * The power is captured at admission: whatever power requests arrive
   * between an accepted launch and its thread taking the lock, the thread
   * starts the motors at the power that was set when the launch was asked for.
   */
  lemma CapturedPowerDrivesSequence(c: Controller, events: seq<Event>)
    requires Valid(c) && !c.launching && c.power >= MIN_LAUNCH_POWER
    requires forall k | 0 <= k < |events| :: Manual(events[k])
    ensures Launch(c).reply == Accepted
    ensures var r := Run(Launch(c).next, events);
      Apply(r.next, ThreadStart(|c.spawned|, None)).emitted == MotorPair(DutyFor(c.power))
  {
    var admitted := Launch(c).next;
    ManualLeavesLaunch(admitted, events);
    var r := Run(admitted, events);
    assert r.next.spawned[|c.spawned|] == c.power;
  }

  /**
   * A sequence that runs without fault issues exactly the body, in order,
   * ends with the flag clear and the lock free, and stops each motor
   * exactly once.
   */
  lemma FullSequence(c: Controller, i: nat)
    requires Valid(c) && c.phase.Idle? && i < |c.spawned|
    ensures var p := c.spawned[i];
      var r := Run(c, [ThreadStart(i, None), ThreadWake(None), ThreadWake(None), ThreadWake(None)]);
      && r.emitted == [
           Duty(12, DutyFor(p)), Duty(13, DutyFor(p)),
           Wait(3000),
           Pulse(19, 2000),
           Wait(500),
           Pulse(19, 1000),
           Wait(3000),
           Duty(12, 0), Duty(13, 0)]
      && !r.next.launching && r.next.phase.Idle?
      && r.next.spawned == RemoveAt(c.spawned, i)
      && forall k | 0 <= k < |r.emitted| && r.emitted[k].Duty? && r.emitted[k].value == 0 :: k >= 7
  {
    var p := c.spawned[i];
    var e0: seq<Event> := [];
    var e1 := e0 + [ThreadStart(i, None)];
    var e2 := e1 + [ThreadWake(None)];
    var e3 := e2 + [ThreadWake(None)];
    var e4 := e3 + [ThreadWake(None)];
    RunSnoc(c, e0, ThreadStart(i, None));
    var s1 := StartThread(c, i, None);
    assert Run(c, e1) == s1;
    RunSnoc(c, e1, ThreadWake(None));
    var s2 := Advance(s1.next, None);
    assert Run(c, e2) == Step(s2.next, s1.emitted + s2.emitted);
    RunSnoc(c, e2, ThreadWake(None));
    var s3 := Advance(s2.next, None);
    assert Run(c, e3) == Step(s3.next, s1.emitted + s2.emitted + s3.emitted);
    RunSnoc(c, e3, ThreadWake(None));
    var s4 := Advance(s3.next, None);
    assert Run(c, e4) == Step(s4.next, s1.emitted + s2.emitted + s3.emitted + s4.emitted);
    assert e4 == [ThreadStart(i, None), ThreadWake(None), ThreadWake(None), ThreadWake(None)];
    assert s1.emitted + s2.emitted + s3.emitted + s4.emitted == Body(p);
    BodyInOrder(p);
    assert p >= MIN_LAUNCH_POWER;
  }

  /**
   * No stuck state: once a thread holds the lock, each wake-up either
   * advances it by one segment or ends it, and wake-ups never start a new
   * thread.  So the segments left shrink by at least one per wake-up, and a
   * wake-up that raises on one of the first two calls (every segment has at
   * least two) ends the launch for good.
   */
  lemma {:induction false} WakesReleaseLock(c: Controller, events: seq<Event>)
    requires Valid(c)
    requires forall k | 0 <= k < |events| :: events[k].ThreadWake?
    ensures Valid(Run(c, events).next)
    ensures Remaining(Run(c, events).next.phase) <= Max(0, Remaining(c.phase) - |events|)
    ensures (exists k | 0 <= k < |events| :: Raises(events[k].fault, 2)) ==> Run(c, events).next.phase.Idle?
    decreases |events|
  {
    if events != [] {
      var prefix := events[..|events| - 1];
      var e := events[|events| - 1];
      WakesReleaseLock(c, prefix);
      var before := Run(c, prefix);
      ApplyPreservesValid(before.next, e);
      assert e.ThreadWake?;
      assert forall k | 0 <= k < |prefix| :: prefix[k] == events[k];
      if !Raises(e.fault, 2) && exists k | 0 <= k < |events| :: Raises(events[k].fault, 2) {
        var k :| 0 <= k < |events| && Raises(events[k].fault, 2);
        assert k < |prefix| && Raises(prefix[k].fault, 2);
      }
    }
  }

  lemma LockAlwaysReleased(c: Controller, events: seq<Event>)
    requires Valid(c)
    requires forall k | 0 <= k < |events| :: events[k].ThreadWake?
    requires |events| >= Remaining(c.phase)
    ensures Run(c, events).next.phase.Idle?
    ensures !Run(c, events).next.launching
  {
    WakesReleaseLock(c, events);
  }

  /**
   * A fault does not stop the motors: if the gate servo fails right after
   * spin-up, the thread exits with the flag clear but the motors were last
   * commanded to the launch duty, not to zero.
   */
  lemma FaultLeavesMotorsRunning(c: Controller, i: nat)
    requires Valid(c) && c.phase.Idle? && i < |c.spawned|
    ensures var r := Run(c, [ThreadStart(i, None), ThreadWake(Some(1))]);
      && !r.next.launching && r.next.phase.Idle?
      && r.emitted == MotorPair(DutyFor(c.spawned[i])) + [Wait(SPIN_UP_MS)]
      && DutyFor(c.spawned[i]) > 0
  {
    RunSnoc(c, [], ThreadStart(i, None));
    RunSnoc(c, [ThreadStart(i, None)], ThreadWake(Some(1)));
    DutyForEndpoints(c.spawned[i]);
  }

  /**
   * The flag is only set by the thread, not at admission, so two launch
   * requests in a row are both accepted and both threads are queued on the
   * lock, with nothing issued and nothing else changed.
   */
  lemma BackToBackLaunchesBothAccepted(c: Controller)
    requires Valid(c) && !c.launching && c.power >= MIN_LAUNCH_POWER
    ensures Launch(c).reply == Accepted
    ensures Launch(Launch(c).next).reply == Accepted
    ensures Run(c, [LaunchRequest, LaunchRequest]) == Step(c.(spawned := c.spawned + [c.power, c.power]), [])
  {
    RunSnoc(c, [], LaunchRequest);
    RunSnoc(c, [LaunchRequest], LaunchRequest);
    assert [LaunchRequest] + [LaunchRequest] == [LaunchRequest, LaunchRequest];
    assert c.spawned + [c.power] + [c.power] == c.spawned + [c.power, c.power];
  }

  /**
   * The two queued launches run in turn: while the first holds the lock the
   * second cannot start, and once the first has finished the second runs
   * its whole body.  Together they issue the body twice, one after the other.
   */
  lemma QueuedLaunchesRunInTurn(c: Controller)
    requires Valid(c) && c.phase.Idle? && c.spawned == [] && c.power >= MIN_LAUNCH_POWER
    ensures var admitted := Run(c, [LaunchRequest, LaunchRequest, ThreadStart(0, None)]).next;
      Apply(admitted, ThreadStart(0, None)) == Step(admitted, [])
    ensures var r := Run(c, [LaunchRequest, LaunchRequest] + BodyEvents(0) + BodyEvents(0));
      && r.emitted == Body(c.power) + Body(c.power)
      && !r.next.launching && r.next.phase.Idle? && r.next.spawned == []
  {
    var p := c.power;
    var admit := [LaunchRequest, LaunchRequest];
    assert Run(c, admit) == Step(c.(spawned := [p, p]), []) by {
      BackToBackLaunchesBothAccepted(c);
    }
    assert Run(c, [LaunchRequest, LaunchRequest, ThreadStart(0, None)]).next.phase == Spinning(p) by {
      assert admit + [ThreadStart(0, None)] == [LaunchRequest, LaunchRequest, ThreadStart(0, None)];
      RunSnoc(c, admit, ThreadStart(0, None));
    }
    assert Run(c, admit + BodyEvents(0)).emitted == Body(p)
      && Run(c, admit + BodyEvents(0)).next.phase.Idle?
      && Run(c, admit + BodyEvents(0)).next.spawned == [p] by {
      RunThenBody(c, admit, 0);
    }
    RunThenBody(c, admit + BodyEvents(0), 0);
  }

  /** The events of one launch thread running its body without fault. */
  function BodyEvents(i: nat): seq<Event> {
    [ThreadStart(i, None), ThreadWake(None), ThreadWake(None), ThreadWake(None)]
  }

  /**
   * After any valid run that leaves the lock free, thread `i` running its
   * body adds exactly that body to the log and leaves a valid state with
   * the lock free, the flag clear and the thread gone.
   */
  lemma RunThenBody(c: Controller, before: seq<Event>, i: nat)
    requires Valid(c)
    requires Run(c, before).next.phase.Idle? && i < |Run(c, before).next.spawned|
    ensures var s := Run(c, before);
      var r := Run(c, before + BodyEvents(i));
      && r.emitted == s.emitted + Body(s.next.spawned[i])
      && Valid(r.next) && !r.next.launching && r.next.phase.Idle?
      && r.next.spawned == RemoveAt(s.next.spawned, i)
  {
    var s := Run(c, before);
    RunPreservesValid(c, before);
    var t := Run(s.next, BodyEvents(i));
    assert t.emitted == Body(s.next.spawned[i]) && !t.next.launching && t.next.phase.Idle?
      && t.next.spawned == RemoveAt(s.next.spawned, i) by {
      FullSequence(s.next, i);
      BodyInOrder(s.next.spawned[i]);
    }
    RunAppend(c, before, BodyEvents(i));
    RunPreservesValid(c, before + BodyEvents(i));
  }

  /**
   * Power 50 then a launch, run to the end: the power request itself drives
   * both motors at 127 (50 * 255 / 100 truncated), the launch is accepted,
   * and the body follows at that same duty.
   */
  lemma ScenarioHalfPower()
    ensures Launch(SetPower(Init(), Some(50), None).next).reply == Accepted
    ensures var r := Run(Init(), [PowerRequest(Some(50), None), LaunchRequest] + BodyEvents(0));
      && r.emitted == [
           Duty(12, 127), Duty(13, 127),
           Duty(12, 127), Duty(13, 127),
           Wait(3000),
           Pulse(19, 2000),
           Wait(500),
           Pulse(19, 1000),
           Wait(3000),
           Duty(12, 0), Duty(13, 0)]
      && !r.next.launching && r.next.spawned == []
  {
    var setup := [PowerRequest(Some(50), None), LaunchRequest];
    var r := Run(Init(), setup + BodyEvents(0));
    assert r.emitted == MotorPair(127) + Body(50) && !r.next.launching && r.next.spawned == [] by {
      HalfPowerSetup();
      RunThenBody(Init(), setup, 0);
    }
    HalfPowerLog();
    assert Launch(SetPower(Init(), Some(50), None).next).reply == Accepted by {
      DutyForEndpoints(50);
    }
  }

  /** The log of the half-power scenario, written out. */
  lemma HalfPowerLog()
    ensures MotorPair(127) + Body(50) == [
           Duty(12, 127), Duty(13, 127),
           Duty(12, 127), Duty(13, 127),
           Wait(3000),
           Pulse(19, 2000),
           Wait(500),
           Pulse(19, 1000),
           Wait(3000),
           Duty(12, 0), Duty(13, 0)]
  {
    BodyInOrder(50);
    DutyForEndpoints(50);
  }

  /** Power 50 is stored and applied at duty 127, and the launch that follows queues one thread. */
  lemma HalfPowerSetup()
    ensures Run(Init(), [PowerRequest(Some(50), None), LaunchRequest])
         == Step(Init().(power := 50, spawned := [50]), MotorPair(127))
  {
    DutyForEndpoints(50);
    RunSnoc(Init(), [], PowerRequest(Some(50), None));
    assert [PowerRequest(Some(50), None)] + [LaunchRequest] == [PowerRequest(Some(50), None), LaunchRequest];
    RunSnoc(Init(), [PowerRequest(Some(50), None)], LaunchRequest);
  }

  /** Power 5 is stored and applied to the motors, but a launch is refused for low power. */
  lemma ScenarioLowPower()
    ensures SetPower(Init(), Some(5), None).emitted == MotorPair(12)
    ensures var c := SetPower(Init(), Some(5), None).next;
      Launch(c) == Launched(PowerTooLow, c)
  {
  }

  /** While a launch runs, a power request of 80 reaches no motor and a second launch is Busy. */
  lemma ScenarioBusy(c: Controller)
    requires Valid(c) && !c.phase.Idle?
    ensures SetPower(c, Some(80), None).emitted == []
    ensures var d := SetPower(c, Some(80), None).next;
      d.power == 80 && Launch(d) == Launched(Busy, d)
  {
  }
}
