# Ball launcher controller, modelled in Dafny

The web-controlled ball launcher in `FullTestCode.py` keeps three process-wide
variables: the direction servo position (`direction_position`), the motor
power (`motor_power`) and the `is_launching` flag. Four request handlers and a
background thread act on them:

- `control_servo` steps the aim left or right by 100 us. The position is clamped to 500..2500, `center` resets it to 1500, and the position is re-sent to pin 18 on every call.
- `control_motor` clamps the requested power to 0..100 and stores it. When no launch is running, it also drives both motors (pins 12 and 13) at `power * 255 / 100`.
- `launch_ball` refuses with Busy if a launch is running. Otherwise it refuses with PowerTooLow if the power is under 10. Otherwise it starts a thread carrying the current power.
- `launch_sequence` runs in that thread under `launch_lock`. It sets the flag, starts the motors, waits 3 s, opens the release gate (pin 19, 2000 us), waits 0.5 s, closes it (1000 us), waits 3 s and stops both motors. Its `finally` clause clears the flag on every exit.

The model is functional. The controller is an immutable record, and each
operation is a pure function returning the next state plus the driver
commands it issued (`Duty(pin, value)`, `Pulse(pin, width)`, `Wait(ms)`).
Threads are explicit state:

- `spawned` holds the powers of threads started by `launch_ball` that have not yet taken the lock.
- `phase` is the program point of the one thread that holds the lock: `Idle`, `Spinning(p)`, `Releasing(p)` or `Ejecting(p)`.
- Each thread step runs one segment of the body, meaning the commands between two sleeps. Manual requests can be interleaved between any two steps.
- A thread step may carry a fault index `k`. The commands before `k` are issued, then the thread exits through `finally`.
- Aim and power requests may carry a fault index too. The handlers store the new value before calling the driver, so a raising call keeps the stored value and cuts the commands short.
- A fault index at or past the end of the commands names no call, so nothing raises.

Modules:

- `Driver` (`driver.dfy`): pins, pulse limits, the command log, duty scaling and the safety predicate.
- `Schedule` (`schedule.dfy`): the phases and their segments, as data.
- `Controller` (`controller.dfy`): the state record and the operations.
- `Traces` (`traces.dfy`): arbitrary interleavings of events, the reachable-state invariant and the end-to-end properties.

Three behaviours of the code that a reader might not expect; the model follows the code in each:

- Admission is not atomic with setting the flag. `launch_ball` only starts a thread (line 362), and the thread sets `is_launching` later (line 371). So two launch requests in a row are both accepted. Both are queued (`Traces.BackToBackLaunchesBothAccepted`), and the lock then runs the two bodies one after the other (`Traces.QueuedLaunchesRunInTurn`).
- A fault inside the body does not stop the motors. Only the flag is reset (lines 395-398; `Traces.FaultLeavesMotorsRunning`).
- Power 50 gives duty 127, not 128, because the quotient is truncated.

## Model

| member | source | states |
|---|---|---|
| Controller.Init | FullTestCode.py:52-59 | At start the servo is centred at 1500, power is 0, the flag is clear, no thread is waiting and the lock is free |
| Driver.DutyFor | FullTestCode.py:339 | The duty for a 0..100 power lies in 0..255 and is the truncated quotient: the largest d with d*100 <= p*255 |
| Driver.DutyForMonotone | FullTestCode.py:339 | More power never gives a smaller duty |
| Driver.DutyForEndpoints | FullTestCode.py:339 | 0 maps to 0, 100 maps to 255, 50 maps to 127, and a power is nonzero exactly when its duty is nonzero |
| Controller.Aim | FullTestCode.py:306-325 | Left/right move exactly one 100 us step unless that would pass 500/2500, where they stop at the limit. `center` (also a missing argument) gives 1500. Any other string keeps the position. Only the position changes. Exactly one pulse with the new position goes to pin 18, unless that call raises, in which case the new position is still stored and nothing is issued |
| Controller.SetPower | FullTestCode.py:327-345 | The stored power is the request clamped to 0..100 (a missing argument means 0), whatever the flag. With the flag clear, exactly two equal duty commands are issued, pin 12 then pin 13; if one of them raises, only the calls before it are issued and the power is still stored. With the flag set, none are issued. Nothing else changes |
| Controller.Launch | FullTestCode.py:347-364 | Busy exactly when the flag is set, checked first. PowerTooLow exactly when the flag is clear and power < 10. A refusal leaves the state unchanged. An acceptance only queues a thread with the current power and leaves the flag as it was |
| Controller.Finally | FullTestCode.py:395-398 | The exit path of every launch thread: the flag is cleared and the lock is free again, while aim, power and the waiting threads are left as they were |
| Controller.StartThread | FullTestCode.py:366-378 | A waiting thread takes the free lock, leaves the queue, sets the flag and drives both motors at the duty of its captured power. If either motor call raises, it exits with the flag clear and only a proper prefix of that motor pair issued |
| Controller.Advance | FullTestCode.py:380-398 | The lock holder issues its phase's segment and moves to the next phase. Leaving Ejecting, or any fault, clears the flag and frees the lock. Aim, power and the queue are untouched |
| Schedule.Successor | FullTestCode.py:376-393 | Phases only move forward (Spinning, Releasing, Ejecting, done), keep the captured power, and each step uses up one remaining segment |
| Schedule.BodyInOrder | FullTestCode.py:376-393 | The body is exactly: duty(p) on 12 then 13, wait 3000, pulse 2000 on 19, wait 500, pulse 1000 on 19, wait 3000, duty 0 on 12 then 13. For nonzero p, the final two commands are the only zero-duty commands |
| Schedule.SegmentsSafe | FullTestCode.py:376-393 | Every command of the body is within its pin's safe range |
| Traces.ApplyPreservesValid | FullTestCode.py:306-398 | Every request or thread step keeps the invariant and issues only safe commands. The invariant: position in 500..2500 on the 100 us grid, flag set exactly while the lock is held, every captured power >= 10 |
| Traces.RunPreservesValid | FullTestCode.py:306-398 | The invariant and command safety hold along any interleaving of requests, thread steps and faults |
| Traces.Reachable | FullTestCode.py:52-59 | From the start state, under any event sequence: the servo stays in 500..2500 on a multiple of 100, the flag matches the lock, and no unsafe command is issued |
| Traces.ManualLeavesLaunch | FullTestCode.py:336-343 | Aim and power requests never change the queue, the lock holder or the flag. While the flag is set, they issue no motor command at all |
| Traces.CapturedPowerDrivesSequence | FullTestCode.py:356-378 | The power is captured at admission. Whatever power requests come in before the thread starts, the motors start at the duty of the power current at the launch request |
| Traces.FullSequence | FullTestCode.py:366-398 | A run without faults issues exactly the nine-command body in order. It ends with the flag clear, the lock free and the thread gone, and it stops each motor exactly once |
| Traces.WakesReleaseLock | FullTestCode.py:395-398 | Under any wake-ups, with or without faults, each wake-up uses up at least one remaining segment of the lock holder, and the invariant is kept. Once any wake-up raises on one of a segment's first two calls, the lock is free at the end |
| Traces.LockAlwaysReleased | FullTestCode.py:395-398 | After as many wake-ups as the holder has segments left, the lock is free and the flag is clear, whichever calls raise along the way. No state stays stuck in launching |
| Traces.FaultLeavesMotorsRunning | FullTestCode.py:377-398 | A fault at the gate servo right after spin-up leaves the flag clear, but the last motor commands were the nonzero launch duty. The motors are not stopped |
| Traces.BackToBackLaunchesBothAccepted | FullTestCode.py:352-371 | The flag is set only inside the thread, so two launch requests in a row are both accepted. Both threads queue on the lock, nothing is issued and nothing else changes |
| Traces.QueuedLaunchesRunInTurn | FullTestCode.py:362-398 | Of two queued launches, the second cannot start while the first holds the lock. Run in turn, they issue the whole body twice, one after the other, and end with the flag clear, the lock free and no thread waiting |
| Traces.ScenarioHalfPower | FullTestCode.py:327-398 | Power 50 then a launch run to the end issues duty 127 twice from the power request, then the body at 127, and ends idle with no thread waiting |
| Traces.ScenarioLowPower | FullTestCode.py:327-359 | Power 5 drives the motors at duty 12, and a launch is then refused as PowerTooLow with nothing changed |
| Traces.ScenarioBusy | FullTestCode.py:337-353 | During a launch, power 80 is stored but reaches no motor, and a further launch is Busy |

## Left out

- The HTML page, Flask routing and the JSON/text reply bodies (lines 70-304 and the return values). A launch reply is the enum `Accepted | Busy | PowerTooLow`, and the aim and power replies are the stored values.
- Camera capture and MJPEG streaming (`generate_frames`, `video_feed`). These are I/O through foreign libraries.
- The pigpio connection, pin modes, PWM frequency, the initial servo and motor commands (lines 18-49), and `cleanup`/`atexit` (lines 401-426). These are hardware setup outside the controller.
- Parsing of the power argument with `int(...)`, which raises on non-numeric text. Operations take an already parsed `Option<int>`.
- Floating point in `int(power * 255 / 100)`. For integer powers in 0..100 it equals integer division, which is what `DutyFor` uses.
- Real preemptive threading and real time. Sleeps are `Wait` entries, and the thread's progress is explicit steps between them. The scheduler may pick any waiting thread once the lock is free.
- The lost-update race on the flag. The `finally` reset (line 398) runs after `launch_lock` is released. A queued second thread could take the lock and set the flag before the first thread clears it, leaving a running sequence with the flag clear. The model runs each thread's lock release and flag reset as one step, so it does not show this interleaving.
- `print` logging of errors and startup messages.
- Controller.Advance: a fault may be placed on any command of a segment, including a `Wait`. This over-approximates which calls can raise; every property above holds for the larger set of behaviours.
- Traces.ManualLeavesLaunch: a second race is not modelled. The server handles requests on several threads (line 422). `control_motor` reads `is_launching` (line 337) and writes the motors (lines 342-343) in separate steps, and neither is atomic with the thread setting the flag (line 371) and starting the motors (lines 377-378). A power request that saw the flag clear can therefore write its duty after a launch has started, overriding the launch duty. The model runs each power request as one step, so this lemma and the next hold for the model but not for that interleaving of the program.
- Traces.CapturedPowerDrivesSequence: holds only for whole power requests, for the same race as the line above. A power request that read the flag before the thread set it can overwrite the captured duty on the motors after the thread has started them.
