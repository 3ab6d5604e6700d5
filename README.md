# Scanning ultrasonic radar: a verified model of the control cycle

The firmware drives a servo-mounted ultrasonic sensor on an ESP32. Each trip
through `loop()` does four things in order:

1. It writes the current angle to the servo.
2. It takes one distance reading and clamps it to the sensor's trusted range.
3. It runs a two-state detection latch. The latch drives an LED and a buzzer
   high or low on its edges.
4. Unless an object is within 50 cm, it advances the sweep one 5-degree step.
   The sweep is a triangle wave between 0 and 180 degrees.

The model has three modules:

- `Ranging` (`ranging.dfy`): the distance clamp of `getDistance`. It is a pure
  function of an arbitrary real reading.
- `Sweep` (`sweep.dfy`): the sweep step as a function on `(angle, forward)`.
  It also proves that the wave starting at `(0, forward)` has period 72. It
  passes 5, 10, ..., 180 on the way out and 175, ..., 0 on the way back. Its
  reachable states are exactly those in the invariant `SweepInv`.
- `Radar` (`radar.dfy`): the state `{currentAngle, movingForward, isDetecting,
  lastDistance}`, the specification `Step` of one cycle, and the fold `Run` of
  many cycles. It also proves the lemmas about the latch and the sweep, and
  holds the class `Controller`. That class keeps the four globals as fields.
  Its method `Loop` updates them in place, including the early `return` that
  freezes the sweep while latched, and is proved equal to `Step`.

The boundary between the controller and the hardware:

- A cycle's input is the raw distance, `duration * 0.0343 / 2`, as a real
  number.
- A cycle's output is one `Actuation`. It is `AlertOn` when the LED and the
  buzzer are driven high, `AlertOff` when both are driven low, and `NoEdge`
  when the pins are not written.

What this firmware does not do, and a point about its initial state:

- The code takes a single echo sample. There is no median-of-three filter.
- The detection threshold is the fixed constant 50.0 (`src/main.cpp:19`).
  There is no rotary-encoder configurator and no reset button.
- The published record holds only the angle and the distance. It does not
  hold a threshold.
- The initial `lastDistance` is 0 while the latch is clear. So "latched exactly
  when the last distance is at most 50" is not true of the initial state. The
  invariant `Inv` says instead that the state is latched exactly when the last
  distance is positive and at most 50. After any cycle the two readings agree.

## Model

| member | source | states |
|---|---|---|
| `Ranging.ClampDistance` | src/main.cpp:50 | The result is always in (0, 60]. A reading that is not positive or is above 60 becomes exactly 60. A reading in (0, 60] is returned unchanged. |
| `Ranging.ClampIsIdempotent` | src/main.cpp:50 | Clamping a clamped reading again changes nothing. |
| `Sweep.Next` | src/main.cpp:243-255 | The direction changes only in a step that lands on 180 (now backward) or on 0 (now forward). Every landing on 180 or 0 faces away from that end. A state on [0, 180] stays on it. From any state satisfying `SweepInv`, the result satisfies `SweepInv` and the angle changes by exactly 5 in the current direction. |
| `Sweep.After` | src/main.cpp:243-255 | Any number of sweep steps from a state satisfying `SweepInv` reaches a state satisfying `SweepInv`: angle in [0, 180], a multiple of 5, and forward at 0 and backward at 180. |
| `Sweep.AfterAdd` | src/main.cpp:243-255 | Taking a + b sweep steps equals taking a steps and then b more. |
| `Sweep.ForwardLeg` | src/main.cpp:243-248 | From the initial (0, forward), step k < 36 reaches (5k, forward), and step 36 reaches (180, backward). |
| `Sweep.BackwardLeg` | src/main.cpp:249-255 | Step 36 + k, for k < 36, reaches (180 - 5k, backward), and step 72 returns to (0, forward). |
| `Sweep.SweepIsPeriodic` | src/main.cpp:243-255 | The sweep from the initial state is periodic with period 72 steps. |
| `Sweep.ReachableIffInvariant` | src/main.cpp:243-255 | A sweep state satisfies `SweepInv` if and only if it is reached from (0, forward) within fewer than 72 steps. |
| `Radar.Step` | src/main.cpp:202-255 | The published distance is the clamped reading. After the cycle, the latch is set exactly when that reading is at most 50. The outputs are asserted exactly on a clear-to-latched edge and released exactly on a latched-to-clear edge. The sweep holds while latched and otherwise takes one `Sweep.Next` step. `Inv` is preserved. |
| `Radar.ClearingCycleAdvances` | src/main.cpp:223-255 | A cycle that finds the latch set and the reading above 50 releases the outputs, clears the latch and advances the sweep, all in the same cycle. |
| `Radar.Run` | src/main.cpp:202-239 | Over any series of cycles, the latch after cycle i is set exactly when reading i is at most 50, and `Inv` holds after every cycle. |
| `Radar.SweepCountsUnlatchedCycles` | src/main.cpp:206-255 | After cycle i, the sweep has taken exactly as many steps as there were unlatched readings among the first i + 1. |
| `Radar.FrozenWhileLatched` | src/main.cpp:206-221 | While every reading is at most 50, angle and direction stay unchanged for any number of consecutive cycles. |
| `Radar.UnobstructedScanIsTriangleWave` | src/main.cpp:243-255 | From the initial globals, with no reading at most 50, the head after cycle i is where i + 1 sweep steps from (0, forward) take it. |
| `Radar.OutputsFollowLatch` | src/main.cpp:206-229 | Every output write changes the pin level, so no assert comes while asserted and no release while released. After each cycle, the LED and buzzer level equals the latch. |
| `Radar.ExampleRun` | src/main.cpp:202-255 | The five outcomes of readings 60, 60, 40, 40, 60 from the initial globals, each given as state plus actuation. |
| `Radar.ExampleTrace` | src/main.cpp:206-255 | For readings 60, 60, 40, 40, 60, the latch goes F, F, T, T, F. The outputs are asserted once, at the 3rd reading, and released once, at the 5th. The angle goes 5, 10, 10, 10, 15. |
| `Radar.Controller.constructor` | src/main.cpp:34-37 | The globals start at angle 0, moving forward, distance 0, not detecting, and satisfy `Inv`. |
| `Radar.Controller.Loop` | src/main.cpp:194-255 | One in-place cycle. It leaves the globals exactly as `Radar.Step` says, returns the `Step` actuation, and preserves `Inv`. |

## Left out

- The web interface is left out. This covers the Wi-Fi soft access point, the HTTP server, `handleRoot`, `handleData` and the embedded HTML/JavaScript page. It is network I/O, number formatting and presentation.
- The LCD and Serial messages are left out. So are the servo writes and every `delay` and `delayMicroseconds` call. They are write-only hardware output and timing, and none of them feeds back into the state.
- The LED and the buzzer are always written together. Both are modelled by one `Actuation` per cycle, not as two pin writes.
- The echo measurement is left out: the trigger pulse, `pulseIn` with its 30 ms timeout, and the conversion `duration * 0.0343 / 2`. This is hardware timing and floating-point arithmetic. The model takes the converted reading as an arbitrary real and keeps only the clamp.
- `lastDistance` and the 50.0 limit are single-precision floats in the source. The model uses exact reals. The clamp and the two comparisons involve no arithmetic, so they mean the same on reals.
- `setup()` is not modelled beyond the initial values of the globals and the LED and buzzer starting low. That covers pin configuration, servo attachment, the start-up banner and network start-up.
- 32-bit `int` overflow of `currentAngle` is not modelled. Integers are unbounded. `SweepInv` keeps the angle in [0, 180] from the initial state, so no reachable state comes near the limit.
- The firmware runtime calls `loop()` again and again. That repetition is not in the source, so the model has no driver loop. Sequences of cycles are stated with the function `Radar.Run`.
