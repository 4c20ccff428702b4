# Fuzzy racing line: the per-frame control step

The program is a small simulation. A car is drawn on an 800-pixel-wide window and
steers towards a vertical reference line that moves. Once per frame the
program does the following:

1. The selected line controller moves the line. The sine controller uses
   `sin(t)`, the noise controller uses fractal noise, and the manual
   controller leaves it to the operator.
2. It measures the horizontal offset from the car to the line.
3. It normalises that offset and its frame-to-frame change into [-1, 1].
4. It feeds those two values to the selected fuzzy inference engine (one of
   five).
5. It checks that the engine's `direction` output is a number, and aborts if
   it is not.
6. It scales the output by the steering limit `carMaxTurnVector` and guards
   each axis.
7. It moves the car with one explicit Euler step and remembers the offset for
   the next frame.

The project has three modules:

- `Numeric` (`numeric.dfy`) holds the 2-vector, `Abs` and the guard `Limit`.
  The program writes the guard as two successive reassignments; `Clamp` is
  that sequence as a method, proved equal to `Limit`. `Numeric` also holds
  the small real-arithmetic lemmas the other proofs use.
- `Control` (`control.dfy`) specifies one frame as pure functions over a
  value of the carried state (`State`), the operator's settings (`Settings`)
  and the frame's inputs (`Frame`):
  - the time step, and the sine and noise samples, which come from outside
    the model;
  - the five engines, as a function from engine and inputs to a `Reading`
    (a number or NaN).
  
  `Step` is one frame and returns `Abort(NotANumber)` where the program
  aborts. `Run` folds `Step` over a sequence of frames. The lemmas state what
  the loop guarantees across frames.
- `Simulation` (`simulation.dfy`) holds the class `Racer`. Its fields are the
  loop's local variables, which the program updates in place. `Tick` runs
  one frame imperatively, in the program's own order, and is proved to
  reach exactly the state `Step` describes. `SelectEngine` is the engine
  selector.

The scales are derived from the window width (`ScalesFollowWindowWidth`):

| scale | value |
|---|---|
| distance divisor | 800 / 4 = 200 |
| velocity divisor | 800 / 12 in unsigned integer arithmetic = 66 |
| line centre | 800 / 2 = 400 |
| line amplitude | 800 / 4 = 200 |

The velocity divisor follows the code, which divides by `windowSize.x / 12`.
It is not a tunable fraction of the width, so an offset falling from 200 to
190 gives a velocity input of 10/66 (`WorkedValues`).

The program aborts on a NaN output after the line has already moved. The
model therefore returns a fault value: `Tick` returns `false` with the line
moved and the rest of the state untouched.

When the x limit is negative (the operator's slider allows down to -0.75),
the two guards always leave `-max.x`, whatever the engine says
(`NegativeLimitIgnoresEngine`). The model keeps the guards exactly as
written.

## Model

| member | source | states |
|---|---|---|
| Numeric.Limit | fuzzyracingline/main.cpp:241-242 | The two successive guards give a value within plus or minus the limit's magnitude. For a non-negative limit they leave values inside the band alone and saturate to the nearer bound outside it. For a negative limit the result is always `-limit`. |
| Numeric.Clamp | fuzzyracingline/main.cpp:262-263 | The guard run as two reassignments gives exactly `Limit`. |
| Control.Selected | fuzzyracingline/main.cpp:173-182 | Selector positions 0-4 select the engine at that position (`IndexOf(e) == selectedFis`). Every other position keeps the current engine (the `default: break`). |
| Control.IndexOfEngineAt | fuzzyracingline/main.cpp:175-179 | The five cases map positions to engines one-to-one. |
| Control.SelectedIndexOf | fuzzyracingline/main.cpp:173-182 | Choosing an engine's own position selects that engine, from any current engine. |
| Simulation.Racer.SelectEngine | fuzzyracingline/main.cpp:173-182 | The switch statement leaves exactly `Selected(old engine, position)` and changes no other field. |
| Control.DistanceFromLine | fuzzyracingline/main.cpp:31-35 | The result is non-negative and its square is the squared horizontal difference (the vertical difference is replaced by 0). |
| Control.DistanceFromLineIsAbsolute | fuzzyracingline/main.cpp:31-35 | The square-root definition equals the absolute horizontal difference. It is symmetric in its two points and independent of both vertical coordinates. |
| Control.NormalisedDistance | fuzzyracingline/main.cpp:239-242 | The distance input lies in [-1, 1]. It equals offset/200 when the offset is within 200 pixels, and saturates to 1 or -1 beyond that. |
| Control.NormalisedVelocity | fuzzyracingline/main.cpp:244-247 | The velocity input lies in [-1, 1] and equals (previous - current)/66 when the change is within 66. A change beyond 66 saturates to exactly 1 or -1. The input is positive exactly when the offset shrank and zero exactly when it did not change. |
| Simulation.Racer.Inputs | fuzzyracingline/main.cpp:239-247 | The two inputs, computed with the guards as written, are `NormalisedDistance` and `NormalisedVelocity` of the offset against the current positions. |
| Control.Command | fuzzyracingline/main.cpp:257-265 | The steering vector is within the limits on both axes. For a non-negative x limit its x component is `direction * max.x` when the output is in [-1, 1], and the bound when the output is beyond it. For a non-negative y limit its y component is `max.y`. |
| Control.ScaledDirection | fuzzyracingline/main.cpp:262-263 | With a non-negative limit the x guards leave `direction * m` unchanged for outputs in [-1, 1], and give `m` or `-m` for outputs beyond. |
| Control.NegativeLimitIgnoresEngine | fuzzyracingline/main.cpp:262-263 | With a negative x limit the guarded x component is `-max.x` for every engine output. |
| Simulation.Racer.Steering | fuzzyracingline/main.cpp:257-265 | The steering vector built and guarded component by component equals `Command`. |
| Control.Advance | fuzzyracingline/main.cpp:274-279 | The Euler step keeps the vertical position. It moves the car horizontally by exactly `Abs(dir.x) * Abs(speed) * Abs(delta)`, against the command: left when `dir.x * speed * delta` is positive, right when it is negative. Magnitude and direction together fix the new x as `car.x - dir.x * speed * delta`. |
| Control.DriveLine | fuzzyracingline/main.cpp:211-230 | The line's vertical position never changes. Under the sine or noise controller the line lies `Abs(sample) * 200` from the centre 400: left of it for a positive sample, right of it for a negative one. This fixes x as `400 - sample * 200`. A sample in [-1, 1] therefore keeps the line within 200 of the centre. The manual controller and any other selection leave the line unchanged. |
| Simulation.Racer.MoveLine | fuzzyracingline/main.cpp:211-230 | The switch statement leaves the line exactly at `DriveLine` and changes no other field. |
| Control.Step | fuzzyracingline/main.cpp:211-286 | A frame aborts exactly when the engine's output for this frame's inputs is NaN. Otherwise it stores the moved line and sets the steering vector to the guarded `Command` for the engine's output, which keeps it within the limits. It moves the car by one `Advance` step with that vector, which keeps the car's vertical position. It remembers the offset measured this frame and keeps the engine. |
| Simulation.Racer.Tick | fuzzyracingline/main.cpp:211-286 | The in-place frame returns `true` exactly when `Step` succeeds, and then leaves exactly `Step`'s state. On NaN it has moved the line and left car, steering, offset and engine untouched. The operator's settings never change. |
| Simulation.Racer.constructor | fuzzyracingline/main.cpp:47-97 | Before the loop: car at (200, 300), line at (400, 300), zero steering, first engine, previous offset 200, speed 250, limit (0.75, 0.2), sine controller. |
| Control.Run | fuzzyracingline/main.cpp:100-286 | Over any sequence of frames with fixed settings, a successful run keeps the engine and the car's vertical position. A non-empty run ends with a steering vector within the limits. A run under the manual controller leaves the line where it was. |
| Control.StepDisplacement | fuzzyracingline/main.cpp:257-279 | With a non-negative x limit, speed and time step, a frame moves the car by at most limit * speed * delta. |
| Control.RunDisplacement | fuzzyracingline/main.cpp:257-279 | Over any successful run, the car's total horizontal travel is at most limit * speed * elapsed time. |
| Control.RunKeepsLineInBand | fuzzyracingline/main.cpp:211-222 | Under the sine or noise controller with samples in [-1, 1], the line stays within 200 of the centre after any non-empty run. |
| Control.NextVelocityIsOffsetChange | fuzzyracingline/main.cpp:244-286 | The offset remembered at the end of a frame is the one the next frame's velocity input is measured against. |
| Control.StartSignals | fuzzyracingline/main.cpp:80-97 | From the start state the offset is 200, so the distance input is exactly 1, and the first velocity input against an unmoved line is 0. |
| Control.ScalesFollowWindowWidth | fuzzyracingline/main.cpp:215-245 | The divisors, centre and amplitude are the 800-pixel width's quarter, truncated twelfth and half. |
| Control.WorkedValues | fuzzyracingline/main.cpp:244-279 | An offset falling from 200 to 190 gives velocity 10/66. A command of 0.5 at speed 250 over 0.02 s moves the car from x = 200 to 197.5. |

## Left out

- Window, event polling, drawing, on-screen text and the debug-UI widgets (main.cpp outside the lines cited above) are presentation only.
- The fuzzy inference engines' rule evaluation and the loading of their configuration files belong to the fuzzy-logic library, which is not part of this model. An engine is an arbitrary function from the selected engine and the two inputs to a number or NaN.
- The engines' readiness status is left out. The frame never consults it, and an engine's inability to answer shows up only as its output.
- The sine of the run time and the fractal noise sample are frame inputs. So is the time step, which the program reads from a clock. The model keeps only how they place the line and move the car.
- The car speed and steering limit sliders are left out. The model treats their values as `Settings` changed between frames, and does not enforce the slider ranges.
- The manual line position slider is left out. It writes the line's x directly, which the model treats as a change to the carried `State.line` between frames.
- The car's heading (`atan2` of the steering vector and its conversion to degrees, which only sets the drawn rotation) is not modelled.
- Floating-point rounding, infinities and overflow are not modelled. Positions and signals are reals, and the modelled engine output is a finite real or NaN.
- The program's infinite-output path is not captured. An infinite `direction` passes the NaN check. With an x limit of 0 (within the slider's range), infinity times 0 then puts NaN into the steering vector and the car's x without aborting the frame.
- The engine summaries shown in the tree node are text only.
- The manual-input panel that queries an engine directly is not part of the frame.
- The NaN check terminates the whole process in the program. The model returns `Abort(NotANumber)`, or `false` from `Tick`, and says what state has been reached by then.
- Control.StepDisplacement: the travel bound is stated only for a non-negative x limit, speed and time step. With a negative limit the bound uses `|max.x|` instead, which the lemma does not cover.
- Control.RunDisplacement: stated under the same non-negativity assumptions as `StepDisplacement`.
