# Halloween prize wheel: spin-and-resolve engine

This project models the core of a "Dulce o Truco" prize wheel. The wheel has
eight labelled segments. Pressing space starts a spin with a random number of
extra turns. Each frame, `update` moves the wheel's angle along an ease-out
cubic curve. When the spin's time is up the wheel stops and its angle is
reduced into one turn. The result is the label of the segment that the
resolver assigns to the pointer position, and it is shown for a few seconds.

The wheel has two calibration offsets, and both always wrap into one turn.
The image offset places the drawn labels; the left and right keys adjust it
(main.py:34-37). The pointer offset enters only the index computation. In
this program the event loop never calls `adjust_pointer_offset`: the up and
down keys call `nudge` (main.py:38-41), although the calibration overlay
labels them "Pointer Offset" (wheel.py:258). The only event that changes the
pointer offset is the reset key, which sets it to 0 (main.py:32).
`adjust_pointer_offset` is still modelled, as an operation nothing calls yet.

The resolver reads the pointer at wheel position −π/2 + pointer_offset −
angle (wheel.py:201-202). The drawing turns the label layer by `angle` with
`rotozoom` (wheel.py:215-218), and the labels are laid out with the screen's
y axis pointing down (wheel.py:54-55, 163). As written, that puts the drawn
label under the top pointer at −π/2 + angle − image_offset, where `angle` has
the opposite sign. So the resolver's segment is not in general the one drawn
under the pointer. This comes from reading the source; nothing was executed.
The model states only what the resolver chooses.

The Dafny model has four modules:

- `Config` (config.dfy): the constants of config.py and the facts about them
  that the engine relies on. `NSegments` is N_SEGMENTS (8), `SegmentLabels`
  is SEGMENT_LABELS, `SegmentAngle` is SEGMENT_ANGLE (2π/8), `SpinMinTurns`
  and `SpinMaxTurns` are SPIN_MIN_TURNS and SPIN_MAX_TURNS (6.2 and 12.4),
  and `SpinDuration` and `ResultTime` are SPIN_DURATION and RESULT_TIME
  (6.2 s and 2.4 s), all as at config.py:16-26.
- `WheelMath` (wheel_math.dfy): the pure arithmetic of wheel.py. It holds
  Python's floored `%` by 2π (`NormalizeAngle`), `ease_out_cubic`, the clamped
  progress `t`, and the resolver that turns an angle and a pointer offset into
  a segment index.
- `SpinModel` (spin_model.dfy): the wheel's fields as a value `WheelState`,
  with one transition function per operation. The lemmas say what sequences
  of operations do: a spin finishes exactly once, the angle never decreases
  while it runs, and the result is the label of the resolved segment.
- `Wheels` (wheel.dfy): the `Wheel` class with the same fields, updated in
  place by methods that follow the source statement by statement. Each method
  is proved to produce `SpinModel`'s transition of its old state, so all of
  `SpinModel`'s lemmas hold of the object.

Modelling choices:

- Angles and times are exact reals. π is the constant 3.141592653589793,
  the decimal that Python's `math.pi` prints as. Most lemmas only use that π
  is positive and large compared with the 1e-7 bias. The worked example and
  the index-wrap witness compute with its value.
- `time.time()` becomes a parameter `now`. The value of
  `random.uniform(SPIN_MIN_TURNS, SPIN_MAX_TURNS)` becomes a parameter `turns`,
  required to lie in that range.
- The label layer `labels_base` is drawn from `image_offset`. It is modelled
  by `labelsOffset`, the image offset the layer was last built with.
  `rebuild_labels` sets it. The invariant `WellFormed` states that it always
  equals `imageOffset`.
- With angle 0 and pointer offset 0 the resolver gives segment 6
  ("Dulce"), which `WorkedExample` proves.
- Every spin takes a random number of turns (wheel.py:188); there is no way
  to aim a spin at a chosen segment.
- `start_spin` itself also accepts a wheel that is already spinning. The
  event loop only calls it when the wheel is idle (main.py:24), and the model
  takes that guard as `StartSpin`'s precondition.

## Model

| member | source | states |
|---|---|---|
| `Config.SegmentLabels` | config.py:16-17 | one label per segment, each "Dulce" or "Truco" (built as `"Dulce" if i % 2 == 0 else "Truco"`) |
| `Config.LabelsPerSegment` | config.py:16-17 | there is exactly one label per segment |
| `Config.LabelParity` | config.py:17 | label i is "Dulce" iff i is even and "Truco" iff i is odd |
| `Config.LabelCounts` | config.py:16-17 | every label is "Dulce" or "Truco", and each occurs exactly four times |
| `Config.SegmentsCoverTurn` | config.py:16-18 | the segment width is positive and eight widths make one full turn |
| `Config.TurnRangeNonEmpty` | config.py:23-24 | 0 < SPIN_MIN_TURNS <= SPIN_MAX_TURNS, so the sampled range is non-empty |
| `Config.TimesPositive` | config.py:25-26 | the spin duration (a divisor in `update`) and the result time are positive |
| `WheelMath.NormalizeAngle` | wheel.py:198-202 | the floored `%` by 2π always lands in [0, 2π) |
| `WheelMath.NormalizeAngleUnique` | wheel.py:198-202 | the remainder is the only angle in [0, 2π) that differs from the input by whole turns |
| `WheelMath.NormalizeInTurn` | wheel.py:198 | an angle already in [0, 2π) is left unchanged |
| `WheelMath.NormalizeAddTurns` | wheel.py:198-202 | adding whole turns does not change the remainder |
| `WheelMath.NormalizeThenAdd` | wheel.py:243-247 | wrapping after each adjustment gives the same offset as wrapping once after their sum |
| `WheelMath.EaseOutCubic` | wheel.py:75-77 | on [0, 1] the eased value stays in [0, 1] |
| `WheelMath.EaseEndpoints` | wheel.py:75-77 | the curve maps 0 to 0 and 1 to 1 |
| `WheelMath.EaseMonotone` | wheel.py:75-77 | the curve is nondecreasing everywhere |
| `WheelMath.Progress` | wheel.py:194 | t is at most 1; it equals 1 iff the spin's duration has elapsed; it is non-negative once the clock has reached the start time |
| `WheelMath.ProgressMonotone` | wheel.py:194 | a later clock reading never gives a smaller t |
| `WheelMath.SpinAngle` | wheel.py:195 | `start_angle + total_rotation * ease_out_cubic(t)`: at t = 0 it is the start angle, at t = 1 the start angle plus the whole rotation |
| `WheelMath.SpinAngleBounds` | wheel.py:195 | for t in [0, 1] the angle lies between the start angle and the start angle plus the whole rotation |
| `WheelMath.SpinAngleMonotone` | wheel.py:195 | a forward rotation never goes back as t grows |
| `WheelMath.PointerOnWheel` | wheel.py:201-202 | the pointer's position on the unrotated wheel lies in [0, 2π) |
| `WheelMath.SegmentQuotient` | wheel.py:203 | the floor quotient before `% N_SEGMENTS`: for a position in [0, 2π) it lies in [0, N_SEGMENTS], and it equals N_SEGMENTS exactly when the bias carries the position past a full turn |
| `WheelMath.ResolveIndex` | wheel.py:201-203 | the resolved index is in [0, N_SEGMENTS) for every angle and offset |
| `WheelMath.ResolveIndexSegment` | wheel.py:201-203 | the index is the segment whose arc holds the biased pointer position, read modulo a turn; past a full turn it is segment 0 |
| `WheelMath.QuotientReachesSegmentCount` | wheel.py:203 | for some angle the quotient before the final `% N_SEGMENTS` equals N_SEGMENTS, and the final `%` maps it to 0 |
| `WheelMath.ResolveIndexPeriodic` | wheel.py:201-203 | whole turns of the angle or of the pointer offset do not change the index |
| `WheelMath.PointerOnWheelShift` | wheel.py:201-202 | moving the pointer offset by one segment width moves the pointer's wheel position by that width, less a turn when it crosses 2π |
| `WheelMath.PointerOffsetShiftsIndex` | wheel.py:201-203 | moving the pointer offset by one segment width moves the index to the next segment, wrapping after the last |
| `WheelMath.WorkedExample` | wheel.py:201-205 | with angle 0 and pointer offset 0 the pointer sits at 3π/2, index 6, label "Dulce" |
| `SpinModel.WellFormed` | wheel.py:100-122 | the invariant every transition keeps: both offsets in [0, 2π), the label layer built with the image offset, an idle angle in [0, 2π), a running spin with duration SPIN_DURATION, a start angle in [0, 2π) and a rotation in [SPIN_MIN_TURNS·2π, SPIN_MAX_TURNS·2π], and a result that is one of the labels |
| `SpinModel.Init` | wheel.py:99-122 | the initial state is well formed and idle, with no result and angle 0 |
| `SpinModel.StartSpin` | wheel.py:183-189 | the wheel is spinning, `start_time = now`, `duration = SPIN_DURATION`, `start_angle = angle`, and the rotation is in [SPIN_MIN_TURNS·2π, SPIN_MAX_TURNS·2π]; no other field changes |
| `SpinModel.Update` | wheel.py:191-206 | the state stays well formed; an idle wheel is unchanged; only the angle, the spinning flag and the result fields can change |
| `SpinModel.AdjustImageOffset` | wheel.py:242-244 | the image offset is wrapped into [0, 2π) and the label layer is rebuilt with it; nothing else changes |
| `SpinModel.AdjustPointerOffset` | wheel.py:246-247 | the pointer offset is wrapped into [0, 2π); nothing else changes |
| `SpinModel.Nudge` | wheel.py:131-134 | the pixel offsets move by (dx, dy) and nothing else changes |
| `SpinModel.Reset` | main.py:30-33 | both offsets and the label layer's offset become 0 and nothing else changes |
| `SpinModel.UpdateWhileRunning` | wheel.py:194-195 | before the time is up, `update` only sets the angle to the eased value, which lies between the start angle and the start angle plus the rotation |
| `SpinModel.UpdateFinishes` | wheel.py:196-206 | once the time is up the spin stops, the angle is (start angle + rotation) mod 2π in [0, 2π), the result is the label of the segment `ResolveIndex` gives for that angle and the pointer offset, and it is shown until now + RESULT_TIME |
| `SpinModel.FinishIsFinal` | wheel.py:192-206 | after the finish, any later `update` leaves the whole state, angle and result included, unchanged |
| `SpinModel.UpdateForgetsFrames` | wheel.py:194-195 | the angle during a spin depends on the clock only, not on earlier frames |
| `SpinModel.AngleNeverDecreases` | wheel.py:194-195 | while the spin runs, a later clock reading never gives a smaller angle |
| `SpinModel.SpinLands` | wheel.py:183-206 | a spin updated after its duration lands on (angle + turns·2π) mod 2π, with the label of the segment `ResolveIndex` gives for that angle as result |
| `SpinModel.UpdateIgnoresImageOffset` | wheel.py:201-203 | the image offset has no influence on any `update`, so the result depends on the pointer offset only |
| `SpinModel.PointerOffsetFourHalfTurns` | wheel.py:246-247 | four pointer adjustments by π return a wrapped offset to its original value |
| `SpinModel.ImageOffsetFourHalfTurns` | wheel.py:242-244 | four image adjustments by π return a wrapped offset, and the label layer, to their original values |
| `Wheels.Wheel.State` | wheel.py:100-122 | the object's spin, result, calibration and pixel-offset fields as one `WheelState` value, plus the offset the label layer was built with |
| `Wheels.Wheel.constructor` | wheel.py:99-126 | the new object's fields are the initial state |
| `Wheels.Wheel.Nudge` | wheel.py:131-134 | the object makes the `Nudge` transition |
| `Wheels.Wheel.RebuildLabels` | wheel.py:178-180 | the label layer now matches the image offset |
| `Wheels.Wheel.StartSpin` | wheel.py:183-189 | the object makes the `StartSpin` transition and is spinning |
| `Wheels.Wheel.Update` | wheel.py:191-206 | the object makes the `Update` transition and stays valid |
| `Wheels.Wheel.AdjustImageOffset` | wheel.py:242-244 | the object makes the `AdjustImageOffset` transition |
| `Wheels.Wheel.AdjustPointerOffset` | wheel.py:246-247 | the object makes the `AdjustPointerOffset` transition |
| `Wheels.Wheel.Reset` | main.py:30-33 | the object makes the `Reset` transition |
| `Wheels.SpinToResult` | main.py:24-43 | a space press on an idle wheel, followed by frames up to the end of the spin, leaves the wheel idle at (angle + turns·2π) mod 2π, with the label of the resolved segment as result until the last frame + RESULT_TIME |

## Left out

- Rendering with pygame is left out: `draw_arc_text`, `_measure_text_angle` (defined twice), `draw`, `draw_pointer`, `_build_labels_surface`, `_draw_calibration_overlay`, and image and font loading. The label layer is reduced to the offset it was built with.
- The result banner's image choice and its `now < result_until` display check (wheel.py:228-240) are rendering. Only the `result` and `result_until` fields are kept.
- Which label is drawn under the pointer on screen is rendering and is not modelled; the model states only the segment the resolver picks.
- The calibration overlay toggle (`show_calib`, main.py:28-29) only affects drawing, so it is not modelled.
- Floating-point rounding is not modelled; all arithmetic is exact. So the float `%` returning exactly 2π for a tiny negative input is not captured, nor are rounding errors that the 1e-7 bias is there to absorb. The bias itself is kept as the exact constant 1e-7.
- Wheels.Wheel.Update: `update` reads the clock twice (wheel.py:194 and 206). The model uses one reading `now` for both.
- The event loop, key dispatch, window setup and frame timing in main.py are left out, apart from the spin guard (main.py:24) and the reset key (main.py:30-33).
- Serial-port button input (serial_manager.py, test_serial.py) and the background (background.py) are I/O and drawing, and are not part of this model.
