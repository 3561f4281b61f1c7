# ArcGauge in Dafny

A model of the integer state machine inside the `ArcGauge` Android view. The view draws a
270-degree arc gauge. Its state has three parts:

- configuration: range, alarm level, warning level, unit and label;
- the current value and the active/paused flag;
- two fixed-point angles in hundredths of a degree (0..27000): `targetAngle`, where the
  needle is heading, and `currentAngle`, where it is drawn.

A coroutine loop moves `currentAngle` toward `targetAngle` by 10 per tick. The colour of the
centre circle depends on where the animated angle lies relative to the warning and alarm
marks.

Modules, one per part of the view:

- `KotlinInt` (`kotlin_int.dfy`): Kotlin `Int` wrap-around and truncating division.
- `AngleModel` (`angle_model.dfy`): `calculateCentiDegreeAngle` and its properties. It also
  holds the 32-bit overflow (see Findings).
- `Levels` (`levels.dfy`): how `setupArcGauge` demotes levels and how `setValue` clamps a value.
- `Animation` (`animation.dfy`): one tick of the loop (`Step`) and the sequence of drawn
  angles (`Trajectory`), with its length, closed form and convergence.
- `Display` (`display.dfy`): the decisions `onDraw` makes from integer state. These are the
  zone colour (`getColor`), the text in the big circle and the end cap.
- `Gauge` (`arc_gauge.dfy`): the classes `ArcGauge` and `LevelMark`. They have the source's
  fields and methods that update them in place. `Valid()` is the object invariant every
  method keeps. The file ends with scenario methods that drive a fresh gauge; their ensures are proved.

Behaviour the model reproduces on purpose:

- Before the first successful setup, `range` is -1. `setValue` on an active gauge then
  divides by -1, not by zero. The value becomes -1 or 0, and the target angle becomes
  27000 or 0 (`Gauge.SetValueBeforeSetup`). So no `requires range >= 1` is placed on
  `SetValue`.
- `getColor` compares against the marks' stored angles and ignores `toShow`. A hidden mark
  keeps a stale angle, or -1 if it was never shown. So an alarm level rejected by the
  first setup paints every active value red (`Gauge.RejectedAlarmPaintsRed`).
- Repeating a setup whose level was demoted still redraws. The early return compares the
  new arguments with the stored, demoted levels (`Gauge.RepeatedSetup`). Only the resulting
  state is the same.
- Integer truncation can give different levels the same angle once range exceeds 27000.
  So a shown warning mark is only guaranteed to be at or below the alarm mark, and strictly
  below it only for range at most 27000 (`Gauge.WarningMarkBelowAlarmMark`,
  `AngleModel.TruncationMergesNeighbours`).
- The `isActive` in the animation loop's guard is the coroutine's, not the view's field.
  Pausing therefore does not stop the animation.

## Model

| member | source | states |
|---|---|---|
| `KotlinInt.Wrap32` | app/src/main/java/viby/arcgaugetest/ArcGauge.kt:475 | The Kotlin `Int` result of a product is a 32-bit value congruent to the exact one modulo 2^32, and equal to it when it fits. |
| `KotlinInt.Div` | app/src/main/java/viby/arcgaugetest/ArcGauge.kt:475 | Kotlin `/` truncates: the quotient's magnitude is the magnitudes' quotient and its sign follows the operands. It agrees with Euclidean division on non-negative operands. |
| `AngleModel.CentiDegreeAngle` | app/src/main/java/viby/arcgaugetest/ArcGauge.kt:474-476 | The gauge's angle, with the product taken exactly. For range >= 1 and value >= 0 it is the largest whole angle with angle * range <= value * 27000. With range -1 it is -(value * 27000). |
| `AngleModel.CentiDegreeAngleAsWritten` | app/src/main/java/viby/arcgaugetest/ArcGauge.kt:474-476 | The source's computation, with the product wrapped to 32 bits. Whenever value * 27000 fits an `Int` it equals the exact angle. |
| `AngleModel.AngleBounds` | app/src/main/java/viby/arcgaugetest/ArcGauge.kt:474-476 | For range >= 1 and a value in 0..range the angle lies in 0..27000. It is 0 at value 0 and 27000 at value == range. |
| `AngleModel.AngleMonotone` | app/src/main/java/viby/arcgaugetest/ArcGauge.kt:474-476 | A larger value never gets a smaller angle. |
| `AngleModel.AngleStrictlyMonotone` | app/src/main/java/viby/arcgaugetest/ArcGauge.kt:474-476 | For range <= 27000 a larger value always gets a strictly larger angle. |
| `AngleModel.TruncationMergesNeighbours` | app/src/main/java/viby/arcgaugetest/ArcGauge.kt:474-476 | With range 100000, values 1 and 2 both get angle 0. |
| `AngleModel.AngleFullSweepIff` | app/src/main/java/viby/arcgaugetest/ArcGauge.kt:474-476 | For a value in 0..range the angle is 27000 exactly when value == range. |
| `AngleModel.AngleBeforeSetup` | app/src/main/java/viby/arcgaugetest/ArcGauge.kt:474-476 | With the initial range -1, value -1 maps to 27000 and value 0 maps to 0. |
| `AngleModel.AsWrittenAgreesUpToSafeRange` | app/src/main/java/viby/arcgaugetest/ArcGauge.kt:474-476 | For range up to 79536 the wrapping `Int` computation equals the exact angle for every value in 0..range. |
| `AngleModel.AsWrittenOverflowsAboveSafeRange` | app/src/main/java/viby/arcgaugetest/ArcGauge.kt:474-476 | At range = value = 79537 the source's computation gives -26999, where the exact angle is 27000. |
| `Levels.AlarmLevelFor` | app/src/main/java/viby/arcgaugetest/ArcGauge.kt:179-183 | The stored alarm level is shown exactly when the requested one lies in 0..range. A shown level is the requested one; otherwise it is range + 1. |
| `Levels.WarningLevelFor` | app/src/main/java/viby/arcgaugetest/ArcGauge.kt:186-190 | The stored warning level is shown exactly when the requested one lies in 0..range and below the stored alarm level. A shown level is the requested one; otherwise it is range + 1. |
| `Levels.DemotedLevelsAdmissible` | app/src/main/java/viby/arcgaugetest/ArcGauge.kt:177-191 | For any arguments, each stored level is shown or is range + 1, and a shown warning level is strictly below the alarm level. |
| `Levels.AlarmWinsConflict` | app/src/main/java/viby/arcgaugetest/ArcGauge.kt:179-190 | When both requested levels are in range and warning >= alarm, the alarm level is kept and the warning level is hidden. |
| `Levels.ClampValue` | app/src/main/java/viby/arcgaugetest/ArcGauge.kt:207-211 | For range >= 0 the clamped value lies in 0..range. A value already in range is kept, one above range becomes range, and a negative one (not above range) becomes 0. With range -1 the result is -1 or 0. |
| `Animation.Step` | app/src/main/java/viby/arcgaugetest/ArcGauge.kt:459-465 | One tick lands between the current angle and the target. It cuts the distance to the target by exactly min(10, distance). |
| `Animation.Trajectory` | app/src/main/java/viby/arcgaugetest/ArcGauge.kt:458-466 | The angles an uncancelled loop draws, one per tick. There are none exactly when the needle already stands on the target, and every one lies between the start and the target. |
| `Animation.StoppedLoopDrewPrefix` | app/src/main/java/viby/arcgaugetest/ArcGauge.kt:458-468 | A loop that stopped has drawn a prefix of the trajectory, min(allowed, ceil(distance/10)) frames long. Given enough ticks it stands on the target. |
| `Animation.TrajectoryLength` | app/src/main/java/viby/arcgaugetest/ArcGauge.kt:458-465 | An uncancelled loop runs ceil(abs(target - current) / 10) ticks. |
| `Animation.TrajectoryClosedForm` | app/src/main/java/viby/arcgaugetest/ArcGauge.kt:458-465 | After tick i + 1 the angle is 10 * (i + 1) toward the target, or the target itself. |
| `Animation.TrajectoryArrives` | app/src/main/java/viby/arcgaugetest/ArcGauge.kt:458-465 | The last angle an uncancelled loop draws is the target. |
| `Animation.TrajectoryNeverOvershoots` | app/src/main/java/viby/arcgaugetest/ArcGauge.kt:458-465 | Every drawn angle lies between the start and the target. No tick moves away from the target or by more than 10. |
| `Animation.SweepFromZeroTo5000` | app/src/main/java/viby/arcgaugetest/ArcGauge.kt:458-465 | From 0 to 5000 the loop takes 500 ticks, drawing 10, 20, ..., 5000. |
| `Display.ZoneFor` | app/src/main/java/viby/arcgaugetest/ArcGauge.kt:478-485 | Neutral exactly when paused or no value is set. Otherwise red at or above the alarm angle, yellow in [warning, alarm), and green below both. |
| `Display.ZoneRisesWithAngle` | app/src/main/java/viby/arcgaugetest/ArcGauge.kt:478-485 | For a shown value, a larger angle never gets a less severe colour. |
| `Display.NeverShownAlarmIsAlwaysRed` | app/src/main/java/viby/arcgaugetest/ArcGauge.kt:478-485 | With the alarm mark's initial angle -1, every angle on the arc is red while active. |
| `Display.NatToString` | app/src/main/java/viby/arcgaugetest/ArcGauge.kt:304 | The decimal text of a value is in canonical form: at least one digit, and no leading zero unless it is "0". |
| `Display.CanonicalDecimalUnique` | app/src/main/java/viby/arcgaugetest/ArcGauge.kt:304 | Every canonical digit string is the text printed for the number it reads back as, so the printed form is the only canonical one. |
| `Display.NatToStringRoundTrip` | app/src/main/java/viby/arcgaugetest/ArcGauge.kt:304 | Reading the decimal text back gives the value. |
| `Display.IsBlank` | app/src/main/java/viby/arcgaugetest/ArcGauge.kt:304 | Kotlin's `isBlank`: every character is whitespace, so the empty unit is blank. |
| `Display.UnitSuffix` | app/src/main/java/viby/arcgaugetest/ArcGauge.kt:304 | The suffix after the number is empty exactly when the unit is blank. Otherwise it is one space followed by the unit. |
| `Display.ValueTextFor` | app/src/main/java/viby/arcgaugetest/ArcGauge.kt:303-307 | The text is "---" exactly when the gauge is paused or holds no value. |
| `Display.ValueTextReadsBack` | app/src/main/java/viby/arcgaugetest/ArcGauge.kt:303-307 | A shown text starts with a canonical digit string that reads back as the value. After it comes only " " + unit, or nothing when the unit is blank. |
| `Display.DrawsEndCap` | app/src/main/java/viby/arcgaugetest/ArcGauge.kt:284-289 | The end cap is drawn only on a set-up gauge (range >= 0), only while a value is shown, and only at angle 27000 (:351). |
| `Display.EndCapIffValueAtRange` | app/src/main/java/viby/arcgaugetest/ArcGauge.kt:351 | On an active gauge with the needle settled on a value's angle, the end cap is drawn exactly when the value equals range. |
| `Gauge.LevelMark.constructor` | app/src/main/java/viby/arcgaugetest/ArcGauge.kt:500-510 | A new mark is hidden with angle -1. |
| `Gauge.RecomputedMarkAgrees` | app/src/main/java/viby/arcgaugetest/ArcGauge.kt:435-452 | After recomputation on a configured gauge, a mark is shown exactly when its level is in range. A shown mark holds the level's angle. |
| `Gauge.ArcGauge.constructor` | app/src/main/java/viby/arcgaugetest/ArcGauge.kt:71-77 | Initial state: range, levels and value -1; unit and label empty; paused; both angles 0; both marks hidden at -1. The invariant holds. |
| `Gauge.ArcGauge.SetupArcGauge` | app/src/main/java/viby/arcgaugetest/ArcGauge.kt:163-197 | Unit and label default to empty. Nothing changes when all five arguments equal the stored fields or newRange < 1. Otherwise range, unit and label are replaced, the levels are demoted by the rules above, and both marks are recomputed. The invariant is kept. |
| `Gauge.ArcGauge.CalculateLevelPosition` | app/src/main/java/viby/arcgaugetest/ArcGauge.kt:435-453 | toShow is set exactly when the level is in 0..range. A shown mark gets the level's angle; a hidden one keeps its old angle. |
| `Gauge.ArcGauge.RecalculateLevelMarks` | app/src/main/java/viby/arcgaugetest/ArcGauge.kt:270-271 | Recomputing both marks of a valid gauge leaves them as they were. |
| `Gauge.ArcGauge.SetValue` | app/src/main/java/viby/arcgaugetest/ArcGauge.kt:200-214 | No change for an equal value or while paused. Otherwise the value is clamped, the target is the clamped value's angle, and an animation starts. Only value and targetAngle may change. |
| `Gauge.ArcGauge.Restore` | app/src/main/java/viby/arcgaugetest/ArcGauge.kt:216-224 | isActive is set. For a value in 0..range, value is stored and both angles snap to its angle; otherwise value and angles stay. |
| `Gauge.ArcGauge.Pause` | app/src/main/java/viby/arcgaugetest/ArcGauge.kt:227-230 | Only isActive changes, to false. |
| `Gauge.ArcGauge.Resume` | app/src/main/java/viby/arcgaugetest/ArcGauge.kt:233-236 | Only isActive changes, to true. |
| `Gauge.ArcGauge.StartAnimation` | app/src/main/java/viby/arcgaugetest/ArcGauge.kt:455-470 | The frames drawn are a prefix of the trajectory, min(ticks allowed, ceil(distance/10)) long. currentAngle ends on the last frame, and on the target when the loop was not cancelled early. Only currentAngle changes. |
| `Gauge.ArcGauge.Color` | app/src/main/java/viby/arcgaugetest/ArcGauge.kt:478-485 | Neutral exactly when no value is shown. On a valid gauge with the alarm mark shown, red exactly from the alarm level's angle. With both marks shown, yellow exactly between the warning and alarm levels' angles. |
| `Gauge.ArcGauge.ValueText` | app/src/main/java/viby/arcgaugetest/ArcGauge.kt:302-307 | "---" exactly when no value is shown. Otherwise the text starts with a canonical digit string that reads back as the value, followed only by the unit suffix. |
| `Gauge.WarningMarkBelowAlarmMark` | app/src/main/java/viby/arcgaugetest/ArcGauge.kt:186-191 | On a valid gauge a shown warning mark's angle is at or below a shown alarm mark's angle, and strictly below it for range <= 27000. |
| `Gauge.PausedAfterSweep` | app/src/main/java/viby/arcgaugetest/ArcGauge.kt:200-236 | Setup (10000, 9000, 2500, "ppm", "CO2"), resume, set 1000, animate, then pause. The needle rests at 2700, green while active, grey once paused, and the text is "---". |
| `Gauge.ZoneBoundaries` | app/src/main/java/viby/arcgaugetest/ArcGauge.kt:478-485 | With range 10000, warning 2500 and alarm 9000: 6749 is green, 6750 yellow, 24300 red, and grey when paused. |
| `Gauge.ClampsValues` | app/src/main/java/viby/arcgaugetest/ArcGauge.kt:207-211 | On range 100, setValue(-5) stores 0 and setValue(500) stores 100. |
| `Gauge.RejectedAlarmPaintsRed` | app/src/main/java/viby/arcgaugetest/ArcGauge.kt:435-441 | After a first setup whose alarm level is out of range, value 1 of 10 (below warning 5) is painted red. |
| `Gauge.RepeatedSetup` | app/src/main/java/viby/arcgaugetest/ArcGauge.kt:170-176 | Repeating a setup with a demoted alarm level still redraws and yields the same level. Repeating one without demotion returns early. |
| `Gauge.SetValueBeforeSetup` | app/src/main/java/viby/arcgaugetest/ArcGauge.kt:200-214 | Before any setup, on an active gauge, setValue(3) stores -1 and targets 27000, while the colour stays neutral. |

## Findings

| source | as written | input that shows it | evidently intended | confidence | as-written member | corrected member |
|---|---|---|---|---|---|---|
| app/src/main/java/viby/arcgaugetest/ArcGauge.kt:474-476 | `value * 27_000` is an `Int` product and wraps once it exceeds 2^31 - 1, i.e. for any range above 79536 | range = value = 79537: the product 2147499000 wraps to -2147468296, giving angle -26999 | every value in 0..range maps into 0..27000, and value == range maps to 27000 | high; not executed | `AngleModel.AsWrittenOverflowsAboveSafeRange` | `AngleModel.AngleBounds` |

The gauge (`Gauge.ArcGauge`) uses the exact product, `AngleModel.CentiDegreeAngle`. The source's
computation is `AngleModel.CentiDegreeAngleAsWritten`. `AngleModel.AsWrittenAgreesUpToSafeRange`
shows the two agree for every range up to 79536.

## Left out

- Floating-point geometry is not modelled. This covers the scale, centre, arc rectangle and
  end-cap points of `onSizeChanged`, and the sin/cos tick and badge coordinates of
  `calculateLevelPosition`. Only the two level-mark recomputations of `onSizeChanged` are
  modelled (`RecalculateLevelMarks`).
- Drawing is not modelled. This covers `Canvas`/`Paint` calls, the `currentColor` field
  (`Color` gives the colour instead), `toSp` and drawable loading. What is modelled is
  what `onDraw` decides from integer state: the colour, the value text and the end-cap
  condition. The label text and the level-number text are drawn as given.
- `Color` and `ValueText` give what `getColor` and `drawBigCircleText` compute for any
  state. `onDraw` calls neither while range < 0; that gate is modelled only in
  `DrawsEndCap`.
- Redraw requests (`invalidate`) are not a state change. They appear only as
  `SetupArcGauge`'s result and as the frames `StartAnimation` returns. `Restore`, `Pause`
  and `Resume` always request one.
- Coroutine scheduling, `delay(1)` and job cancellation are not modelled. This includes
  cancellation in `setValue` and in `onDetachedFromWindow`. When a running loop is cancelled
  it is given as a parameter (`ticksBeforeCancel`). A new loop is another
  `StartAnimation` call, which continues from the current angle.
- `SetValue` reports that an animation starts but does not run it. The loop runs in the
  `StartAnimation` call that follows.
- `ArcGauge` fields are unbounded integers. The `Int` wrap of `range + 1` at
  `Int.MAX_VALUE` is not modelled.
- Gauge.ArcGauge.SetValue, Gauge.ArcGauge.Restore and Gauge.ArcGauge.CalculateLevelPosition
  compute angles with the exact product (`CentiDegreeAngle`), not the source's wrapping one.
  For a range above 79536 they give an angle in 0..27000 where the source gives a negative
  one (see Findings). `Valid()`'s `IsAngle` on `targetAngle`, `currentAngle` and the marks
  holds only because of that.
- The source's `label` field is named `labelText` here, because `label` is a reserved word
  in Dafny.
- `IsWhitespace` lists the characters Kotlin's `Char.isWhitespace` accepts. It is not
  derived from the Unicode tables.
- `GaugeFragment.kt`, `MainActivity.kt` and `GaugeViewModel.kt` are not part of this model.
  They are UI wiring, navigation and a demo value holder.
