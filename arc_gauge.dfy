/** The ArcGauge view's integer state machine: configuration, value updates,
    pause and resume, the level marks and the animation loop. */
module Gauge {
  import opened KotlinInt
  import opened AngleModel
  import opened Levels
  import opened Animation
  import opened Display

  /** The integer part of a level mark (LevelMarkData): whether it is drawn and the
      angle getColor compares against. The angle starts at -1. */
  class LevelMark {
    var toShow: bool
    var valueInCentiDegree: int

    constructor ()
      ensures !toShow && valueInCentiDegree == -1
    {
      toShow := false;
      valueInCentiDegree := -1;
    }
  }

  /** A mark agrees with its level: it is shown exactly when the level lies in 0..range,
      a shown mark holds the level's angle, and a hidden one holds -1 or a stale angle. */
  ghost predicate MarkAgrees(toShow: bool, markAngle: int, level: int, range: int) {
    toShow == InRange(level, range)
    && (toShow ==> range >= 1 && markAngle == CentiDegreeAngle(level, range))
    && (markAngle == -1 || IsAngle(markAngle))
  }

  /** What calculateLevelPosition leaves in a mark whose angle was oldAngle. */
  ghost predicate MarkRecomputed(toShow: bool, markAngle: int, oldAngle: int, level: int, range: int)
    requires range != 0
  {
    toShow == InRange(level, range)
    && markAngle == (if toShow then CentiDegreeAngle(level, range) else oldAngle)
  }

  /** A recomputed mark of a configured gauge agrees with its level again. */
  lemma RecomputedMarkAgrees(toShow: bool, markAngle: int, oldAngle: int, level: int, range: int)
    requires range >= 1
    requires oldAngle == -1 || IsAngle(oldAngle)
    requires MarkRecomputed(toShow, markAngle, oldAngle, level, range)
    ensures MarkAgrees(toShow, markAngle, level, range)
  {
    if toShow {
      AngleBounds(level, range);
    }
  }

  class ArcGauge {
    var range: int
    var warningLevel: int
    var alarmLevel: int
    var unit: string
    var labelText: string
    var value: int
    var isActive: bool
    var currentAngle: int
    var targetAngle: int
    const warningMark: LevelMark
    const alarmMark: LevelMark

    /** The gauge is unconfigured (range -1) or configured with range >= 1 and
        admissible levels; the marks agree with the levels; both angles lie on the arc. */
    ghost predicate Valid()
      reads this, warningMark, alarmMark
    {
      warningMark != alarmMark
      && (range == -1 || range >= 1)
      && (range == -1 ==> alarmLevel == -1 && warningLevel == -1)
      && (range >= 1 ==> LevelsAdmissible(range, alarmLevel, warningLevel))
      && MarkAgrees(alarmMark.toShow, alarmMark.valueInCentiDegree, alarmLevel, range)
      && MarkAgrees(warningMark.toShow, warningMark.valueInCentiDegree, warningLevel, range)
      && value >= -1
      && IsAngle(currentAngle) && IsAngle(targetAngle)
    }

    constructor ()
      ensures Valid() && fresh(warningMark) && fresh(alarmMark)
      ensures range == -1 && warningLevel == -1 && alarmLevel == -1
      ensures unit == "" && labelText == "" && value == -1 && !isActive
      ensures currentAngle == 0 && targetAngle == 0
      ensures !warningMark.toShow && warningMark.valueInCentiDegree == -1
      ensures !alarmMark.toShow && alarmMark.valueInCentiDegree == -1
    {
      range := -1;
      warningLevel := -1;
      alarmLevel := -1;
      unit := "";
      labelText := "";
      value := -1;
      isActive := false;
      targetAngle := 0;
      currentAngle := 0;
      warningMark := new LevelMark();
      alarmMark := new LevelMark();
    }

    /** setupArcGauge. Returns whether it got past its two early returns, i.e. whether
        it reconfigured the gauge and requested a redraw. */
    method SetupArcGauge(newRange: int, newAlarmLevel: int, newWarningLevel: int, newUnit: string := "", newLabel: string := "")
      returns (redraw: bool)
      requires Valid()
      modifies this`range, this`alarmLevel, this`warningLevel, this`unit, this`labelText, warningMark, alarmMark
      ensures Valid()
      ensures redraw <==> (newRange >= 1 && !(newRange == old(range) && newAlarmLevel == old(alarmLevel)
                             && newWarningLevel == old(warningLevel) && newUnit == old(unit)
                             && newLabel == old(labelText)))
      ensures !redraw ==> (range == old(range) && alarmLevel == old(alarmLevel) && warningLevel == old(warningLevel)
                           && unit == old(unit) && labelText == old(labelText))
      ensures !redraw ==> unchanged(warningMark, alarmMark)
      ensures redraw ==> range == newRange && unit == newUnit && labelText == newLabel
      ensures redraw ==> alarmLevel == AlarmLevelFor(newRange, newAlarmLevel)
      ensures redraw ==> warningLevel == WarningLevelFor(newRange, alarmLevel, newWarningLevel)
      ensures redraw ==> MarkRecomputed(alarmMark.toShow, alarmMark.valueInCentiDegree,
                           old(alarmMark.valueInCentiDegree), alarmLevel, range)
      ensures redraw ==> MarkRecomputed(warningMark.toShow, warningMark.valueInCentiDegree,
                           old(warningMark.valueInCentiDegree), warningLevel, range)
    {
      if newRange == range && newAlarmLevel == alarmLevel && newWarningLevel == warningLevel
         && newUnit == unit && newLabel == labelText {
        return false;
      }
      if newRange < 1 {
        return false;
      }
      range := newRange;

      alarmLevel := AlarmLevelFor(range, newAlarmLevel);
      CalculateLevelPosition(alarmMark, alarmLevel);

      warningLevel := WarningLevelFor(range, alarmLevel, newWarningLevel);
      CalculateLevelPosition(warningMark, warningLevel);

      unit := newUnit;
      labelText := newLabel;
      redraw := true;

      DemotedLevelsAdmissible(range, newAlarmLevel, newWarningLevel);
      RecomputedMarkAgrees(alarmMark.toShow, alarmMark.valueInCentiDegree,
                           old(alarmMark.valueInCentiDegree), alarmLevel, range);
      RecomputedMarkAgrees(warningMark.toShow, warningMark.valueInCentiDegree,
                           old(warningMark.valueInCentiDegree), warningLevel, range);
    }

    /** calculateLevelPosition, without the floating-point tick and badge geometry. */
    method CalculateLevelPosition(mark: LevelMark, levelValue: int)
      requires range != 0
      modifies mark
      ensures MarkRecomputed(mark.toShow, mark.valueInCentiDegree, old(mark.valueInCentiDegree), levelValue, range)
    {
      if !InRange(levelValue, range) {
        mark.toShow := false;
        return;
      } else {
        mark.toShow := true;
      }
      mark.valueInCentiDegree := CentiDegreeAngle(levelValue, range);
    }

    /** The two calls onSizeChanged makes: recomputing the marks of a valid gauge
        leaves their integer state as it was. */
    method RecalculateLevelMarks()
      requires Valid()
      modifies warningMark, alarmMark
      ensures Valid()
      ensures alarmMark.toShow == old(alarmMark.toShow)
      ensures alarmMark.valueInCentiDegree == old(alarmMark.valueInCentiDegree)
      ensures warningMark.toShow == old(warningMark.toShow)
      ensures warningMark.valueInCentiDegree == old(warningMark.valueInCentiDegree)
    {
      CalculateLevelPosition(alarmMark, alarmLevel);
      CalculateLevelPosition(warningMark, warningLevel);
    }

    /** setValue. Returns whether it started a new animation. */
    method SetValue(newValue: int) returns (animationStarted: bool)
      requires Valid()
      modifies this`value, this`targetAngle
      ensures Valid()
      ensures animationStarted <==> newValue != old(value) && isActive
      ensures !animationStarted ==> value == old(value) && targetAngle == old(targetAngle)
      ensures animationStarted ==> value == ClampValue(newValue, range)
      ensures animationStarted ==> targetAngle == CentiDegreeAngle(value, range)
    {
      if newValue == value {
        return false;
      }
      if !isActive {
        return false;
      }
      value := ClampValue(newValue, range);
      if range >= 1 {
        AngleBounds(value, range);
      }
      targetAngle := CentiDegreeAngle(value, range);
      animationStarted := true;
    }

    /** restore: sets the active flag and, for a value in 0..range, snaps both angles
        to that value's angle without animating. */
    method Restore(active: bool, lastValue: int)
      requires Valid()
      modifies this`isActive, this`value, this`targetAngle, this`currentAngle
      ensures Valid()
      ensures isActive == active
      ensures InRange(lastValue, range) ==> value == lastValue
      ensures InRange(lastValue, range) ==> targetAngle == currentAngle == CentiDegreeAngle(lastValue, range)
      ensures !InRange(lastValue, range) ==> value == old(value)
      ensures !InRange(lastValue, range) ==> targetAngle == old(targetAngle) && currentAngle == old(currentAngle)
    {
      isActive := active;
      if InRange(lastValue, range) {
        value := lastValue;
        AngleBounds(value, range);
        targetAngle := CentiDegreeAngle(value, range);
        currentAngle := targetAngle;
      }
    }

    method Pause()
      requires Valid()
      modifies this`isActive
      ensures Valid() && !isActive
    {
      isActive := false;
    }

    method Resume()
      requires Valid()
      modifies this`isActive
      ensures Valid() && isActive
    {
      isActive := true;
    }

    /** The loop startAnimation launches. Its guard's `isActive` is the coroutine's,
        so only cancellation stops it early; ticksBeforeCancel is the number of ticks
        it runs before the job is cancelled. Each tick requests one redraw, and
        frames lists the angle drawn by each. */
    method StartAnimation(ticksBeforeCancel: nat) returns (frames: seq<int>)
      requires Valid()
      modifies this`currentAngle
      ensures Valid()
      ensures frames <= Trajectory(old(currentAngle), targetAngle)
      ensures |frames| == Min(ticksBeforeCancel, TicksToReach(old(currentAngle), targetAngle))
      ensures currentAngle == if frames == [] then old(currentAngle) else frames[|frames| - 1]
      ensures ticksBeforeCancel >= TicksToReach(old(currentAngle), targetAngle) ==> currentAngle == targetAngle
    {
      ghost var start := currentAngle;
      ghost var full := Trajectory(start, targetAngle);
      TrajectoryLength(start, targetAngle);
      TrajectoryClosedForm(start, targetAngle);
      frames := [];
      while |frames| < ticksBeforeCancel && currentAngle != targetAngle
        invariant |frames| <= ticksBeforeCancel && |frames| <= |full|
        invariant frames == full[..|frames|]
        invariant currentAngle == Toward(start, targetAngle, ANIMATION_STEP * |frames|)
        invariant IsAngle(currentAngle)
        decreases Abs(targetAngle - currentAngle)
      {
        if currentAngle < targetAngle {
          currentAngle := currentAngle + ANIMATION_STEP;
          if currentAngle > targetAngle {
            currentAngle := targetAngle;
          }
        } else {
          currentAngle := currentAngle - ANIMATION_STEP;
          if currentAngle < targetAngle {
            currentAngle := targetAngle;
          }
        }
        assert full[..|frames| + 1] == full[..|frames|] + [full[|frames|]];
        frames := frames + [currentAngle];
      }
      StoppedLoopDrewPrefix(frames, currentAngle, targetAngle, start, ticksBeforeCancel);
    }

    /** getColor, on the gauge's current state. On a valid gauge a shown alarm mark
        starts red at its level's angle, and with both marks shown yellow lies between
        the two levels' angles. */
    function Color(centiDegreeValue: int): (zone: Zone)
      reads this, warningMark, alarmMark
      ensures zone == Neutral <==> !ValueShown(isActive, value)
      ensures Valid() && ValueShown(isActive, value) && alarmMark.toShow ==>
                (zone == Red <==> centiDegreeValue >= CentiDegreeAngle(alarmLevel, range))
      ensures Valid() && ValueShown(isActive, value) && alarmMark.toShow && warningMark.toShow ==>
                (zone == Yellow <==> CentiDegreeAngle(warningLevel, range) <= centiDegreeValue
                                     < CentiDegreeAngle(alarmLevel, range))
    {
      ZoneFor(isActive, value, alarmMark.valueInCentiDegree, warningMark.valueInCentiDegree, centiDegreeValue)
    }

    /** The value text drawBigCircleText draws: "---" unless a value is shown, and then
        the value in canonical decimal form followed only by the unit suffix. */
    function ValueText(): (text: string)
      reads this
      ensures text == PLACEHOLDER <==> !ValueShown(isActive, value)
      ensures ValueShown(isActive, value) ==>
                IsCanonicalDecimal(LeadingDigits(text)) && DigitsValue(LeadingDigits(text)) == value
                && text == LeadingDigits(text) + UnitSuffix(unit)
    {
      if ValueShown(isActive, value) then
        ValueTextReadsBack(isActive, value, unit);
        ValueTextFor(isActive, value, unit)
      else
        ValueTextFor(isActive, value, unit)
    }
  }

  /** On a valid gauge a shown warning mark never lies above a shown alarm mark, and
      lies strictly below it when range is at most 27000. */
  lemma WarningMarkBelowAlarmMark(g: ArcGauge)
    requires g.Valid() && g.warningMark.toShow && g.alarmMark.toShow
    ensures g.warningMark.valueInCentiDegree <= g.alarmMark.valueInCentiDegree
    ensures g.range <= FULL_SWEEP ==> g.warningMark.valueInCentiDegree < g.alarmMark.valueInCentiDegree
  {
    AngleMonotone(g.warningLevel, g.alarmLevel, g.range);
    if g.range <= FULL_SWEEP {
      AngleStrictlyMonotone(g.warningLevel, g.alarmLevel, g.range);
    }
  }

  // ---------------------------------------------------------------------------
  // Scenarios on a fresh gauge

  /** Configure (10000, 9000, 2500, "ppm", "CO2"), resume, set 1000, animate to the
      end, pause: the needle rests at 2700, the circle is grey and the text is "---". */
  method PausedAfterSweep() returns (activeZone: Zone, pausedZone: Zone, angle: int, text: string)
    ensures activeZone == Green && pausedZone == Neutral
    ensures angle == 2700 && text == PLACEHOLDER
  {
    var g := new ArcGauge();
    var _ := g.SetupArcGauge(10_000, 9_000, 2_500, "ppm", "CO2");
    g.Resume();
    var _ := g.SetValue(1_000);
    assert g.currentAngle == 0 && g.targetAngle == 2_700;
    assert TicksToReach(0, 2_700) == 270;
    var _ := g.StartAnimation(270);
    activeZone := g.Color(g.currentAngle);
    g.Pause();
    pausedZone := g.Color(g.currentAngle);
    angle := g.currentAngle;
    text := g.ValueText();
  }

  /** With range 10000, warning 2500 and alarm 9000 the marks sit at 6750 and 24300:
      green below the first, yellow up to the second, red from it on, grey when paused. */
  method ZoneBoundaries() returns (green: Zone, yellow: Zone, red: Zone, paused: Zone)
    ensures green == Green && yellow == Yellow && red == Red && paused == Neutral
  {
    var g := new ArcGauge();
    var _ := g.SetupArcGauge(10_000, 9_000, 2_500);
    g.Resume();
    var _ := g.SetValue(5_000);
    green := g.Color(6_749);
    yellow := g.Color(6_750);
    red := g.Color(24_300);
    g.Pause();
    paused := g.Color(24_300);
  }

  /** setValue(-5) and setValue(500) on range 100 store 0 and 100. */
  method ClampsValues() returns (low: int, high: int)
    ensures low == 0 && high == 100
  {
    var g := new ArcGauge();
    var _ := g.SetupArcGauge(100, 90, 25, "", "");
    g.Resume();
    var _ := g.SetValue(-5);
    low := g.value;
    var _ := g.SetValue(500);
    high := g.value;
  }

  /** An alarm level rejected by the first setup leaves the alarm mark at angle -1:
      value 1 of 10, below the shown warning level 5, is painted red. */
  method RejectedAlarmPaintsRed() returns (alarmShown: bool, warningShown: bool, zone: Zone)
    ensures !alarmShown && warningShown && zone == Red
  {
    var g := new ArcGauge();
    var _ := g.SetupArcGauge(10, 20, 5, "", "");
    g.Resume();
    var _ := g.SetValue(1);
    var _ := g.StartAnimation(270);
    alarmShown := g.alarmMark.toShow;
    warningShown := g.warningMark.toShow;
    zone := g.Color(g.currentAngle);
  }

  /** Repeating a setup whose alarm level was demoted does not take the early return,
      because the guard compares with the stored (demoted) level; it still redraws,
      and leaves the same levels. Repeating one without demotion returns early. */
  method RepeatedSetup() returns (secondRedraws: bool, sameAlarm: bool, thirdRedraws: bool)
    ensures secondRedraws && sameAlarm && !thirdRedraws
  {
    var g := new ArcGauge();
    var _ := g.SetupArcGauge(100, 500, 20, "", "");
    var alarm := g.alarmLevel;
    secondRedraws := g.SetupArcGauge(100, 500, 20, "", "");
    sameAlarm := g.alarmLevel == alarm;
    var _ := g.SetupArcGauge(100, 90, 20, "", "");
    thirdRedraws := g.SetupArcGauge(100, 90, 20, "", "");
  }

  /** Before any setup, range is -1: after restore(true, -1) activates the gauge,
      setValue(3) clamps to -1 and divides by -1, aiming the needle at the full sweep
      while the circle stays grey. */
  method SetValueBeforeSetup() returns (value: int, target: int, zone: Zone)
    ensures value == -1 && target == FULL_SWEEP && zone == Neutral
  {
    var g := new ArcGauge();
    g.Restore(true, -1);
    var _ := g.SetValue(3);
    value := g.value;
    target := g.targetAngle;
    zone := g.Color(g.targetAngle);
  }
}
