/** The rules setupArcGauge and setValue apply to the levels and values they are given. */
module Levels {

  /** Kotlin's `x in 0..range`. */
  predicate InRange(x: int, range: int) {
    0 <= x <= range
  }

  /** The stored alarm level: the requested one when it lies in 0..range, otherwise
      range + 1, a level no value reaches, which hides the alarm mark. */
  function AlarmLevelFor(range: int, newAlarmLevel: int): (alarm: int)
    ensures InRange(alarm, range) <==> InRange(newAlarmLevel, range)
    ensures InRange(alarm, range) ==> alarm == newAlarmLevel
    ensures !InRange(alarm, range) ==> alarm == range + 1
  {
    if InRange(newAlarmLevel, range) then newAlarmLevel else range + 1
  }

  /** The stored warning level: the requested one when it lies in 0..range and is
      below the (already demoted) alarm level, otherwise range + 1. */
  function WarningLevelFor(range: int, alarmLevel: int, newWarningLevel: int): (warning: int)
    ensures InRange(warning, range) <==> InRange(newWarningLevel, range) && newWarningLevel < alarmLevel
    ensures InRange(warning, range) ==> warning == newWarningLevel
    ensures !InRange(warning, range) ==> warning == range + 1
  {
    if InRange(newWarningLevel, range) && newWarningLevel < alarmLevel then newWarningLevel else range + 1
  }

  /** What every configured gauge's levels satisfy: each is shown or is range + 1,
      and a shown warning level lies strictly below the alarm level. */
  predicate LevelsAdmissible(range: int, alarmLevel: int, warningLevel: int) {
    (InRange(alarmLevel, range) || alarmLevel == range + 1)
    && (InRange(warningLevel, range) || warningLevel == range + 1)
    && (InRange(warningLevel, range) ==> warningLevel < alarmLevel)
  }

  /** Whatever the caller asks for, the demoted levels are admissible. */
  lemma DemotedLevelsAdmissible(range: int, newAlarmLevel: int, newWarningLevel: int)
    ensures var alarm := AlarmLevelFor(range, newAlarmLevel);
            LevelsAdmissible(range, alarm, WarningLevelFor(range, alarm, newWarningLevel))
  {
  }

  /** On a conflict the alarm level is kept and the warning level is hidden. */
  lemma AlarmWinsConflict(range: int, newAlarmLevel: int, newWarningLevel: int)
    requires InRange(newAlarmLevel, range) && InRange(newWarningLevel, range)
    requires newWarningLevel >= newAlarmLevel
    ensures AlarmLevelFor(range, newAlarmLevel) == newAlarmLevel
    ensures WarningLevelFor(range, newAlarmLevel, newWarningLevel) == range + 1
  {
  }

  /** setValue's clamp, in the source's order: above range gives range, then below
      zero gives zero. Before the first setup range is -1 and the result is -1 or 0. */
  function ClampValue(newValue: int, range: int): (v: int)
    ensures range >= 0 ==> InRange(v, range)
    ensures InRange(newValue, range) ==> v == newValue
    ensures newValue > range ==> v == range
    ensures newValue <= range && newValue < 0 ==> v == 0
    ensures range < 0 ==> v == range || v == 0
  {
    if newValue > range then range
    else if newValue < 0 then 0
    else newValue
  }
}
