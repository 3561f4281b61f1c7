/** The arithmetic of the animation loop: each tick moves the drawn angle a fixed
    step toward the target angle, clamped so that it never passes the target. */
module Animation {
  import opened KotlinInt

  /** Hundredths of a degree per tick. */
  const ANIMATION_STEP: int := 10

  function Min(a: int, b: int): int {
    if a <= b then a else b
  }

  function Max(a: int, b: int): int {
    if a <= b then b else a
  }

  /** x lies on the closed segment between a and b. */
  predicate Between(x: int, a: int, b: int) {
    (a <= x <= b) || (b <= x <= a)
  }

  /** One tick of the loop body: the distance to the target shrinks by a full step,
      or to zero when less than a step was left, and the target is never passed. */
  function Step(current: int, target: int): (next: int)
    requires current != target
    ensures Between(next, current, target)
    ensures Abs(target - next) == Abs(target - current) - Min(ANIMATION_STEP, Abs(target - current))
  {
    if current < target then
      (if current + ANIMATION_STEP > target then target else current + ANIMATION_STEP)
    else
      (if current - ANIMATION_STEP < target then target else current - ANIMATION_STEP)
  }

  /** The angles drawn by an uncancelled loop, one per tick: none when the needle
      already stands on the target, and never one outside the start and the target. */
  function Trajectory(current: int, target: int): (frames: seq<int>)
    ensures frames == [] <==> current == target
    ensures forall i :: 0 <= i < |frames| ==> Between(frames[i], current, target)
    decreases Abs(target - current)
  {
    if current == target then [] else [Step(current, target)] + Trajectory(Step(current, target), target)
  }

  /** ceil(|target - current| / ANIMATION_STEP). */
  function TicksToReach(current: int, target: int): nat {
    (Abs(target - current) + ANIMATION_STEP - 1) / ANIMATION_STEP
  }

  /** Independent description of a tick's result: k hundredths of a degree toward
      the target, stopping at it. */
  function Toward(current: int, target: int, k: nat): int {
    if current <= target then Min(current + k, target) else Max(current - k, target)
  }

  /** Where a loop stopped after drawing `drawn` from `start`: it has drawn a prefix
      of the trajectory, as many ticks as allowed or needed, and if it was allowed
      enough ticks it stands on the target. */
  lemma StoppedLoopDrewPrefix(drawn: seq<int>, current: int, target: int, start: int, allowed: nat)
    requires |drawn| <= allowed && |drawn| <= |Trajectory(start, target)|
    requires drawn == Trajectory(start, target)[..|drawn|]
    requires current == Toward(start, target, ANIMATION_STEP * |drawn|)
    requires |drawn| == allowed || current == target
    ensures drawn <= Trajectory(start, target)
    ensures |drawn| == Min(allowed, TicksToReach(start, target))
    ensures allowed >= TicksToReach(start, target) ==> current == target
    ensures current == if drawn == [] then start else drawn[|drawn| - 1]
  {
    TrajectoryLength(start, target);
    TrajectoryClosedForm(start, target);
  }

  /** The loop runs exactly ceil(|target - current| / 10) ticks. */
  lemma {:induction false} TrajectoryLength(current: int, target: int)
    ensures |Trajectory(current, target)| == TicksToReach(current, target)
    decreases Abs(target - current)
  {
    if current != target {
      var next := Step(current, target);
      TrajectoryLength(next, target);
    }
  }

  /** After i + 1 ticks the angle is 10 * (i + 1) toward the target, or the target. */
  lemma {:induction false} TrajectoryClosedForm(current: int, target: int)
    ensures forall i :: 0 <= i < |Trajectory(current, target)| ==>
              Trajectory(current, target)[i] == Toward(current, target, ANIMATION_STEP * (i + 1))
    decreases Abs(target - current)
  {
    if current != target {
      var next := Step(current, target);
      TrajectoryClosedForm(next, target);
      var t := Trajectory(current, target);
      forall i | 0 <= i < |t|
        ensures t[i] == Toward(current, target, ANIMATION_STEP * (i + 1))
      {
        if i > 0 {
          assert t[i] == Trajectory(next, target)[i - 1];
        }
      }
    }
  }

  /** A loop that runs to the end stops exactly on the target. */
  lemma {:induction false} TrajectoryArrives(current: int, target: int)
    requires current != target
    ensures Trajectory(current, target)[|Trajectory(current, target)| - 1] == target
    decreases Abs(target - current)
  {
    var next := Step(current, target);
    if next != target {
      TrajectoryArrives(next, target);
    }
  }

  /** Every drawn angle lies between the start and the target, each tick moves at
      most one step, and no tick moves away from the target. */
  lemma TrajectoryNeverOvershoots(current: int, target: int)
    ensures forall i :: 0 <= i < |Trajectory(current, target)| ==>
              Between(Trajectory(current, target)[i], current, target)
    ensures forall i :: 0 < i < |Trajectory(current, target)| ==>
              Between(Trajectory(current, target)[i], Trajectory(current, target)[i - 1], target)
              && Abs(Trajectory(current, target)[i] - Trajectory(current, target)[i - 1]) <= ANIMATION_STEP
  {
    TrajectoryClosedForm(current, target);
  }

  /** A sweep from 0 to 5000 takes 500 ticks, 10 hundredths of a degree each. */
  lemma SweepFromZeroTo5000()
    ensures |Trajectory(0, 5000)| == 500
    ensures forall i :: 0 <= i < 500 ==> Trajectory(0, 5000)[i] == ANIMATION_STEP * (i + 1)
    ensures Trajectory(0, 5000)[499] == 5000
  {
    TrajectoryLength(0, 5000);
    TrajectoryClosedForm(0, 5000);
  }
}
