/**
 * The motion planner of `ptz_cli.py`: bounding an angle, turning an angle into a
 * PWM duty value, choosing the number of 20 ms steps and driving both servos
 * along the straight line from the stored position to the target.
 *
 * The pigpio handle is replaced by an abstract actuator log: each `set_servo`
 * call becomes one `SetServo` entry carrying the duty value it sends, and
 * `pi.stop()` becomes `Release`.
 */
module Motion {
  import opened Common

  /** GPIO pins of the two servos. */
  const PAN_PIN: int := 13
  const TILT_PIN: int := 12

  /** Length of one interpolation step, in milliseconds (one `time.sleep(0.02)`). */
  const STEP_MS: int := 20

  /** Python's `max(lo, min(hi, val))`. */
  function Clamp(val: real, lo: real, hi: real): (r: real)
    ensures lo <= hi ==> lo <= r <= hi
    ensures lo <= val <= hi ==> r == val
    ensures val < lo ==> r == lo
    ensures lo <= hi && hi < val ==> r == hi
    ensures hi < lo ==> r == lo
  {
    var m := if hi < val then hi else val;
    if lo < m then m else lo
  }

  /** `map_angle` with its default ranges: degrees in [-90, 90] onto duty values in [250, 1250]. */
  function MapAngle(angle: real): (duty: real)
    ensures angle == -90.0 ==> duty == 250.0
    ensures angle == 90.0 ==> duty == 1250.0
  {
    (angle - (-90.0)) * (1250.0 - 250.0) / (90.0 - (-90.0)) + 250.0
  }

  /** The inverse of `MapAngle`: the angle a duty value stands for. */
  function AngleOfDuty(duty: real): real {
    (duty - 250.0) * (90.0 - (-90.0)) / (1250.0 - 250.0) + (-90.0)
  }

  /** `MapAngle` is strictly increasing, so it is one-to-one, and `AngleOfDuty` undoes it. */
  lemma MapAngleStrictlyIncreasing(a: real, b: real)
    ensures a < b ==> MapAngle(a) < MapAngle(b)
    ensures AngleOfDuty(MapAngle(a)) == a
  {
  }

  /**
   * The map is not restricted to [-90, 90]: an angle beyond the nominal range (possible
   * with custom bounds) extrapolates past the nominal duty range instead of being cut off.
   */
  lemma MapAngleExtrapolates(angle: real)
    ensures angle < -90.0 ==> MapAngle(angle) < 250.0
    ensures angle > 90.0 ==> MapAngle(angle) > 1250.0
  {
    MapAngleStrictlyIncreasing(angle, -90.0);
    MapAngleStrictlyIncreasing(90.0, angle);
  }

  /** Python's `int(x / y)` for integers with `y > 0`: the quotient truncated toward zero. */
  function TruncDiv(x: int, y: int): int
    requires y > 0
  {
    if x >= 0 then x / y else -((-x) / y)
  }

  /** `steps = max(1, int(smooth_ms / 20))`. */
  function StepCount(smoothMs: int): (steps: int)
    ensures steps >= 1
  {
    var q := TruncDiv(smoothMs, STEP_MS);
    if q < 1 then 1 else q
  }

  /**
   * No smoothing (or a negative duration) still gives one update; from 20 ms on the
   * count is the duration divided by 20 and rounded down; a longer duration never
   * gives fewer steps.
   */
  lemma StepCountFacts(smoothMs: int, longer: int)
    ensures smoothMs < 2 * STEP_MS ==> StepCount(smoothMs) == 1
    ensures smoothMs >= STEP_MS ==> StepCount(smoothMs) == smoothMs / STEP_MS
    ensures smoothMs >= 0 ==> StepCount(smoothMs) * STEP_MS <= smoothMs + STEP_MS
    ensures smoothMs <= longer ==> StepCount(smoothMs) <= StepCount(longer)
  {
  }

  /** Interpolated angle after step `i` of `steps`: `start + (target - start) * i / steps`. */
  function Point(start: real, target: real, i: int, steps: int): real
    requires steps >= 1
  {
    start + (target - start) * (i as real) / (steps as real)
  }

  /** One position of both axes. */
  datatype Pose = Pose(pan: real, tilt: real)

  /** The points visited by `move_servos`, for `i` in `1..steps`. */
  function Trajectory(start: Pose, target: Pose, steps: int): (path: seq<Pose>)
    requires steps >= 1
    ensures |path| == steps
    ensures forall k :: 0 <= k < steps ==>
      path[k] == Pose(Point(start.pan, target.pan, k + 1, steps), Point(start.tilt, target.tilt, k + 1, steps))
  {
    seq(steps, k requires 0 <= k < steps =>
      Pose(Point(start.pan, target.pan, k + 1, steps), Point(start.tilt, target.tilt, k + 1, steps)))
  }

  /** The last step lands exactly on the target. */
  lemma PointAtLastStep(start: real, target: real, steps: int)
    requires steps >= 1
    ensures Point(start, target, steps, steps) == target
  {
    var d := target - start;
    assert d * (steps as real) / (steps as real) == d;
  }

  /** Every intermediate point lies between the start and the target. */
  lemma PointBetween(start: real, target: real, i: int, steps: int)
    requires 0 <= i <= steps && steps >= 1
    ensures start <= target ==> start <= Point(start, target, i, steps) <= target
    ensures target <= start ==> target <= Point(start, target, i, steps) <= start
  {
    var n, m, d := i as real, steps as real, target - start;
    FractionInUnit(n, m);
    assert d * n / m == d * (n / m);
    assert Point(start, target, i, steps) == start + d * (n / m);
    ScaleWithinUnit(d, n / m);
  }

  lemma FractionInUnit(n: real, m: real)
    requires 0.0 <= n <= m && m > 0.0
    ensures 0.0 <= n / m <= 1.0
  {
  }

  /** Scaling by a fraction in [0, 1] keeps a number between 0 and itself. */
  lemma ScaleWithinUnit(d: real, f: real)
    requires 0.0 <= f <= 1.0
    ensures d >= 0.0 ==> 0.0 <= d * f <= d
    ensures d <= 0.0 ==> d <= d * f <= 0.0
  {
    assert d - d * f == d * (1.0 - f);
  }

  /**
   * The trajectory has one point per step, ends on the target, stays between the
   * start and the target on each axis, and is constant when the start is the target.
   */
  lemma TrajectoryFacts(start: Pose, target: Pose, steps: int)
    requires steps >= 1
    ensures |Trajectory(start, target, steps)| == steps
    ensures Trajectory(start, target, steps)[steps - 1] == target
    ensures forall k :: 0 <= k < steps ==>
      Between(Trajectory(start, target, steps)[k].pan, start.pan, target.pan) &&
      Between(Trajectory(start, target, steps)[k].tilt, start.tilt, target.tilt)
    ensures start == target ==> forall k :: 0 <= k < steps ==> Trajectory(start, target, steps)[k] == target
  {
    var path := Trajectory(start, target, steps);
    PointAtLastStep(start.pan, target.pan, steps);
    PointAtLastStep(start.tilt, target.tilt, steps);
    forall k | 0 <= k < steps
      ensures Between(path[k].pan, start.pan, target.pan) && Between(path[k].tilt, start.tilt, target.tilt)
    {
      PointBetween(start.pan, target.pan, k + 1, steps);
      PointBetween(start.tilt, target.tilt, k + 1, steps);
    }
  }

  /** `x` lies on the closed segment between `a` and `b`. */
  predicate Between(x: real, a: real, b: real) {
    (a <= x <= b) || (b <= x <= a)
  }

  /** One entry of the abstract actuator log. */
  datatype Call =
    | SetServo(pin: int, duty: real)  // set_servo(pi, pin, angle): 50 Hz, range 10000, duty map_angle(angle)
    | Release                         // pi.stop()

  /** Why `move_servos` did not complete. */
  datatype MoveError =
    | ActuatorUnavailable  // ensure_pigpiod found no daemon, even after starting one
    | ActuatorFault        // a pigpio call raised part-way through the move

  /** Command `j` for a list of poses: even entries drive the pan pin, odd ones the tilt pin. */
  function CommandAt(path: seq<Pose>, j: nat): Call
    requires j < 2 * |path|
  {
    if j % 2 == 0 then SetServo(PAN_PIN, MapAngle(path[j / 2].pan))
    else SetServo(TILT_PIN, MapAngle(path[j / 2].tilt))
  }

  /** The servo commands for a list of poses: pan to `PAN_PIN`, then tilt to `TILT_PIN`, per pose. */
  function ServoCommands(path: seq<Pose>): (cmds: seq<Call>)
    ensures |cmds| == 2 * |path|
    ensures forall j :: 0 <= j < |cmds| ==> cmds[j] == CommandAt(path, j)
  {
    if path == [] then []
    else
      var last := path[|path| - 1];
      var init := path[..|path| - 1];
      var r := ServoCommands(init) + [SetServo(PAN_PIN, MapAngle(last.pan)), SetServo(TILT_PIN, MapAngle(last.tilt))];
      assert forall j :: 0 <= j < 2 * |init| ==> CommandAt(init, j) == CommandAt(path, j);
      r
  }

  /** The servo commands a full move from `start` to `target` issues. */
  function MovePlan(start: Pose, target: Pose, smoothMs: int): seq<Call> {
    ServoCommands(Trajectory(start, target, StepCount(smoothMs)))
  }

  /**
   * The log of a move: nothing when the daemon is unreachable; otherwise the planned
   * commands up to the one that fails (all of them when none fails), then `Release`.
   */
  function MoveLog(start: Pose, target: Pose, smoothMs: int, daemonUp: bool, faultAt: Option<nat>): seq<Call> {
    var plan := MovePlan(start, target, smoothMs);
    if !daemonUp then []
    else if faultAt.Some? && faultAt.value < |plan| then plan[..faultAt.value] + [Release]
    else plan + [Release]
  }

  /**
   * How a move ends: `ActuatorUnavailable` when the daemon is unreachable,
   * `ActuatorFault` when one of the planned commands raises, nothing otherwise.
   */
  function MoveFailure(start: Pose, target: Pose, smoothMs: int, daemonUp: bool, faultAt: Option<nat>): Option<MoveError> {
    if !daemonUp then Some(ActuatorUnavailable)
    else if faultAt.Some? && faultAt.value < |MovePlan(start, target, smoothMs)| then Some(ActuatorFault)
    else None
  }

  /**
   * `move_servos(pan, tilt, smooth_ms, state)`. `daemonUp` says whether
   * `ensure_pigpiod` obtains a connection; `faultAt`, when present, is the index of
   * the `set_servo` call that raises. The handle is released on every path after
   * connecting, including the failing one.
   */
  method MoveServos(target: Pose, smoothMs: int, start: Pose, daemonUp: bool, faultAt: Option<nat>)
    returns (log: seq<Call>, result: Option<MoveError>)
    ensures log == MoveLog(start, target, smoothMs, daemonUp, faultAt)
    ensures result == MoveFailure(start, target, smoothMs, daemonUp, faultAt)
  {
    if !daemonUp {
      return [], Some(ActuatorUnavailable);
    }
    log := [];
    result := None;
    ghost var path := Trajectory(start, target, StepCount(smoothMs));
    ghost var plan := ServoCommands(path);
    var steps := StepCount(smoothMs);
    var i := 1;
    while i <= steps
      invariant 1 <= i <= steps + 1
      invariant |plan| == 2 * steps
      invariant log == plan[..2 * (i - 1)]
      invariant faultAt.Some? ==> faultAt.value >= |log|
    {
      var p := Point(start.pan, target.pan, i, steps);
      var t := Point(start.tilt, target.tilt, i, steps);
      PlanStepPan(path, i - 1);
      PlanStepTilt(path, i - 1);
      if faultAt == Some(|log|) {
        result := Some(ActuatorFault);
        break;
      }
      log := log + [SetServo(PAN_PIN, MapAngle(p))];
      if faultAt == Some(|log|) {
        result := Some(ActuatorFault);
        break;
      }
      log := log + [SetServo(TILT_PIN, MapAngle(t))];
      i := i + 1;
    }
    assert plan == MovePlan(start, target, smoothMs);
    if result == None {
      assert log == plan;
    }
    log := log + [Release];
  }

  /** Extending the issued prefix of a plan by one pose's pan command. */
  lemma {:induction false} PlanStepPan(path: seq<Pose>, k: nat)
    requires k < |path|
    ensures ServoCommands(path)[..2 * k + 1] == ServoCommands(path)[..2 * k] + [SetServo(PAN_PIN, MapAngle(path[k].pan))]
  {
    var cmds := ServoCommands(path);
    assert (2 * k) % 2 == 0 && (2 * k) / 2 == k;
    assert cmds[2 * k] == CommandAt(path, 2 * k);
    assert cmds[..2 * k + 1] == cmds[..2 * k] + [cmds[2 * k]];
  }

  /** Extending the issued prefix of a plan by one pose's tilt command. */
  lemma {:induction false} PlanStepTilt(path: seq<Pose>, k: nat)
    requires k < |path|
    ensures ServoCommands(path)[..2 * k + 2] == ServoCommands(path)[..2 * k + 1] + [SetServo(TILT_PIN, MapAngle(path[k].tilt))]
  {
    var cmds := ServoCommands(path);
    assert (2 * k + 1) % 2 == 1 && (2 * k + 1) / 2 == k;
    assert cmds[2 * k + 1] == CommandAt(path, 2 * k + 1);
    assert cmds[..2 * k + 2] == cmds[..2 * k + 1] + [cmds[2 * k + 1]];
  }

  /**
   * On a full move every servo command drives its pin to the image of a point
   * between start and target: even entries go to the pan pin, odd ones to the tilt pin.
   */
  lemma {:induction false} DutiesBetween(start: Pose, target: Pose, smoothMs: int, k: nat)
    requires k < 2 * StepCount(smoothMs)
    ensures var entry := MoveLog(start, target, smoothMs, true, None)[k];
      entry.SetServo? &&
      (k % 2 == 0 ==> entry.pin == PAN_PIN && Between(AngleOfDuty(entry.duty), start.pan, target.pan)) &&
      (k % 2 == 1 ==> entry.pin == TILT_PIN && Between(AngleOfDuty(entry.duty), start.tilt, target.tilt))
  {
    var steps := StepCount(smoothMs);
    var path := Trajectory(start, target, steps);
    TrajectoryFacts(start, target, steps);
    MapAngleStrictlyIncreasing(path[k / 2].pan, 0.0);
    MapAngleStrictlyIncreasing(path[k / 2].tilt, 0.0);
  }

  /**
   * Whatever happens after connecting, the log ends with exactly one `Release`;
   * on success the last pair of commands puts both servos on the target.
   */
  lemma MoveLogFacts(start: Pose, target: Pose, smoothMs: int, faultAt: Option<nat>)
    ensures var log := MoveLog(start, target, smoothMs, true, faultAt);
      |log| >= 1 && log[|log| - 1] == Release &&
      forall k :: 0 <= k < |log| - 1 ==> log[k].SetServo?
    ensures var log := MoveLog(start, target, smoothMs, true, None);
      |log| == 2 * StepCount(smoothMs) + 1 &&
      log[|log| - 3] == SetServo(PAN_PIN, MapAngle(target.pan)) &&
      log[|log| - 2] == SetServo(TILT_PIN, MapAngle(target.tilt))
  {
    var steps := StepCount(smoothMs);
    var path := Trajectory(start, target, steps);
    TrajectoryFacts(start, target, steps);
    var plan := ServoCommands(path);
    assert forall k :: 0 <= k < |plan| ==> plan[k].SetServo? by {
      forall k | 0 <= k < |plan| ensures plan[k].SetServo? {
        assert plan[2 * (k / 2)].SetServo? && plan[2 * (k / 2) + 1].SetServo?;
      }
    }
    assert plan[2 * (steps - 1)] == SetServo(PAN_PIN, MapAngle(target.pan));
  }
}
