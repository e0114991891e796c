/**
 * `cmd_move` and `cmd_center` of `ptz_cli.py`: resolving the target of each axis
 * from the stored position and the request, driving the servos there and
 * rewriting the state record.
 */
module Controller {
  import opened Common
  import opened Motion
  import opened StateStore

  /** The parsed `move` arguments: `--pan`, `--tilt`, `--relative`, `--smooth-ms` and the four bounds. */
  datatype MoveRequest = MoveRequest(
    pan: Option<real>, tilt: Option<real>, relative: bool, smoothMs: int,
    panMin: real, panMax: real, tiltMin: real, tiltMax: real)

  /** How a `move` ends. */
  datatype MoveOutcome =
    | Moved(pan: real, tilt: real)     // servos moved and the new state saved
    | MoveFailed(cause: MoveError)     // move_servos raised; save_state not reached
    | NotSaved(pan: real, tilt: real)  // servos moved but save_state raised

  /** One axis before clamping: an omitted axis keeps the stored value, a relative one adds to it. */
  function Requested(stored: real, arg: Option<real>, relative: bool): real {
    match arg
    case None => stored
    case Some(v) => v + (if relative then stored else 0.0)
  }

  /** One axis of the target: the requested value clamped to the request's own bounds. */
  function Target(stored: real, arg: Option<real>, relative: bool, lo: real, hi: real): (t: real)
    ensures lo <= hi ==> lo <= t <= hi
    ensures arg.None? && lo <= stored <= hi ==> t == stored
    ensures arg.Some? && !relative && lo <= arg.value <= hi ==> t == arg.value
    ensures arg.Some? && relative && lo <= stored + arg.value <= hi ==> t == stored + arg.value
    ensures arg.None? ==> t == Clamp(stored, lo, hi)
    ensures lo <= hi && Requested(stored, arg, relative) > hi ==> t == hi
    ensures Requested(stored, arg, relative) < lo ==> t == lo
    ensures hi < lo ==> t == lo
  {
    Clamp(Requested(stored, arg, relative), lo, hi)
  }

  /** Where the servos start: the stored position. */
  function StartPose(loaded: Record): Pose
    requires HasAllFields(loaded)
  {
    Pose(loaded["pan"], loaded["tilt"])
  }

  /** Where the servos go: both axes resolved against the stored position. */
  function TargetPose(loaded: Record, req: MoveRequest): Pose
    requires HasAllFields(loaded)
  {
    Pose(Target(loaded["pan"], req.pan, req.relative, req.panMin, req.panMax),
         Target(loaded["tilt"], req.tilt, req.relative, req.tiltMin, req.tiltMax))
  }

  /**
   * The record saved after a successful move: the loaded record with the clamped
   * targets and the request's four bounds written over it. The stored bounds play
   * no part; every other key of the loaded record is kept.
   */
  function MovedRecord(loaded: Record, req: MoveRequest): (r: Record)
    requires HasAllFields(loaded)
    ensures HasAllFields(r) && r.Keys == loaded.Keys
    ensures Pose(r["pan"], r["tilt"]) == TargetPose(loaded, req)
    ensures r["pan_min"] == req.panMin && r["pan_max"] == req.panMax
    ensures r["tilt_min"] == req.tiltMin && r["tilt_max"] == req.tiltMax
    ensures forall k :: k in loaded && k !in FIELDS ==> r[k] == loaded[k]
  {
    var target := TargetPose(loaded, req);
    loaded + map["pan" := target.pan, "tilt" := target.tilt,
                 "pan_min" := req.panMin, "pan_max" := req.panMax,
                 "tilt_min" := req.tiltMin, "tilt_max" := req.tiltMax]
  }

  /** How `cmd_move` ends, given how the servo move and the save go. */
  function Outcome(loaded: Record, req: MoveRequest, daemonUp: bool, faultAt: Option<nat>, fault: SaveFault): MoveOutcome
    requires HasAllFields(loaded)
  {
    var target := TargetPose(loaded, req);
    match MoveFailure(StartPose(loaded), target, req.smoothMs, daemonUp, faultAt)
    case Some(e) => MoveFailed(e)
    case None => if fault == NoFault then Moved(target.pan, target.tilt) else NotSaved(target.pan, target.tilt)
  }

  /**
   * `cmd_move(args)`: load the state, resolve and clamp the targets, move from the
   * stored position, then overwrite the position and all four bounds and save.
   * A failed move leaves the file as it was; a failed save leaves it as `Save` says.
   */
  method CmdMove(file: StateFile, req: MoveRequest, daemonUp: bool, faultAt: Option<nat>)
    returns (log: seq<Call>, outcome: MoveOutcome)
    modifies file
    ensures var loaded := LoadedRecord(old(file.contents));
      && log == MoveLog(StartPose(loaded), TargetPose(loaded, req), req.smoothMs, daemonUp, faultAt)
      && outcome == Outcome(loaded, req, daemonUp, faultAt, file.fault)
      && file.contents == (if outcome.MoveFailed? then old(file.contents)
                           else SavedContents(old(file.contents), MovedRecord(loaded, req), file.fault))
  {
    var state := file.Load();
    var pan := state["pan"];
    var tilt := state["tilt"];

    if req.pan.Some? {
      pan := req.pan.value + (if req.relative then pan else 0.0);
    }
    if req.tilt.Some? {
      tilt := req.tilt.value + (if req.relative then tilt else 0.0);
    }

    pan := Clamp(pan, req.panMin, req.panMax);
    tilt := Clamp(tilt, req.tiltMin, req.tiltMax);
    ghost var loaded := state;
    assert Pose(pan, tilt) == TargetPose(loaded, req);

    var failure;
    log, failure := MoveServos(Pose(pan, tilt), req.smoothMs, Pose(state["pan"], state["tilt"]), daemonUp, faultAt);
    if failure.Some? {
      return log, MoveFailed(failure.value);
    }
    state := state + map["pan" := pan, "tilt" := tilt, "pan_min" := req.panMin, "pan_max" := req.panMax,
                         "tilt_min" := req.tiltMin, "tilt_max" := req.tiltMax];
    assert state == MovedRecord(loaded, req);
    var saved := file.Save(state);
    outcome := if saved then Moved(pan, tilt) else NotSaved(pan, tilt);
  }

  /** The fixed request of `cmd_center`: absolute (0, 0), 300 ms, the default bounds. */
  function CenterRequest(): MoveRequest {
    var d := Defaults();
    MoveRequest(Some(0.0), Some(0.0), false, 300, d["pan_min"], d["pan_max"], d["tilt_min"], d["tilt_max"])
  }

  /** `cmd_center(args)`: a move to (0, 0) with the default bounds, whatever the stored bounds are. */
  method CmdCenter(file: StateFile, daemonUp: bool, faultAt: Option<nat>)
    returns (log: seq<Call>, outcome: MoveOutcome)
    modifies file
    ensures var loaded := LoadedRecord(old(file.contents));
      && log == MoveLog(StartPose(loaded), Pose(0.0, 0.0), 300, daemonUp, faultAt)
      && outcome == Outcome(loaded, CenterRequest(), daemonUp, faultAt, file.fault)
      && file.contents == (if outcome.MoveFailed? then old(file.contents)
                           else SavedContents(old(file.contents), MovedRecord(loaded, CenterRequest()), file.fault))
  {
    log, outcome := CmdMove(file, CenterRequest(), daemonUp, faultAt);
  }

  /**
   * Centering always lands on (0, 0) in 15 steps and resets all four bounds to the
   * defaults, discarding any custom range that was stored.
   */
  lemma {:induction false} CenterResetsBounds(loaded: Record)
    requires HasAllFields(loaded)
    ensures TargetPose(loaded, CenterRequest()) == Pose(0.0, 0.0)
    ensures StepCount(CenterRequest().smoothMs) == 15
    ensures var r := MovedRecord(loaded, CenterRequest());
      r["pan"] == 0.0 && r["tilt"] == 0.0 &&
      forall k :: k in FIELDS && k != "pan" && k != "tilt" ==> r[k] == Defaults()[k]
  {
    var r := MovedRecord(loaded, CenterRequest());
    assert FIELDS == {"pan", "tilt", "pan_min", "pan_max", "tilt_min", "tilt_max"};
  }

  /**
   * The bounds saved after a move are the request's and nothing else: two stored
   * records that differ only in their bounds lead to the same saved bounds.
   */
  lemma {:induction false} BoundsNeverMerged(a: Record, b: Record, req: MoveRequest)
    requires HasAllFields(a) && HasAllFields(b)
    ensures var ra, rb := MovedRecord(a, req), MovedRecord(b, req);
      ra["pan_min"] == rb["pan_min"] && ra["pan_max"] == rb["pan_max"] &&
      ra["tilt_min"] == rb["tilt_min"] && ra["tilt_max"] == rb["tilt_max"]
  {
  }

  /** When the request's bounds are ordered, the saved position lies within the saved bounds. */
  lemma {:induction false} SavedPositionWithinSavedBounds(loaded: Record, req: MoveRequest)
    requires HasAllFields(loaded)
    requires req.panMin <= req.panMax && req.tiltMin <= req.tiltMax
    ensures var s := FromRecord(MovedRecord(loaded, req));
      s.panMin <= s.pan <= s.panMax && s.tiltMin <= s.tilt <= s.tiltMax
  {
  }

  /**
   * An absolute move to the stored position under the stored bounds, from a position
   * inside them, commands a constant trajectory and saves the record unchanged.
   */
  lemma {:induction false} MoveToCurrentIsIdentity(loaded: Record, req: MoveRequest)
    requires HasAllFields(loaded)
    requires req.pan == Some(loaded["pan"]) && req.tilt == Some(loaded["tilt"]) && !req.relative
    requires req.panMin == loaded["pan_min"] && req.panMax == loaded["pan_max"]
    requires req.tiltMin == loaded["tilt_min"] && req.tiltMax == loaded["tilt_max"]
    requires loaded["pan_min"] <= loaded["pan"] <= loaded["pan_max"]
    requires loaded["tilt_min"] <= loaded["tilt"] <= loaded["tilt_max"]
    ensures TargetPose(loaded, req) == StartPose(loaded)
    ensures var path := Trajectory(StartPose(loaded), TargetPose(loaded, req), StepCount(req.smoothMs));
      forall k :: 0 <= k < |path| ==> path[k] == StartPose(loaded)
    ensures MovedRecord(loaded, req) == loaded
  {
    TrajectoryFacts(StartPose(loaded), TargetPose(loaded, req), StepCount(req.smoothMs));
    var r := MovedRecord(loaded, req);
    assert FIELDS == {"pan", "tilt", "pan_min", "pan_max", "tilt_min", "tilt_max"};
    assert forall k :: k in loaded ==> r[k] == loaded[k];
  }

  /**
   * A relative pan move by `d` followed, after saving and reloading, by one by `-d`
   * returns pan to where it started when neither move is clamped; tilt, omitted,
   * stays put.
   */
  lemma {:induction false} RelativeMovesCancel(loaded: Record, req: MoveRequest, d: real)
    requires HasAllFields(loaded)
    requires req.relative && req.pan == Some(d) && req.tilt.None?
    requires req.panMin <= loaded["pan"] <= req.panMax && req.panMin <= loaded["pan"] + d <= req.panMax
    requires req.tiltMin <= loaded["tilt"] <= req.tiltMax
    ensures var first := LoadedRecord(Some(MovedRecord(loaded, req)));
      var second := MovedRecord(first, req.(pan := Some(-d)));
      second["pan"] == loaded["pan"] && second["tilt"] == loaded["tilt"]
  {
    var saved := MovedRecord(loaded, req);
    ReloadRoundTrip(saved, FromRecord(saved));
  }
}
