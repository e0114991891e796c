# ptz-cli decision layer, modelled in Dafny

`ptz_cli.py` drives a two-servo pan/tilt head through the pigpio daemon and takes
photos and videos with `rpicam-still` / `rpicam-vid`. Between its argument parser
and its side effects sits a small decision layer, and this project models that
layer and proves what it promises:

- **Motion** (`motion.dfy`): `clamp`, `map_angle` (degrees in [-90, 90] onto PWM duty
  values in [250, 1250]), the step count `max(1, int(smooth_ms / 20))`, the linear
  trajectory and the `move_servos` loop. The loop is a method that writes an
  abstract actuator log: one `SetServo(pin, duty)` per `set_servo` call and a
  `Release` for `pi.stop()`.
- **State store** (`state_store.dfy`): `DEFAULTS`, `load_state` (defaults overlaid
  with whatever keys the file holds; exactly the defaults when the file is missing
  or unreadable) and `save_state` (whole-record overwrite). These work on a
  `StateFile` object whose `contents` is the file as an optional key/value map.
- **Controller** (`controller.dfy`): `cmd_move` resolves each axis and clamps it to
  the request's own bounds. It moves from the stored position, then writes the new
  position and the request's four bounds over the loaded record and saves it.
  `cmd_center` is the fixed request (0, 0), 300 ms, default bounds.
- **Capture** (`capture.dfy`, with string helpers in `text.dfy`): the exit-code and
  busy-pattern classification of `run_rpicam`, the `camera_busy_message` report,
  and the ordered argument lists of `cmd_photo` and `cmd_video`. The argument lists
  have inverse parsers, so each list is proved to read back as the options it came from.

The hardware, the file and the subprocesses are inputs:
- `daemonUp` says whether `ensure_pigpiod` connects.
- `faultAt` is the index of the `set_servo` call that raises (each `set_servo` makes three pigpio calls, modelled as one log entry).
- `StateFile.fault` says how `save_state` goes: it writes the record, it cannot open the file, or it fails while writing after the open has emptied the file.
- `dirOk` says whether the directory of a capture's output path exists or can be created.
- `ProcessResult` is the exit code, stdout and stderr of the capture process.
- `psListing` is what the `ps | egrep` pipeline printed.
- `fallback` is the timestamped default output path.

Angles and durations are exact `real`s.

Where the code behaves differently from what a reader might expect, the model follows the code:
- One might expect the stored angle always to lie within the stored bounds, with
  `min < max`. The code never checks the request's bounds. With `min > max`,
  `max(lo, min(hi, v))` returns `lo`, so the saved angle can lie outside the saved
  bounds. `Controller.SavedPositionWithinSavedBounds` therefore assumes ordered bounds.
- An axis the request omits is not left untouched. It keeps its stored value and is
  then clamped to the new bounds like the other axis, so a stored angle outside the
  new range moves.
- Any `smooth_ms` below 40 (not only `<= 0`) gives a single step.
- `cmd_photo` and `cmd_video` call `os.makedirs(os.path.dirname(out))` before the
  camera runs. For an output given as a bare file name (`-o shot.jpg`) the directory
  name is empty, `os.makedirs('')` raises, and the command fails without capturing
  (`Capture.BareFileNameFails`). This looks unintended, but the model keeps it.
- A `save_state` that fails after `open(..., 'w')` has already emptied the file leaves
  an unparsable file, so the next command starts from `DEFAULTS`.

## Model

| member | source | states |
|---|---|---|
| Motion.Clamp | ptz_cli.py:46-47 | with lo <= hi the result lies in [lo, hi]; it is `val` when `val` is inside, `lo` below, `hi` above; with hi < lo it is always `lo` |
| Motion.MapAngle | ptz_cli.py:42-43 | -90 degrees maps to duty 250 and 90 degrees to duty 1250 |
| Motion.MapAngleStrictlyIncreasing | ptz_cli.py:42-43 | the map is strictly increasing and `AngleOfDuty` inverts it |
| Motion.MapAngleExtrapolates | ptz_cli.py:68-72 | the map is applied whatever the bounds: angles beyond [-90, 90] give duties beyond [250, 1250] rather than being cut off |
| Motion.StepCount | ptz_cli.py:80 | the step count is at least 1 |
| Motion.StepCountFacts | ptz_cli.py:80 | below 40 ms (including 0 and negative) exactly one step; from 20 ms on, smooth_ms / 20 rounded down; never more than one step per 20 ms beyond the first; monotone in smooth_ms |
| Motion.Trajectory | ptz_cli.py:81-83 | one pose per step, pose k being start + (target - start) * (k+1) / steps on each axis |
| Motion.PointAtLastStep | ptz_cli.py:82-83 | the point at i = steps is exactly the target |
| Motion.PointBetween | ptz_cli.py:82-83 | every point with 0 <= i <= steps lies between start and target |
| Motion.TrajectoryFacts | ptz_cli.py:81-86 | the trajectory has `steps` poses, ends on the target, stays between start and target on both axes, and is constant when start equals target |
| Motion.ServoCommands | ptz_cli.py:84-85 | each pose issues two commands, pan to PAN_PIN (13) then tilt to TILT_PIN (12), with the mapped duties |
| Motion.MoveServos | ptz_cli.py:75-88 | the loop writes exactly the planned commands up to the failing `set_servo` call (all of them when none fails) and then releases the handle; nothing is written and ActuatorUnavailable is reported when the daemon cannot be reached |
| Motion.MoveLogFacts | ptz_cli.py:77-88 | once connected the log always ends with one Release, on the failing path too; a full move issues 2 * steps servo commands whose last pair puts both servos on the target |
| Motion.DutiesBetween | ptz_cli.py:79-85 | on a full move entry k of the log drives the pan pin (k even) or the tilt pin (k odd) to a duty whose angle lies between start and target on that axis |
| StateStore.Defaults | ptz_cli.py:16-23 | exactly the six fields with pan 0, tilt 0, pan bounds [-90, 90], tilt bounds [-90, 30] |
| StateStore.LoadedRecord | ptz_cli.py:50-59 | a missing or unreadable file gives exactly DEFAULTS; otherwise the file's keys win, fields the file lacks keep their defaults, and all six fields are always present |
| StateStore.ReloadRoundTrip | ptz_cli.py:50-65 | loading a saved record that holds the six fields gives it back unchanged; a saved six-field state loads as the same six values |
| StateStore.StateFile.Load | ptz_cli.py:50-59 | copying DEFAULTS and updating the copy with the file's keys yields LoadedRecord of the file |
| StateStore.SavedContents | ptz_cli.py:62-65 | a save that goes through leaves exactly the new record; one that cannot open the file leaves the old contents; one that fails after the open leaves a file that loads as DEFAULTS |
| StateStore.StateFile.Save | ptz_cli.py:62-65 | the call succeeds exactly when no fault occurs, and the file then holds SavedContents of the old contents, the record and the fault |
| Controller.Target | ptz_cli.py:133-139 | the resolved axis lies within the request's bounds when they are ordered; an omitted axis keeps its stored value (whatever the relative flag says) and is clamped like the other; an in-range absolute value is taken as is and an in-range relative move adds the delta; a requested value above the upper bound becomes the upper bound, one below the lower bound the lower bound, and with inverted bounds the result is always the lower bound |
| Controller.MovedRecord | ptz_cli.py:142-143 | the saved record holds the clamped targets and exactly the request's four bounds, keeps every other key of the loaded record, and has the same keys |
| Controller.CmdMove | ptz_cli.py:128-145 | the servos move from the stored position to the resolved target; after a successful move the file holds MovedRecord of what was loaded, saved as SavedContents describes; a failed move leaves the file unchanged |
| Controller.CmdCenter | ptz_cli.py:148-152 | centering is a move to (0, 0) over 300 ms with the default bounds |
| Controller.CenterResetsBounds | ptz_cli.py:148-152 | centering targets (0, 0) in 15 steps and resets all four bounds to DEFAULTS whatever bounds were stored |
| Controller.BoundsNeverMerged | ptz_cli.py:142-143 | the saved bounds do not depend on the stored ones: two records with different bounds save the same bounds for the same request |
| Controller.SavedPositionWithinSavedBounds | ptz_cli.py:138-143 | with ordered request bounds the saved pan and tilt lie within the saved bounds |
| Controller.MoveToCurrentIsIdentity | ptz_cli.py:128-144 | an absolute move to the stored position under the stored bounds gives a constant trajectory and saves the record unchanged |
| Controller.RelativeMovesCancel | ptz_cli.py:133-144 | a relative pan move by d, saved and reloaded, followed by one by -d restores pan when neither is clamped; the omitted tilt stays put |
| Text.StripLeft | ptz_cli.py:102 | drops exactly the leading white space (Python's `isspace` set) |
| Text.StripRight | ptz_cli.py:122 | drops exactly the trailing white space |
| Text.StripIsTrimmedSlice | ptz_cli.py:102-104 | `strip()` returns the slice between the white-space margins, which neither starts nor ends with white space |
| Text.StripEmptyIffAllSpace | ptz_cli.py:122-124 | the stripped text is empty exactly when the input is all white space |
| Text.ContainsIff | ptz_cli.py:116-118 | the substring test holds exactly when the pattern occurs at some position |
| Text.DecimalRoundTrip | ptz_cli.py:166 | `str()` of an integer timeout reads back as the same integer |
| Capture.LooksBusyIff | ptz_cli.py:115-119 | the busy test holds exactly when one of the three fixed patterns occurs in the combined output |
| Capture.BusyMessageText | ptz_cli.py:91-107 | the busy report is the two fixed header lines followed by either "Active camera-related processes:" and the stripped listing or "No obvious camera processes found.", joined by newlines |
| Capture.ErrorText | ptz_cli.py:125 | the error text is "rpicam failed with exit " followed by a decimal that reads back as the exit code |
| Capture.RunRpicam | ptz_cli.py:110-125 | exit 0 gives no error and any other exit an error carrying that exit code; the error is DeviceBusy with the busy report exactly when a pattern occurs; otherwise it carries the stripped output, absent exactly when the output is all white space |
| Capture.ResolveOutput | ptz_cli.py:161-163 | a missing or empty output path is replaced by the default path; any other is kept |
| Capture.PhotoCommand | ptz_cli.py:166-180 | the appends build the fixed head `rpicam-still --timeout T --nopreview -o out`, then hflip, vflip, autofocus mode, range, speed, on-capture and lens position in that order, each only when set |
| Capture.PhotoFlagsRoundTrip | ptz_cli.py:168-178 | the optional photo flags, each written only when set, read back as the options they came from |
| Capture.PhotoArgsRoundTrip | ptz_cli.py:166-180 | every photo argument list parses back to its output path and options, so each set option appears with its value and no two requests share a list |
| Capture.VideoTimeoutFacts | ptz_cli.py:192 | a duration of 0 or less gives timeout 0; a positive one its whole milliseconds rounded down, so one under 1 ms also gives 0 |
| Capture.VideoCommand | ptz_cli.py:192-197 | the appends build `rpicam-vid --timeout T --nopreview -o out` then hflip and vflip, each only when set |
| Capture.VideoArgsRoundTrip | ptz_cli.py:192-197 | every video argument list parses back to its output path, timeout and flips |
| Capture.CaptureOutcome | ptz_cli.py:161-165 | the capture fails at the directory step exactly when the output has no directory part or its directory cannot be created; otherwise it saves the path exactly when the process exits 0 and carries run_rpicam's error when it does not |
| Capture.BareFileNameFails | ptz_cli.py:161-164 | `-o shot.jpg` fails at `os.makedirs` whatever the camera would do |
| Capture.CmdPhoto | ptz_cli.py:160-183 | the result is CaptureOutcome of the resolved path; no command is built when the directory step fails, and otherwise the command is the photo argument list, which reads back as the path and options |
| Capture.CmdVideo | ptz_cli.py:186-200 | the result is CaptureOutcome of the resolved path; no command is built when the directory step fails, and otherwise the command is the video argument list, which reads back as the path, timeout and flips |

## Left out

- `ensure_pigpiod` (ptz_cli.py:30-39) is reduced to the `daemonUp` flag. The `sudo pigpiod` retry and its 0.2 s wait are not modelled; the flag says whether the connection succeeds after them.
- `set_servo` (ptz_cli.py:68-72) becomes one `SetServo(pin, duty)` log entry. Its `set_PWM_frequency(pin, 50)` and `set_PWM_range(pin, 10000)` calls are not logged separately, and pigpio's conversion of the duty to an integer is not modelled, because it happens inside the foreign library.
- `map_angle`'s optional range parameters are never overridden by the program, so `Motion.MapAngle` has the default ranges built in.
- The 20 ms `time.sleep` between steps is wall-clock pacing with no effect on the commands and is not modelled.
- Floating-point rounding in the interpolation, in `smooth_ms / 20` and in `duration_s * 1000` is not modelled; the model uses exact reals and integers.
- Non-finite floats (`nan`, `inf`), which argparse and `json.load` both accept, are not modelled; the model's reals are finite. Lost with them: `--duration-s inf` raises `OverflowError` and `--duration-s nan` raises `ValueError` in `int(duration_s * 1000)` before the camera runs, and `--pan nan` resolves to the upper bound because `min(hi, nan)` is `hi`.
- The JSON file is an optional map from field names to numbers. It stands for a JSON object or a JSON array of `[key, value]` pairs, which `dict.update` reads the same way. Not modelled: values that are not numbers. A non-number `pan` or `tilt` makes `cmd_move` raise a `TypeError`. A non-number under a bound key is overwritten by the request's bound, and one under another key is saved back as it is. JSON booleans act as 0 and 1. Also not modelled: a document that `dict.update` partly consumes before raising, which leaves the keys read so far in the loaded state.
- StateStore.StateFile.Save: `os.makedirs` and `open` failures are folded into `CannotOpen`. A failure after `open` is always modelled as an unparsable file, including a failing close after every byte was written.
- No locking is modelled: two concurrent invocations can lose an update, and the model covers one invocation at a time.
- Printing is not modelled. This covers `pan=... tilt=...`, the printed output path and `cmd_status` (which prints what `StateFile.Load` returns). The text `run_rpicam` writes to stderr is returned inside the error instead.
- The `rpicam-*` process and the `ps -ef | egrep ...` pipeline are inputs, not run. A pipeline that fails prints nothing, which is the empty listing.
- `now_stamp`, `os.path.expanduser` and the default `~/Pictures` / `~/Videos` paths are the `fallback` input, because they depend on the clock and environment. Whether the output's directory can be created is the `dirOk` input; `os.path.dirname` is reduced to whether the path contains a `/`.
- `--lens-position` is carried as the text Python's `str()` gives for the number, because float formatting is not modelled.
- `build_parser` and `main` are not modelled. This covers argparse, its defaults (300 ms smoothing, 2000 ms photo timeout, flips on, 5 s video) and the exit code 1 on `RuntimeError`.
