/**
 * The capture supervisor of `ptz_cli.py`: `camera_busy_message`, `run_rpicam`
 * and the argument lists `cmd_photo` and `cmd_video` hand to `rpicam-still` and
 * `rpicam-vid`. The capture process is replaced by its result (exit code,
 * standard output, standard error) and the `ps | egrep` listing by its output.
 */
module Capture {
  import opened Common
  import opened Text

  /** The texts in the combined output that mean another process holds the camera. */
  const BUSY_PATTERNS: seq<string> := [
    "Pipeline handler in use by another process",
    "Device or resource busy",
    "failed to acquire camera"
  ]

  /** What a finished `rpicam-*` process reports. */
  datatype ProcessResult = ProcessResult(exitCode: int, stdout: string, stderr: string)

  /** Standard output followed by standard error. */
  function Combined(proc: ProcessResult): string {
    proc.stdout + proc.stderr
  }

  /** The busy test of `run_rpicam`: one of the three patterns is a substring of the output. */
  predicate LooksBusy(combined: string) {
    Contains(combined, BUSY_PATTERNS[0]) || Contains(combined, BUSY_PATTERNS[1]) || Contains(combined, BUSY_PATTERNS[2])
  }

  /** The busy test holds exactly when one of the patterns occurs somewhere in the output. */
  lemma {:induction false} LooksBusyIff(combined: string)
    ensures LooksBusy(combined) <==>
      exists k, i :: 0 <= k < |BUSY_PATTERNS| && OccursAt(combined, BUSY_PATTERNS[k], i)
  {
    ContainsIff(combined, BUSY_PATTERNS[0]);
    ContainsIff(combined, BUSY_PATTERNS[1]);
    ContainsIff(combined, BUSY_PATTERNS[2]);
    if exists k, i :: 0 <= k < |BUSY_PATTERNS| && OccursAt(combined, BUSY_PATTERNS[k], i) {
      var k, i :| 0 <= k < |BUSY_PATTERNS| && OccursAt(combined, BUSY_PATTERNS[k], i);
      assert k == 0 || k == 1 || k == 2;
    }
  }

  const BUSY_LINE_1: string := "Camera appears busy (another process has the device open)."
  const BUSY_LINE_2: string := "Close any running previews/streams (rpicam-*, libcamera-hello, Vilib)."
  const PROCESSES_LINE: string := "Active camera-related processes:"
  const NO_PROCESSES_LINE: string := "No obvious camera processes found."

  /** The lines of the busy report: two fixed lines, then the stripped listing or a "none found" line. */
  function BusyReportLines(psListing: string): seq<string> {
    var listing := Strip(psListing);
    [BUSY_LINE_1, BUSY_LINE_2] + (if listing != "" then [PROCESSES_LINE, listing] else [NO_PROCESSES_LINE])
  }

  /** `camera_busy_message()`, given what the process listing printed. */
  function CameraBusyMessage(psListing: string): string {
    Join(BusyReportLines(psListing), "\n")
  }

  /** Joining two lines followed by more puts the separator after each of the two. */
  lemma {:induction false} JoinTwoThenMore(a: string, b: string, tail: seq<string>, sep: string)
    requires |tail| >= 1
    ensures Join([a, b] + tail, sep) == a + sep + b + sep + Join(tail, sep)
  {
    var lines := [a, b] + tail;
    assert lines[1..] == [b] + tail;
    assert lines[1..][1..] == tail;
  }

  /**
   * The report always opens with the same two lines; it then names the processes
   * found (the listing without its surrounding white space) or says none were found.
   */
  lemma {:induction false} BusyMessageText(psListing: string)
    ensures CameraBusyMessage(psListing) ==
      BUSY_LINE_1 + "\n" + BUSY_LINE_2 + "\n" +
      (if Strip(psListing) != "" then PROCESSES_LINE + "\n" + Strip(psListing) else NO_PROCESSES_LINE)
    ensures |CameraBusyMessage(psListing)| > |BUSY_LINE_1| + |BUSY_LINE_2|
  {
    var listing := Strip(psListing);
    var tail := if listing != "" then [PROCESSES_LINE, listing] else [NO_PROCESSES_LINE];
    JoinTwoThenMore(BUSY_LINE_1, BUSY_LINE_2, tail, "\n");
    assert [PROCESSES_LINE, listing][1..] == [listing];
  }

  /** Why a capture failed. */
  datatype Failure =
    | DeviceBusy(report: string)          // a busy pattern matched; the busy report is printed
    | CaptureFailed(output: Option<string>) // anything else; the stripped output is printed when not empty

  /** The `RuntimeError` `run_rpicam` raises, with the exit code and what it printed first. */
  datatype CaptureError = CaptureError(exitCode: int, failure: Failure)

  /** The fixed start of the raised error's text. */
  const ERROR_PREFIX := "rpicam failed with exit "

  /**
   * The text of the raised `RuntimeError`: the fixed prefix followed by the exit
   * code in decimal, which reads back as that exit code.
   */
  function ErrorText(e: CaptureError): (t: string)
    ensures |t| > |ERROR_PREFIX| && t[..|ERROR_PREFIX|] == ERROR_PREFIX
    ensures ParseDecimal(t[|ERROR_PREFIX|..]) == Some(e.exitCode)
  {
    var t := ERROR_PREFIX + IntToDecimal(e.exitCode);
    DecimalRoundTrip(e.exitCode);
    assert t[|ERROR_PREFIX|..] == IntToDecimal(e.exitCode);
    t
  }

  /**
   * `run_rpicam(args_list)` once the process has finished: no error on exit 0; on any
   * other exit a `DeviceBusy` error carrying the busy report when a pattern occurs in
   * the combined output, and otherwise a `CaptureFailed` error carrying the stripped
   * output when it is not empty.
   */
  function RunRpicam(proc: ProcessResult, psListing: string): (r: Option<CaptureError>)
    ensures r.None? <==> proc.exitCode == 0
    ensures r.Some? ==> r.value.exitCode == proc.exitCode
    ensures r.Some? ==> (r.value.failure.DeviceBusy? <==>
      exists k, i :: 0 <= k < |BUSY_PATTERNS| && OccursAt(Combined(proc), BUSY_PATTERNS[k], i))
    ensures r.Some? && r.value.failure.DeviceBusy? ==> r.value.failure.report == CameraBusyMessage(psListing)
    ensures r.Some? && r.value.failure.CaptureFailed? ==>
      (r.value.failure.output.None? <==> forall i :: 0 <= i < |Combined(proc)| ==> IsSpace(Combined(proc)[i]))
    ensures r.Some? && r.value.failure.CaptureFailed? && r.value.failure.output.Some? ==>
      r.value.failure.output.value == Strip(Combined(proc))
  {
    var combined := Combined(proc);
    LooksBusyIff(combined);
    StripEmptyIffAllSpace(combined);
    if proc.exitCode == 0 then None
    else if LooksBusy(combined) then Some(CaptureError(proc.exitCode, DeviceBusy(CameraBusyMessage(psListing))))
    else
      var msg := Strip(combined);
      Some(CaptureError(proc.exitCode, CaptureFailed(if msg != "" then Some(msg) else None)))
  }

  /** `out = args.output` unless it is missing or empty, in which case the timestamped default. */
  function ResolveOutput(output: Option<string>, fallback: string): (out: string)
    ensures output.Some? && output.value != "" ==> out == output.value
    ensures output.None? || output.value == "" ==> out == fallback
  {
    if output.None? || output.value == "" then fallback else output.value
  }

  /** `--autofocus-mode` choices. */
  datatype AfMode = Manual | Auto | Continuous | DefaultMode
  /** `--autofocus-range` choices. */
  datatype AfRange = NormalRange | Macro | Full
  /** `--autofocus-speed` choices. */
  datatype AfSpeed = NormalSpeed | Fast

  function AfModeText(m: AfMode): string {
    match m
    case Manual => "manual"
    case Auto => "auto"
    case Continuous => "continuous"
    case DefaultMode => "default"
  }

  function AfRangeText(r: AfRange): string {
    match r
    case NormalRange => "normal"
    case Macro => "macro"
    case Full => "full"
  }

  function AfSpeedText(s: AfSpeed): string {
    match s
    case NormalSpeed => "normal"
    case Fast => "fast"
  }

  function ParseAfMode(s: string): Option<AfMode> {
    if s == "manual" then Some(Manual)
    else if s == "auto" then Some(Auto)
    else if s == "continuous" then Some(Continuous)
    else if s == "default" then Some(DefaultMode)
    else None
  }

  function ParseAfRange(s: string): Option<AfRange> {
    if s == "normal" then Some(NormalRange)
    else if s == "macro" then Some(Macro)
    else if s == "full" then Some(Full)
    else None
  }

  function ParseAfSpeed(s: string): Option<AfSpeed> {
    if s == "normal" then Some(NormalSpeed)
    else if s == "fast" then Some(Fast)
    else None
  }

  /** The photo options. `lensPosition` is the text `str()` gives for the `--lens-position` number. */
  datatype PhotoOptions = PhotoOptions(
    timeoutMs: int, hflip: bool, vflip: bool,
    afMode: Option<AfMode>, afRange: Option<AfRange>, afSpeed: Option<AfSpeed>,
    afOnCapture: bool, lensPosition: Option<string>)

  /** The fixed head of every capture command: program, timeout, no preview, output path. */
  function CommandHead(program: string, timeoutMs: int, out: string): seq<string> {
    [program, "--timeout", IntToDecimal(timeoutMs), "--nopreview", "-o", out]
  }

  /** A switch that is present exactly when it is set. */
  function Switch(on: bool, flag: string): seq<string> {
    if on then [flag] else []
  }

  /** A flag with its value, present exactly when the value is. */
  function Valued(value: Option<string>, flag: string): seq<string> {
    if value.Some? then [flag, value.value] else []
  }

  function ModeArg(m: Option<AfMode>): Option<string> {
    if m.Some? then Some(AfModeText(m.value)) else None
  }

  function RangeArg(r: Option<AfRange>): Option<string> {
    if r.Some? then Some(AfRangeText(r.value)) else None
  }

  function SpeedArg(s: Option<AfSpeed>): Option<string> {
    if s.Some? then Some(AfSpeedText(s.value)) else None
  }

  /**
   * The `rpicam-still` argument list: the fixed head, then hflip, vflip, autofocus
   * mode, range and speed, autofocus-on-capture and lens position, in that order,
   * each only when set.
   */
  function PhotoArgs(out: string, o: PhotoOptions): seq<string> {
    CommandHead("rpicam-still", o.timeoutMs, out)
    + Switch(o.hflip, "--hflip")
    + Switch(o.vflip, "--vflip")
    + Valued(ModeArg(o.afMode), "--autofocus-mode")
    + Valued(RangeArg(o.afRange), "--autofocus-range")
    + Valued(SpeedArg(o.afSpeed), "--autofocus-speed")
    + Switch(o.afOnCapture, "--autofocus-on-capture")
    + Valued(o.lensPosition, "--lens-position")
  }

  /** The argument-list building of `cmd_photo`: start from the head and append each set option. */
  method PhotoCommand(out: string, o: PhotoOptions) returns (cmd: seq<string>)
    ensures cmd == PhotoArgs(out, o)

  {
    cmd := ["rpicam-still", "--timeout", IntToDecimal(o.timeoutMs), "--nopreview", "-o", out];
    ghost var want := CommandHead("rpicam-still", o.timeoutMs, out);
    assert cmd == want;
    if o.hflip {
      cmd := cmd + ["--hflip"];
    }
    want := want + Switch(o.hflip, "--hflip");
    assert cmd == want;
    if o.vflip {
      cmd := cmd + ["--vflip"];
    }
    want := want + Switch(o.vflip, "--vflip");
    assert cmd == want;
    if o.afMode.Some? {
      cmd := cmd + ["--autofocus-mode", AfModeText(o.afMode.value)];
    }
    want := want + Valued(ModeArg(o.afMode), "--autofocus-mode");
    assert cmd == want;
    if o.afRange.Some? {
      cmd := cmd + ["--autofocus-range", AfRangeText(o.afRange.value)];
    }
    want := want + Valued(RangeArg(o.afRange), "--autofocus-range");
    assert cmd == want;
    if o.afSpeed.Some? {
      cmd := cmd + ["--autofocus-speed", AfSpeedText(o.afSpeed.value)];
    }
    want := want + Valued(SpeedArg(o.afSpeed), "--autofocus-speed");
    assert cmd == want;
    if o.afOnCapture {
      cmd := cmd + ["--autofocus-on-capture"];
    }
    want := want + Switch(o.afOnCapture, "--autofocus-on-capture");
    assert cmd == want;
    if o.lensPosition.Some? {
      cmd := cmd + ["--lens-position", o.lensPosition.value];
    }
    want := want + Valued(o.lensPosition, "--lens-position");
    assert cmd == want;
    assert want == CommandHead("rpicam-still", o.timeoutMs, out)
    + Switch(o.hflip, "--hflip")
    + Switch(o.vflip, "--vflip")
    + Valued(ModeArg(o.afMode), "--autofocus-mode")
    + Valued(RangeArg(o.afRange), "--autofocus-range")
    + Valued(SpeedArg(o.afSpeed), "--autofocus-speed")
    + Switch(o.afOnCapture, "--autofocus-on-capture")
    + Valued(o.lensPosition, "--lens-position");
    assert want == PhotoArgs(out, o);
  }

  /** Consumes `flag` from the front of `rest` if it is there. */
  function TakeSwitch(rest: seq<string>, flag: string): (bool, seq<string>) {
    if |rest| >= 1 && rest[0] == flag then (true, rest[1..]) else (false, rest)
  }

  /** Consumes `flag` and the value after it from the front of `rest` if the flag is there. */
  function TakeValued(rest: seq<string>, flag: string): (Option<string>, seq<string>) {
    if |rest| >= 2 && rest[0] == flag then (Some(rest[1]), rest[2..]) else (None, rest)
  }

  /** Reads the head of a capture command back: output path, timeout, and what follows. */
  function ParseHead(cmd: seq<string>, program: string): Option<(string, int, seq<string>)> {
    if |cmd| >= 6 && cmd[0] == program && cmd[1] == "--timeout" && cmd[3] == "--nopreview" && cmd[4] == "-o"
       && ParseDecimal(cmd[2]).Some?
    then Some((cmd[5], ParseDecimal(cmd[2]).value, cmd[6..]))
    else None
  }

  /** Reads an optional autofocus mode back: absent, or present with a known value. */
  function ParseModeArg(v: Option<string>): Option<Option<AfMode>> {
    if v.None? then Some(None)
    else if ParseAfMode(v.value).Some? then Some(ParseAfMode(v.value))
    else None
  }

  function ParseRangeArg(v: Option<string>): Option<Option<AfRange>> {
    if v.None? then Some(None)
    else if ParseAfRange(v.value).Some? then Some(ParseAfRange(v.value))
    else None
  }

  function ParseSpeedArg(v: Option<string>): Option<Option<AfSpeed>> {
    if v.None? then Some(None)
    else if ParseAfSpeed(v.value).Some? then Some(ParseAfSpeed(v.value))
    else None
  }

  /**
   * Recovers the output path and the options from an `rpicam-still` argument list;
   * `None` when the list is not one `PhotoArgs` builds.
   */
  function ParsePhotoArgs(cmd: seq<string>): Option<(string, PhotoOptions)> {
    var head := ParseHead(cmd, "rpicam-still");
    if head.None? then None
    else
      var (out, timeout, rest) := head.value;
      var o := ParsePhotoFlags(rest, timeout);
      if o.Some? then Some((out, o.value)) else None
  }

  /** Reads the optional photo flags back, in the order `PhotoArgs` writes them. */
  function ParsePhotoFlags(r0: seq<string>, timeout: int): Option<PhotoOptions> {
    var (hflip, r1) := TakeSwitch(r0, "--hflip");
    var (vflip, r2) := TakeSwitch(r1, "--vflip");
    var (mode, r3) := TakeValued(r2, "--autofocus-mode");
    var (range, r4) := TakeValued(r3, "--autofocus-range");
    var (speed, r5) := TakeValued(r4, "--autofocus-speed");
    var (onCapture, r6) := TakeSwitch(r5, "--autofocus-on-capture");
    var (lens, r7) := TakeValued(r6, "--lens-position");
    var m, rg, sp := ParseModeArg(mode), ParseRangeArg(range), ParseSpeedArg(speed);
    if r7 == [] && m.Some? && rg.Some? && sp.Some?
    then Some(PhotoOptions(timeout, hflip, vflip, m.value, rg.value, sp.value, onCapture, lens))
    else None
  }

  /** The optional part of the photo argument list, grouped from the right. */
  function PhotoFlags(o: PhotoOptions): seq<string> {
    Switch(o.hflip, "--hflip") +
    (Switch(o.vflip, "--vflip") +
    (Valued(ModeArg(o.afMode), "--autofocus-mode") +
    (Valued(RangeArg(o.afRange), "--autofocus-range") +
    (Valued(SpeedArg(o.afSpeed), "--autofocus-speed") +
    (Switch(o.afOnCapture, "--autofocus-on-capture") +
    (Valued(o.lensPosition, "--lens-position") + []))))))
  }

  /** Concatenation regrouped. */
  lemma Regroup(a: seq<string>, b: seq<string>, c: seq<string>)
    ensures (a + b) + c == a + (b + c)
  {
  }

  /** `rest` is empty or starts with one of `flags`. */
  predicate HeadAmong(rest: seq<string>, flags: set<string>) {
    rest == [] || rest[0] in flags
  }

  /** A switch in front of a tail that starts with other flags is read back and consumed. */
  lemma {:induction false} TakeSwitchOf(on: bool, flag: string, rest: seq<string>, later: set<string>)
    requires HeadAmong(rest, later) && flag !in later
    ensures TakeSwitch(Switch(on, flag) + rest, flag) == (on, rest)
    ensures HeadAmong(Switch(on, flag) + rest, later + {flag})
  {
    if on {
      assert (Switch(on, flag) + rest)[1..] == rest;
    } else {
      assert Switch(on, flag) + rest == rest;
    }
  }

  /** A valued flag in front of a tail that starts with other flags is read back and consumed. */
  lemma {:induction false} TakeValuedOf(value: Option<string>, flag: string, rest: seq<string>, later: set<string>)
    requires HeadAmong(rest, later) && flag !in later
    ensures TakeValued(Valued(value, flag) + rest, flag) == (value, rest)
    ensures HeadAmong(Valued(value, flag) + rest, later + {flag})
  {
    if value.Some? {
      assert (Valued(value, flag) + rest)[2..] == rest;
    } else {
      assert Valued(value, flag) + rest == rest;
    }
  }

  /** The autofocus choices read back as what was written. */
  lemma {:induction false} AfChoicesRoundTrip(m: Option<AfMode>, r: Option<AfRange>, s: Option<AfSpeed>)
    ensures ParseModeArg(ModeArg(m)) == Some(m)
    ensures ParseRangeArg(RangeArg(r)) == Some(r)
    ensures ParseSpeedArg(SpeedArg(s)) == Some(s)
  {
  }

  /** The head of a capture command reads back as its output path and timeout. */
  lemma {:induction false} ParseHeadOf(program: string, timeoutMs: int, out: string, rest: seq<string>)
    ensures ParseHead(CommandHead(program, timeoutMs, out) + rest, program) == Some((out, timeoutMs, rest))
  {
    var cmd := CommandHead(program, timeoutMs, out) + rest;
    DecimalRoundTrip(timeoutMs);
    assert cmd[6..] == rest;
    assert cmd[2] == IntToDecimal(timeoutMs);
  }

  /** The photo argument list is its head followed by its optional flags. */
  lemma {:induction false} PhotoArgsSplit(out: string, o: PhotoOptions)
    ensures PhotoArgs(out, o) == CommandHead("rpicam-still", o.timeoutMs, out) + PhotoFlags(o)
  {
    var mode, range, speed := ModeArg(o.afMode), RangeArg(o.afRange), SpeedArg(o.afSpeed);
    var r7: seq<string> := [];
    var r6 := Valued(o.lensPosition, "--lens-position") + r7;
    var r5 := Switch(o.afOnCapture, "--autofocus-on-capture") + r6;
    var r4 := Valued(speed, "--autofocus-speed") + r5;
    var r3 := Valued(range, "--autofocus-range") + r4;
    var r2 := Valued(mode, "--autofocus-mode") + r3;
    var r1 := Switch(o.vflip, "--vflip") + r2;
    var head := CommandHead("rpicam-still", o.timeoutMs, out);
    var x1 := head + Switch(o.hflip, "--hflip");
    var x2 := x1 + Switch(o.vflip, "--vflip");
    var x3 := x2 + Valued(mode, "--autofocus-mode");
    var x4 := x3 + Valued(range, "--autofocus-range");
    var x5 := x4 + Valued(speed, "--autofocus-speed");
    var x6 := x5 + Switch(o.afOnCapture, "--autofocus-on-capture");
    var x7 := x6 + Valued(o.lensPosition, "--lens-position");
    assert x7 == PhotoArgs(out, o);
    assert x7 + r7 == x7;
    Regroup(x6, Valued(o.lensPosition, "--lens-position"), r7);
    Regroup(x5, Switch(o.afOnCapture, "--autofocus-on-capture"), r6);
    Regroup(x4, Valued(speed, "--autofocus-speed"), r5);
    Regroup(x3, Valued(range, "--autofocus-range"), r4);
    Regroup(x2, Valued(mode, "--autofocus-mode"), r3);
    Regroup(x1, Switch(o.vflip, "--vflip"), r2);
    Regroup(head, Switch(o.hflip, "--hflip"), r1);
  }

  /** The optional photo flags read back as the options they were written from. */
  lemma {:induction false} PhotoFlagsRoundTrip(o: PhotoOptions)
    ensures ParsePhotoFlags(PhotoFlags(o), o.timeoutMs) == Some(o)
  {
    var mode, range, speed := ModeArg(o.afMode), RangeArg(o.afRange), SpeedArg(o.afSpeed);
    var r7: seq<string> := [];
    var r6 := Valued(o.lensPosition, "--lens-position") + r7;
    var r5 := Switch(o.afOnCapture, "--autofocus-on-capture") + r6;
    var r4 := Valued(speed, "--autofocus-speed") + r5;
    var r3 := Valued(range, "--autofocus-range") + r4;
    var r2 := Valued(mode, "--autofocus-mode") + r3;
    var r1 := Switch(o.vflip, "--vflip") + r2;
    var r0 := Switch(o.hflip, "--hflip") + r1;
    assert r0 == PhotoFlags(o);
    TakeValuedOf(o.lensPosition, "--lens-position", r7, {});
    var l6 := {"--lens-position"};
    TakeSwitchOf(o.afOnCapture, "--autofocus-on-capture", r6, l6);
    var l5 := l6 + {"--autofocus-on-capture"};
    TakeValuedOf(speed, "--autofocus-speed", r5, l5);
    var l4 := l5 + {"--autofocus-speed"};
    assert "--autofocus-range"[12] != "--autofocus-speed"[12];
    TakeValuedOf(range, "--autofocus-range", r4, l4);
    var l3 := l4 + {"--autofocus-range"};
    TakeValuedOf(mode, "--autofocus-mode", r3, l3);
    var l2 := l3 + {"--autofocus-mode"};
    TakeSwitchOf(o.vflip, "--vflip", r2, l2);
    var l1 := l2 + {"--vflip"};
    assert "--hflip"[2] != "--vflip"[2];
    TakeSwitchOf(o.hflip, "--hflip", r1, l1);
    AfChoicesRoundTrip(o.afMode, o.afRange, o.afSpeed);
  }

  /**
   * Every photo argument list reads back as the output path and options it was
   * built from, so no two different requests give the same command line and every
   * option that is set appears in it.
   */
  lemma {:induction false} PhotoArgsRoundTrip(out: string, o: PhotoOptions)
    ensures ParsePhotoArgs(PhotoArgs(out, o)) == Some((out, o))
  {
    PhotoArgsSplit(out, o);
    ParseHeadOf("rpicam-still", o.timeoutMs, out, PhotoFlags(o));
    PhotoFlagsRoundTrip(o);
  }

  /** `timeout_ms = 0 if duration_s <= 0 else int(duration_s * 1000)`: 0 means record until interrupted. */
  function VideoTimeoutMs(durationS: real): int {
    if durationS <= 0.0 then 0 else (durationS * 1000.0).Floor
  }

  /**
   * A duration of 0 or less gives timeout 0; a positive one gives its length in whole
   * milliseconds, rounded down. So a positive duration under one millisecond also
   * gives 0, which `rpicam-vid` reads as "until interrupted".
   */
  lemma VideoTimeoutFacts(durationS: real)
    ensures durationS <= 0.0 ==> VideoTimeoutMs(durationS) == 0
    ensures durationS > 0.0 ==>
      (VideoTimeoutMs(durationS) >= 0 &&
       (VideoTimeoutMs(durationS) as real) <= durationS * 1000.0 < (VideoTimeoutMs(durationS) as real) + 1.0)
    ensures durationS >= 0.001 ==> VideoTimeoutMs(durationS) >= 1
    ensures 0.0 < durationS < 0.001 ==> VideoTimeoutMs(durationS) == 0
  {
  }

  /** The video options. */
  datatype VideoOptions = VideoOptions(durationS: real, hflip: bool, vflip: bool)

  /** The `rpicam-vid` argument list: the fixed head, then hflip and vflip, each only when set. */
  function VideoArgs(out: string, o: VideoOptions): seq<string> {
    CommandHead("rpicam-vid", VideoTimeoutMs(o.durationS), out)
    + Switch(o.hflip, "--hflip")
    + Switch(o.vflip, "--vflip")
  }

  /** The argument-list building of `cmd_video`. */
  method VideoCommand(out: string, o: VideoOptions) returns (cmd: seq<string>)
    ensures cmd == VideoArgs(out, o)
  {
    var timeoutMs := VideoTimeoutMs(o.durationS);
    cmd := ["rpicam-vid", "--timeout", IntToDecimal(timeoutMs), "--nopreview", "-o", out];
    if o.hflip {
      cmd := cmd + ["--hflip"];
    }
    ghost var flips := cmd;
    if o.vflip {
      cmd := cmd + ["--vflip"];
    }
    assert cmd == flips + Switch(o.vflip, "--vflip");
  }

  /** Recovers the output path, the timeout and the flips from an `rpicam-vid` argument list. */
  function ParseVideoArgs(cmd: seq<string>): Option<(string, int, bool, bool)> {
    var head := ParseHead(cmd, "rpicam-vid");
    if head.None? then None
    else
      var (out, timeout, r0) := head.value;
      var (hflip, r1) := TakeSwitch(r0, "--hflip");
      var (vflip, r2) := TakeSwitch(r1, "--vflip");
      if r2 == [] then Some((out, timeout, hflip, vflip)) else None
  }

  /** Every video argument list reads back as its output path, timeout and flips. */
  lemma {:induction false} VideoArgsRoundTrip(out: string, o: VideoOptions)
    ensures ParseVideoArgs(VideoArgs(out, o)) == Some((out, VideoTimeoutMs(o.durationS), o.hflip, o.vflip))
  {
    var r2: seq<string> := [];
    var r1 := Switch(o.vflip, "--vflip") + r2;
    var r0 := Switch(o.hflip, "--hflip") + r1;
    var head := CommandHead("rpicam-vid", VideoTimeoutMs(o.durationS), out);
    var x1 := head + Switch(o.hflip, "--hflip");
    var x2 := x1 + Switch(o.vflip, "--vflip");
    assert x2 + r2 == x2;
    Regroup(x1, Switch(o.vflip, "--vflip"), r2);
    Regroup(head, Switch(o.hflip, "--hflip"), r1);
    assert VideoArgs(out, o) == head + r0;
    ParseHeadOf("rpicam-vid", VideoTimeoutMs(o.durationS), out, r0);
    TakeSwitchOf(o.vflip, "--vflip", r2, {});
    assert "--hflip"[2] != "--vflip"[2];
    TakeSwitchOf(o.hflip, "--hflip", r1, {"--vflip"});
  }

  /**
   * `os.path.dirname(out)` is empty exactly when the path has no `/`; `os.makedirs('')`
   * then raises, so a bare file name can never be written.
   */
  predicate HasDirectoryPart(out: string) {
    '/' in out
  }

  /**
   * How a capture command ends: the path of the file written, the `RuntimeError` of
   * `run_rpicam`, or the `OSError` of `os.makedirs` for the output's directory, raised
   * before the camera runs.
   */
  datatype CaptureResult = Saved(path: string) | Error(error: CaptureError) | NoDirectory(path: string)

  /**
   * The result of a capture into `out`. `dirOk` says whether the directory named in
   * `out` exists or can be created; the process finished as `proc` when it ran.
   */
  function CaptureOutcome(out: string, dirOk: bool, proc: ProcessResult, psListing: string): (r: CaptureResult)
    ensures r.NoDirectory? <==> !(dirOk && HasDirectoryPart(out))
    ensures r.Saved? <==> dirOk && HasDirectoryPart(out) && proc.exitCode == 0
    ensures r.Error? ==> r.error == RunRpicam(proc, psListing).value
    ensures r.Saved? || r.NoDirectory? ==> r.path == out
  {
    if !(dirOk && HasDirectoryPart(out)) then NoDirectory(out)
    else match RunRpicam(proc, psListing)
      case None => Saved(out)
      case Some(e) => Error(e)
  }

  /** An output given as a bare file name fails at `os.makedirs`, whatever the camera would do. */
  lemma BareFileNameFails(fallback: string, dirOk: bool, proc: ProcessResult, psListing: string)
    ensures CaptureOutcome(ResolveOutput(Some("shot.jpg"), fallback), dirOk, proc, psListing)
      == NoDirectory("shot.jpg")
  {
    assert ResolveOutput(Some("shot.jpg"), fallback) == "shot.jpg";
    assert forall i :: 0 <= i < |"shot.jpg"| ==> "shot.jpg"[i] != '/';
  }

  /**
   * `cmd_photo(args)`: resolve the output path (`fallback` is the timestamped default
   * under ~/Pictures), create its directory, build the `rpicam-still` command, run it
   * and classify how it ended. No command is built when the directory step raises.
   */
  method CmdPhoto(output: Option<string>, fallback: string, dirOk: bool, o: PhotoOptions,
                  proc: ProcessResult, psListing: string)
    returns (cmd: seq<string>, result: CaptureResult)
    ensures var out := ResolveOutput(output, fallback);
      && result == CaptureOutcome(out, dirOk, proc, psListing)
      && (result.NoDirectory? ==> cmd == [])
      && (!result.NoDirectory? ==> cmd == PhotoArgs(out, o) && ParsePhotoArgs(cmd) == Some((out, o)))
  {
    var out := ResolveOutput(output, fallback);
    if !(dirOk && '/' in out) {
      return [], NoDirectory(out);
    }
    cmd := PhotoCommand(out, o);
    PhotoArgsRoundTrip(out, o);
    var failure := RunRpicam(proc, psListing);
    result := if failure.Some? then Error(failure.value) else Saved(out);
  }

  /**
   * `cmd_video(args)`: resolve the output path (`fallback` is the timestamped default
   * under ~/Videos), create its directory, build the `rpicam-vid` command, run it and
   * classify how it ended. No command is built when the directory step raises.
   */
  method CmdVideo(output: Option<string>, fallback: string, dirOk: bool, o: VideoOptions,
                  proc: ProcessResult, psListing: string)
    returns (cmd: seq<string>, result: CaptureResult)
    ensures var out := ResolveOutput(output, fallback);
      && result == CaptureOutcome(out, dirOk, proc, psListing)
      && (result.NoDirectory? ==> cmd == [])
      && (!result.NoDirectory? ==>
            cmd == VideoArgs(out, o) &&
            ParseVideoArgs(cmd) == Some((out, VideoTimeoutMs(o.durationS), o.hflip, o.vflip)))
  {
    var out := ResolveOutput(output, fallback);
    if !(dirOk && '/' in out) {
      return [], NoDirectory(out);
    }
    cmd := VideoCommand(out, o);
    VideoArgsRoundTrip(out, o);
    var failure := RunRpicam(proc, psListing);
    result := if failure.Some? then Error(failure.value) else Saved(out);
  }
}
