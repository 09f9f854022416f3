/** The recorder service: one ffmpeg process grabbing an X display and a
    PulseAudio monitor source, encoding to H.264/AAC in FLV and pushing it to a
    target. The process itself is left out; the model keeps the command that
    would be spawned, whether the process was killed, and the events relayed
    to the recorder's listeners. */
module Capture {
  import opened Types
  import opened Text

  datatype RecorderOptions = RecorderOptions(
    screenSize: ScreenSize,
    virtualDisplayId: nat,
    fps: nat,
    maxRate: string,
    bufSize: string,
    target: Option<string>,
    sinkName: string)

  /** The constructor argument; None is an absent field. */
  datatype RecorderOverrides = RecorderOverrides(
    screenSize: Option<ScreenSize>,
    virtualDisplayId: Option<nat>,
    fps: Option<nat>,
    maxRate: Option<string>,
    bufSize: Option<string>,
    target: Option<string>,
    sinkName: Option<string>)

  const DefaultRecorderOptions: RecorderOptions :=
    RecorderOptions(DefaultScreenSize, DefaultDisplayId, DefaultFps, "8000k", "24000k", None, DefaultSinkName)

  /** `Object.assign({}, this.options, options)`: a supplied field wins, an
      absent one keeps its default. */
  function WithRecorderDefaults(o: RecorderOverrides): RecorderOptions
  {
    var d := DefaultRecorderOptions;
    RecorderOptions(
      o.screenSize.GetOr(d.screenSize), o.virtualDisplayId.GetOr(d.virtualDisplayId), o.fps.GetOr(d.fps),
      o.maxRate.GetOr(d.maxRate), o.bufSize.GetOr(d.bufSize), o.target, o.sinkName.GetOr(d.sinkName))
  }

  /** The argument that supplies every field of `m`. */
  function AllRecorderFields(m: RecorderOptions): RecorderOverrides {
    RecorderOverrides(Some(m.screenSize), Some(m.virtualDisplayId), Some(m.fps), Some(m.maxRate),
                      Some(m.bufSize), m.target, Some(m.sinkName))
  }

  /** Supplied fields win over the defaults, and an empty argument gives the
      defaults: 1280x720 on display 99 at 21 fps, 8000k/24000k, no target,
      sink "roll20Sink". */
  lemma RecorderDefaultsMerge(m: RecorderOptions)
    ensures WithRecorderDefaults(AllRecorderFields(m)) == m
    ensures var e := WithRecorderDefaults(RecorderOverrides(None, None, None, None, None, None, None));
      && e.screenSize == ScreenSize(1280, 720) && e.virtualDisplayId == 99 && e.fps == 21
      && e.maxRate == "8000k" && e.bufSize == "24000k" && e.target == None && e.sinkName == "roll20Sink"
  {
  }

  const MonitorSuffix: string := ".monitor"

  /** The PulseAudio source recorded: the monitor of the sink, except that the
      name "default" is kept as it is. */
  function SinkMonitor(sinkName: string): string {
    if sinkName != "default" then sinkName + MonitorSuffix else sinkName
  }

  /** The sink a monitor source listens to: the partner of SinkMonitor. */
  function MonitoredSink(source: string): string {
    if source == "default" || |source| < |MonitorSuffix| then source
    else source[..|source| - |MonitorSuffix|]
  }

  lemma SinkMonitorInverse(sinkName: string)
    ensures MonitoredSink(SinkMonitor(sinkName)) == sinkName
    ensures sinkName != "default" ==> SinkMonitor(sinkName) != "default"
  {
    if sinkName != "default" {
      var m := sinkName + MonitorSuffix;
      assert |m| > |"default"|;
      assert m[..|m| - |MonitorSuffix|] == sinkName;
    }
  }

  /** Distinct sinks are recorded from distinct sources. */
  lemma SinkMonitorInjective(a: string, b: string)
    requires SinkMonitor(a) == SinkMonitor(b)
    ensures a == b
  {
    SinkMonitorInverse(a);
    SinkMonitorInverse(b);
  }

  /** One `.input(...)` of the ffmpeg command with its input options and format. */
  datatype FfmpegInput = FfmpegInput(source: string, options: seq<string>, format: string)

  datatype FfmpegCommand = FfmpegCommand(
    inputs: seq<FfmpegInput>, outputOptions: seq<string>, format: string, target: Option<string>)

  /** The x11grab source `:<display>.0+0,0`: screen 0 of the display, from its top-left corner. */
  function VideoInput(displayId: nat): string {
    ":" + NatToString(displayId) + ".0+0,0"
  }

  /** The display number inside a VideoInput source. */
  function DisplayOf(source: string): string
    requires |source| >= 7
  {
    source[1..|source| - 6]
  }

  lemma VideoInputDisplay(displayId: nat)
    ensures |VideoInput(displayId)| >= 7
    ensures AllDigits(DisplayOf(VideoInput(displayId)))
    ensures ParseNat(DisplayOf(VideoInput(displayId))) == displayId
  {
    NatToStringDigits(displayId);
    var s := VideoInput(displayId);
    assert DisplayOf(s) == NatToString(displayId);
    ParseNatToString(displayId);
  }

  /** `-g <fps * 2>`: a keyframe every two seconds of video. */
  function GopOption(fps: nat): string {
    "-g " + NatToString(fps * 2)
  }

  lemma GopIsTwoSeconds(fps: nat)
    ensures AllDigits(GopOption(fps)[3..])
    ensures ParseNat(GopOption(fps)[3..]) == 2 * fps
  {
    assert GopOption(fps)[3..] == NatToString(fps * 2);
    ParseNatToString(fps * 2);
  }

  /** The command `startRecording` builds, in the order the options are added. */
  function RecordingCommand(o: RecorderOptions, monitor: string): FfmpegCommand {
    FfmpegCommand(
      [FfmpegInput(VideoInput(o.virtualDisplayId),
                   ["-s " + NatToString(o.screenSize.width) + "x" + NatToString(o.screenSize.height),
                    "-draw_mouse 0",
                    "-framerate " + NatToString(o.fps)],
                   "x11grab"),
       FfmpegInput(monitor, [], "pulse")],
      ["-b:v 1984k", "-ac 2", "-b:a 128k", "-c:a aac", "-ar 44100", GopOption(o.fps),
       "-c:v libx264", "-vf format=yuv420p", "-maxrate " + o.maxRate, "-bufsize " + o.bufSize,
       "-preset ultrafast"],
      "flv",
      o.target)
  }

  /** The command grabs the configured display and sink, at the configured
      frame rate, with a two-second GOP, and saves to the configured target. */
  lemma RecordingCommandFollowsOptions(o: RecorderOptions)
    ensures var c := RecordingCommand(o, SinkMonitor(o.sinkName));
      && |c.inputs| == 2
      && |c.inputs[0].source| >= 7
      && AllDigits(DisplayOf(c.inputs[0].source))
      && ParseNat(DisplayOf(c.inputs[0].source)) == o.virtualDisplayId
      && c.inputs[0].format == "x11grab"
      && MonitoredSink(c.inputs[1].source) == o.sinkName
      && c.inputs[1].format == "pulse"
      && c.outputOptions[5] == GopOption(o.fps)
      && AllDigits(c.outputOptions[5][3..])
      && ParseNat(c.outputOptions[5][3..]) == 2 * o.fps
      && c.format == "flv"
      && c.target == o.target
  {
    VideoInputDisplay(o.virtualDisplayId);
    GopIsTwoSeconds(o.fps);
    SinkMonitorInverse(o.sinkName);
  }

  /** A spawned ffmpeg process and whether it has been sent SIGKILL. */
  datatype FfmpegProcess = FfmpegProcess(command: FfmpegCommand, killed: bool)

  /** What the recorder re-emits to its own listeners. */
  datatype RecorderEvent =
    | Started(commandLine: string)
    | Progress
    | Stderr(line: string)
    | Ended

  class Recorder {
    const options: RecorderOptions
    const sinkMonitor: string
    var isKilledOnPurpose: bool
    /** The `recordingProcess` field: None until the first startRecording. */
    var recordingProcess: Option<FfmpegProcess>
    var startDate: Option<AccurateTime>
    /** Events emitted by the recorder, oldest first. */
    var emitted: seq<RecorderEvent>

    ghost predicate Valid()
      reads this
    {
      sinkMonitor == SinkMonitor(options.sinkName)
    }

    constructor (o: RecorderOverrides)
      ensures Valid()
      ensures options == WithRecorderDefaults(o)
      ensures !isKilledOnPurpose && recordingProcess == None && startDate == None && emitted == []
    {
      options := WithRecorderDefaults(o);
      sinkMonitor := SinkMonitor(WithRecorderDefaults(o).sinkName);
      isKilledOnPurpose := false;
      recordingProcess := None;
      startDate := None;
      emitted := [];
    }

    /** Builds the command, keeps it as the current process, then saves to the
        target; `saveThrows` is ffmpeg raising synchronously from `save`, after
        the process field was already assigned. */
    method StartRecording(saveThrows: bool) returns (r: Outcome)
      modifies this`recordingProcess
      ensures recordingProcess == Some(FfmpegProcess(RecordingCommand(options, sinkMonitor), false))
      ensures r.Fail? <==> saveThrows
      ensures r.Fail? ==> r.error == FfmpegError
    {
      recordingProcess := Some(FfmpegProcess(RecordingCommand(options, sinkMonitor), false));
      if saveThrows {
        return Fail(FfmpegError);
      }
      return Pass;
    }

    /** Marks the coming exit error as intended, kills the process and hands
        back the start date. With no process ever started, the kill reads a
        property of `undefined` and throws a TypeError. */
    method StopRecording() returns (r: Result<Option<AccurateTime>>)
      modifies this`isKilledOnPurpose, this`recordingProcess
      ensures isKilledOnPurpose
      ensures old(recordingProcess).None? ==> r == Failure(TypeError) && recordingProcess == None
      ensures old(recordingProcess).Some? ==>
        r == Success(startDate) && recordingProcess == Some(old(recordingProcess).value.(killed := true))
    {
      isKilledOnPurpose := true;
      if recordingProcess.None? {
        return Failure(TypeError);
      }
      recordingProcess := Some(recordingProcess.value.(killed := true));
      return Success(startDate);
    }

    /** The process's "start" event: the start time is taken (`hrtime()`,
        passed in) and the command line is re-emitted. */
    method OnStart(commandLine: string, now: AccurateTime)
      requires recordingProcess.Some?
      modifies this`startDate, this`emitted
      ensures startDate == Some(now)
      ensures emitted == old(emitted) + [Started(commandLine)]
    {
      startDate := Some(now);
      emitted := emitted + [Started(commandLine)];
    }

    /** The "progress", "stderr" and "end" events, re-emitted as they come. */
    method OnRelayed(e: RecorderEvent)
      requires recordingProcess.Some?
      requires e.Progress? || e.Stderr? || e.Ended?
      modifies this`emitted
      ensures emitted == old(emitted) + [e]
    {
      emitted := emitted + [e];
    }

    /** The process's "error" event: passed on unless the recorder killed the
        process itself, in which case that one error is swallowed and the flag
        is cleared. Nothing listens for the recorder's own "error" event, so
        passing it on reaches no listener: Node throws the error out of the
        handler instead, which ends the service. That is the `Fail` outcome. */
    method OnError(message: string) returns (r: Outcome)
      requires recordingProcess.Some?
      modifies this`isKilledOnPurpose
      ensures r == (if old(isKilledOnPurpose) then Pass else Fail(UnhandledErrorEvent))
      ensures !isKilledOnPurpose
    {
      if !isKilledOnPurpose {
        return Fail(UnhandledErrorEvent);
      }
      isKilledOnPurpose := false;
      return Pass;
    }
  }

  /** An intentional kill swallows exactly the error it causes: the next error
      of the same recorder is passed on again, and ends the service. */
  method ErrorMaskedOncePerKill(rec: Recorder) returns (first: Outcome, second: Outcome)
    requires rec.recordingProcess.Some?
    modifies rec
    ensures first == Pass && second == Fail(UnhandledErrorEvent)
    ensures rec.emitted == old(rec.emitted)
  {
    var _ := rec.StopRecording();
    first := rec.OnError("ffmpeg was killed with signal SIGKILL");
    second := rec.OnError("crash");
  }
}
