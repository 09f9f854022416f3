/** The Roll20 client: the component that owns one virtual screen, one
    recorder and one manipulator, rebuilds them whenever its options are set,
    and serialises starting and stopping a stream behind a mutex. Every call
    it makes into its services is appended to `calls`, so that the order of
    those calls can be stated. */
module Client {
  import opened Types
  import opened ManipulatorSpec
  import opened Screen
  import opened Capture
  import opened Manipulator

  datatype ClientOptions = ClientOptions(
    screenSize: ScreenSize,
    fps: nat,
    target: Option<string>,
    roll20Account: Option<Account>,
    displayId: nat,
    headless: bool,
    sinkName: string,
    customPayloadUrl: Option<string>)

  /** The argument of the options setter: target and account are required by
      its type, the rest may be absent (None). */
  datatype ClientOptionsUpdate = ClientOptionsUpdate(
    screenSize: Option<ScreenSize>,
    fps: Option<nat>,
    target: string,
    roll20Account: Account,
    displayId: Option<nat>,
    headless: Option<bool>,
    sinkName: Option<string>,
    customPayloadUrl: Option<string>)

  /** The initial `_options`: no target and no account yet, display 99, headless. */
  const DefaultClientOptions: ClientOptions :=
    ClientOptions(DefaultScreenSize, DefaultFps, None, None, DefaultDisplayId, true, DefaultSinkName, None)

  /** `Object.assign({}, this.options, clientOptions)`. */
  function Overlay(o: ClientOptions, u: ClientOptionsUpdate): ClientOptions {
    ClientOptions(
      u.screenSize.GetOr(o.screenSize), u.fps.GetOr(o.fps), Some(u.target), Some(u.roll20Account),
      u.displayId.GetOr(o.displayId), u.headless.GetOr(o.headless), u.sinkName.GetOr(o.sinkName),
      if u.customPayloadUrl.Some? then u.customPayloadUrl else o.customPayloadUrl)
  }

  /** One update carrying the fields of `second`, and those of `first` that
      `second` leaves absent. */
  function Then(first: ClientOptionsUpdate, second: ClientOptionsUpdate): ClientOptionsUpdate {
    ClientOptionsUpdate(
      if second.screenSize.Some? then second.screenSize else first.screenSize,
      if second.fps.Some? then second.fps else first.fps,
      second.target, second.roll20Account,
      if second.displayId.Some? then second.displayId else first.displayId,
      if second.headless.Some? then second.headless else first.headless,
      if second.sinkName.Some? then second.sinkName else first.sinkName,
      if second.customPayloadUrl.Some? then second.customPayloadUrl else first.customPayloadUrl)
  }

  /** Setting options accumulates: two updates in a row are one combined
      update, and repeating an update changes nothing. Every update leaves a
      target and an account in place. */
  lemma OverlayAccumulates(o: ClientOptions, first: ClientOptionsUpdate, second: ClientOptionsUpdate)
    ensures Overlay(Overlay(o, first), second) == Overlay(o, Then(first, second))
    ensures Overlay(Overlay(o, first), first) == Overlay(o, first)
    ensures Overlay(o, first).target == Some(first.target)
    ensures Overlay(o, first).roll20Account == Some(first.roll20Account)
  {
  }

  /** The arguments the setter hands to the three service constructors. */
  function RecorderOverridesFor(o: ClientOptions): RecorderOverrides {
    RecorderOverrides(Some(o.screenSize), Some(o.displayId), Some(o.fps), None, None, o.target, Some(o.sinkName))
  }

  function ManipulatorOverridesFor(o: ClientOptions): ManipulatorOverrides {
    ManipulatorOverrides(Some(o.screenSize), Some(o.displayId), None, None, None, Some(o.headless),
                         Some(o.sinkName), None, o.customPayloadUrl)
  }

  function ScreenOverridesFor(o: ClientOptions): ScreenOverrides {
    ScreenOverrides(Some(o.screenSize), Some(o.displayId))
  }

  /** The three services share the client's display, screen size and sink:
      the browser shows on the display the recorder grabs and the screen
      serves, and plays into the sink the recorder listens to. */
  lemma ServicesAgree(o: ClientOptions)
    ensures var rec := WithRecorderDefaults(RecorderOverridesFor(o));
            var man := WithManipulatorDefaults(ManipulatorOverridesFor(o));
            var scr := WithScreenDefaults(ScreenOverridesFor(o));
      && rec.virtualDisplayId == man.virtualDisplayId == scr.screenId == o.displayId
      && rec.screenSize == man.screenSize == scr.screenSize == o.screenSize
      && rec.sinkName == man.sinkName == o.sinkName
      && rec.fps == o.fps && rec.target == o.target && man.headless == o.headless
      && man.loginPage == LoginPage && rec.maxRate == "8000k" && rec.bufSize == "24000k"
  {
  }

  /** What the collaborators do, as oracles: how far a browser launch gets,
      the site, whether ffmpeg's `save` throws, whether the display is free. */
  datatype Env = Env(launch: LaunchStep, site: Site, ffmpegSaveThrows: bool, screenFree: bool)

  /** A call from the client into one of its services. */
  datatype Call =
    | ScreenStart
    | ManipulatorInitialize
    | ManipulatorLogin
    | ManipulatorJoin(gameUrl: string)
    | ManipulatorSetup
    | ManipulatorCoverArea(area: BoundingBox)
    | RecorderStart
    | RecorderStop

  lemma AppendAssociative<T>(a: seq<T>, b: seq<T>, c: seq<T>)
    ensures (a + b) + c == a + (b + c)
  {
  }

  /** The calls of one `startStreamingGame`: stop a running recording first;
      if that stop throws, nothing else. Then join, and only once joined
      record, and only once recording, request the stream settings. */
  function StartCalls(wasRecording: bool, stopFails: bool, joinFails: bool, saveThrows: bool, gameUrl: string): seq<Call> {
    if wasRecording && stopFails then [RecorderStop]
    else (if wasRecording then [RecorderStop] else []) + BeginCalls(joinFails, saveThrows, gameUrl)
  }

  /** The calls once nothing is recording any more: join, and only once joined
      record, and only once recording, request the stream settings. */
  function BeginCalls(joinFails: bool, saveThrows: bool, gameUrl: string): seq<Call> {
    [ManipulatorJoin(gameUrl)] + (if joinFails then [] else RecordCalls(saveThrows))
  }

  /** The calls once joined: record, and only once recording, request the
      stream settings. */
  function RecordCalls(saveThrows: bool): seq<Call> {
    if saveThrows then [RecorderStart] else [RecorderStart, ManipulatorSetup]
  }

  /** Starting over a running recording stops it exactly once, and before anything else. */
  lemma RestartStopsOnceFirst(stopFails: bool, joinFails: bool, saveThrows: bool, gameUrl: string)
    ensures var t := StartCalls(true, stopFails, joinFails, saveThrows, gameUrl);
      |t| >= 1 && t[0] == RecorderStop && forall i :: 0 < i < |t| ==> t[i] != RecorderStop
  {
  }

  /** Starting from idle stops nothing and joins first. */
  lemma FreshStartJoinsFirst(joinFails: bool, saveThrows: bool, gameUrl: string)
    ensures var t := StartCalls(false, false, joinFails, saveThrows, gameUrl);
      |t| >= 1 && t[0] == ManipulatorJoin(gameUrl) && RecorderStop !in t
  {
  }

  /** Recording begins only after the join, and the stream settings only
      after recording began. */
  lemma RecordingFollowsJoin(wasRecording: bool, stopFails: bool, joinFails: bool, saveThrows: bool, gameUrl: string)
    ensures var t := StartCalls(wasRecording, stopFails, joinFails, saveThrows, gameUrl);
      && (forall i :: 0 <= i < |t| && t[i] == RecorderStart ==> 0 < i && t[i - 1] == ManipulatorJoin(gameUrl))
      && (forall i :: 0 <= i < |t| && t[i] == ManipulatorSetup ==> 0 < i && t[i - 1] == RecorderStart)
      && (RecorderStart in t <==> !(wasRecording && stopFails) && !joinFails)
  {
  }

  /** The calls of `initialize`: start the screen, launch the browser, and log
      in once the browser is up. */
  function InitializeCalls(launch: LaunchStep): seq<Call> {
    [ScreenStart, ManipulatorInitialize] + (if launch == Ready then [ManipulatorLogin] else [])
  }

  /** The manipulator after `initialize`: one more launch, then a login once
      the browser is up. */
  function Initialized(b: Browser, launch: LaunchStep, site: Site, loginPage: string, account: Option<Account>): Browser {
    var up := Launched(b, launch);
    if launch != Ready then up else LoggedIn(up, site, loginPage, account)
  }

  /** The manipulator after a recording was begun: the join, then one more
      request for the stream settings when the recorder started. */
  function JoinedAndSetUp(b: Browser, gameUrl: string, env: Env, loginPage: string, account: Option<Account>,
                          setUp: bool): Browser
  {
    var joined := Joined(b, gameUrl, env.launch, env.site, loginPage, account);
    if setUp then joined.(setupRequests := joined.setupRequests + 1) else joined
  }

  class Roll20Client {
    var options: ClientOptions
    var isRecording: bool
    /** The recording mutex is held. */
    var locked: bool
    var recorder: Recorder
    var manipulator: Roll20Manipulator
    var screen: VirtualScreen
    /** Calls into the services, oldest first. */
    var calls: seq<Call>

    /** Between calls the mutex is free and the services keep their own invariants. */
    ghost predicate Valid()
      reads this, recorder, manipulator
    {
      !locked && recorder.Valid() && manipulator.Valid()
    }

    /** The two services the setter builds from the merged options. */
    static method NewServices(o: ClientOptions) returns (rec: Recorder, man: Roll20Manipulator)
      ensures fresh(rec) && fresh(man) && rec.Valid() && man.Valid()
      ensures rec.options == WithRecorderDefaults(RecorderOverridesFor(o))
      ensures rec.recordingProcess == None && !rec.isKilledOnPurpose && rec.startDate == None && rec.emitted == []
      ensures man.options == WithManipulatorDefaults(ManipulatorOverridesFor(o))
      ensures man.account == o.roll20Account && man.Snapshot() == FreshBrowser
    {
      rec := new Recorder(RecorderOverridesFor(o));
      man := new Roll20Manipulator(o.roll20Account, ManipulatorOverridesFor(o));
    }

    /** `new Roll20Client(..., options)`: the setter applied to the defaults. */
    constructor (update: ClientOptionsUpdate, xvfbInstalled: bool)
      requires !ConstructionRefused(Overlay(DefaultClientOptions, update).displayId, xvfbInstalled)
      ensures Valid()
      ensures options == Overlay(DefaultClientOptions, update)
      ensures !isRecording && calls == []
      ensures recorder.options == WithRecorderDefaults(RecorderOverridesFor(options))
      ensures recorder.recordingProcess == None && !recorder.isKilledOnPurpose
      ensures recorder.startDate == None && recorder.emitted == []
      ensures manipulator.options == WithManipulatorDefaults(ManipulatorOverridesFor(options))
      ensures manipulator.account == Some(update.roll20Account) && manipulator.Snapshot() == FreshBrowser
      ensures screen.options == WithScreenDefaults(ScreenOverridesFor(options))
      ensures screen.displayServer == None && screen.killed == []
    {
      var o := Overlay(DefaultClientOptions, update);
      options := o;
      isRecording := false;
      locked := false;
      var rec, man := NewServices(o);
      recorder, manipulator := rec, man;
      screen := new VirtualScreen(ScreenOverridesFor(o), xvfbInstalled);
      calls := [];
    }

    /** The constructor, which throws when the virtual screen refuses the
        display (a non-zero display without Xvfb). */
    static method Create(update: ClientOptionsUpdate, xvfbInstalled: bool) returns (r: Result<Roll20Client>)
      ensures r.Failure? <==> ConstructionRefused(Overlay(DefaultClientOptions, update).displayId, xvfbInstalled)
      ensures r.Failure? ==> r.error == VirtualScreenError
      ensures r.Success? ==> fresh(r.value) && r.value.Valid() && !r.value.isRecording
      ensures r.Success? ==> r.value.options == Overlay(DefaultClientOptions, update)
      ensures r.Success? ==> var c := r.value;
        && c.calls == []
        && c.recorder.options == WithRecorderDefaults(RecorderOverridesFor(c.options))
        && c.recorder.recordingProcess == None && !c.recorder.isKilledOnPurpose
        && c.recorder.startDate == None && c.recorder.emitted == []
        && c.manipulator.options == WithManipulatorDefaults(ManipulatorOverridesFor(c.options))
        && c.manipulator.account == Some(update.roll20Account) && c.manipulator.Snapshot() == FreshBrowser
        && c.screen.options == WithScreenDefaults(ScreenOverridesFor(c.options))
        && c.screen.displayServer == None && c.screen.killed == []
    {
      if ConstructionRefused(Overlay(DefaultClientOptions, update).displayId, xvfbInstalled) {
        return Failure(VirtualScreenError);
      }
      var c := new Roll20Client(update, xvfbInstalled);
      return Success(c);
    }

    /** The options setter: merges, then rebuilds the recorder, the manipulator
        and the screen, in that order. The screen constructor may throw, after
        the other two were already replaced. A recording in progress is not
        told: its process stays with the discarded recorder. */
    method SetOptions(update: ClientOptionsUpdate, xvfbInstalled: bool) returns (r: Outcome)
      requires Valid()
      modifies this`options, this`recorder, this`manipulator, this`screen
      ensures Valid()
      ensures isRecording == old(isRecording) && calls == old(calls)
      ensures options == Overlay(old(options), update)
      ensures fresh(recorder) && recorder.options == WithRecorderDefaults(RecorderOverridesFor(options))
      ensures recorder.recordingProcess == None && !recorder.isKilledOnPurpose
      ensures recorder.startDate == None && recorder.emitted == []
      ensures fresh(manipulator) && manipulator.options == WithManipulatorDefaults(ManipulatorOverridesFor(options))
      ensures manipulator.account == Some(update.roll20Account) && manipulator.Snapshot() == FreshBrowser
      ensures r.Fail? <==> ConstructionRefused(options.displayId, xvfbInstalled)
      ensures r.Fail? ==> r.error == VirtualScreenError && screen == old(screen)
      ensures r.Pass? ==> fresh(screen) && screen.options == WithScreenDefaults(ScreenOverridesFor(options))
      ensures r.Pass? ==> screen.displayServer == None && screen.killed == []
    {
      options := Overlay(options, update);
      recorder, manipulator := NewServices(options);
      var s := VirtualScreen.Create(ScreenOverridesFor(options), xvfbInstalled);
      if s.Failure? {
        return Fail(s.error);
      }
      screen := s.value;
      return Pass;
    }

    /** `_stopStreamingGame` would throw: a recording is on, but the recorder
        never started a process (it was rebuilt, or the join before failed). */
    predicate StopFails()
      reads this, recorder
    {
      isRecording && recorder.recordingProcess.None?
    }

    /** `startStreamingGame(gameUrl)` rejects. */
    predicate StartFails(gameUrl: string, env: Env)
      reads this, recorder, manipulator
    {
      StopFails() || manipulator.JoinFails(gameUrl, env.launch, env.site) || env.ffmpegSaveThrows
    }

    /** Starts the screen, launches the browser, then logs in. */
    method Initialize(env: Env) returns (r: Outcome)
      requires Valid()
      modifies this`calls, screen, manipulator
      ensures Valid()
      ensures calls == old(calls) + InitializeCalls(env.launch)
      ensures r.Fail? <==>
        env.launch != Ready || LoginFails(env.site, manipulator.options.loginPage, manipulator.account)
      ensures screen.displayServer ==
        if env.screenFree then Some(XvfbProcess(XvfbArguments(screen.options))) else old(screen.displayServer)
      ensures screen.killed == old(screen.killed)
      ensures manipulator.isBrowserInitialized == (old(manipulator.isBrowserInitialized) || env.launch == Ready)
      ensures manipulator.Snapshot() == Initialized(old(manipulator.Snapshot()), env.launch, env.site,
                                                    manipulator.options.loginPage, manipulator.account)
    {
      ghost var before := manipulator.Snapshot();
      calls := calls + [ScreenStart];
      var _ := screen.StartVirtualScreen(env.screenFree);
      calls := calls + [ManipulatorInitialize];
      r := manipulator.InitializeBrowser(env.launch);
      if r.Fail? {
        return;
      }
      calls := calls + [ManipulatorLogin];
      r := manipulator.Login(env.site);
      assert manipulator.Snapshot() ==
        LoggedIn(Launched(before, env.launch), env.site, manipulator.options.loginPage, manipulator.account);
    }

    /** `_stopStreamingGame`: stops the recorder when recording and hands back
        the start date; answers nothing when idle. */
    method StopUnlocked() returns (r: Result<Option<AccurateTime>>)
      modifies this`isRecording, this`calls, recorder
      ensures !old(isRecording) ==> r == Success(None) && calls == old(calls) && unchanged(recorder)
      ensures old(isRecording) ==> calls == old(calls) + [RecorderStop] && recorder.isKilledOnPurpose
      ensures old(isRecording) && old(recorder.recordingProcess).Some? ==>
        && r == Success(old(recorder.startDate))
        && recorder.recordingProcess == Some(old(recorder.recordingProcess).value.(killed := true))
      ensures r.Failure? <==> old(StopFails())
      ensures r.Failure? ==> r.error == TypeError && recorder.recordingProcess == None
      ensures isRecording == old(StopFails())
      ensures recorder.startDate == old(recorder.startDate) && recorder.emitted == old(recorder.emitted)
    {
      if !isRecording {
        return Success(None);
      }
      calls := calls + [RecorderStop];
      r := recorder.StopRecording();
      if r.Failure? {
        return;
      }
      isRecording := false;
    }

    /** `stopStreamingGame`, under the mutex. */
    method StopStreamingGame() returns (r: Result<Option<AccurateTime>>)
      requires Valid()
      modifies this`locked, this`isRecording, this`calls, recorder
      ensures Valid()
      ensures !old(isRecording) ==> r == Success(None) && calls == old(calls) && unchanged(recorder)
      ensures old(isRecording) ==> calls == old(calls) + [RecorderStop] && recorder.isKilledOnPurpose
      ensures old(isRecording) && old(recorder.recordingProcess).Some? ==>
        && r == Success(old(recorder.startDate))
        && recorder.recordingProcess == Some(old(recorder.recordingProcess).value.(killed := true))
      ensures r.Failure? <==> old(StopFails())
      ensures r.Failure? ==> r.error == TypeError && recorder.recordingProcess == None
      ensures isRecording == old(StopFails())
      ensures recorder.startDate == old(recorder.startDate) && recorder.emitted == old(recorder.emitted)
    {
      locked := true;
      r := StopUnlocked();
      locked := false;
    }

    /** The part of `_startStreamingGame` after any running recording was
        stopped: mark recording, join, record, and request the stream
        settings without waiting for them. */
    method BeginRecording(gameUrl: string, env: Env) returns (r: Outcome)
      requires manipulator.Valid()
      modifies this`isRecording, this`calls, recorder, manipulator
      ensures manipulator.Valid()
      ensures isRecording
      ensures var joinFails := old(manipulator.JoinFails(gameUrl, env.launch, env.site));
        && (r.Fail? <==> joinFails || env.ffmpegSaveThrows)
        && calls == old(calls) + [ManipulatorJoin(gameUrl)] + (if joinFails then [] else RecordCalls(env.ffmpegSaveThrows))
        && (!joinFails ==>
              recorder.recordingProcess == Some(FfmpegProcess(RecordingCommand(recorder.options, recorder.sinkMonitor), false)))
        && (joinFails ==> recorder.recordingProcess == old(recorder.recordingProcess))
      ensures recorder.isKilledOnPurpose == old(recorder.isKilledOnPurpose)
      ensures recorder.startDate == old(recorder.startDate) && recorder.emitted == old(recorder.emitted)
      ensures manipulator.Snapshot() == JoinedAndSetUp(old(manipulator.Snapshot()), gameUrl, env,
                                                       manipulator.options.loginPage, manipulator.account, r.Pass?)
    {
      isRecording := true;
      calls := calls + [ManipulatorJoin(gameUrl)];
      ghost var before := manipulator.Snapshot();
      assert before == old(manipulator.Snapshot());
      r := manipulator.JoinGame(gameUrl, env.launch, env.site);
      if r.Fail? {
        return;
      }
      r := RecordAndSetUp(env.ffmpegSaveThrows);
    }

    /** Once joined: start the recorder, and only once it records, request the
        stream settings of the page. */
    method RecordAndSetUp(saveThrows: bool) returns (r: Outcome)
      modifies this`calls, recorder`recordingProcess, manipulator`setupRequests
      ensures r.Fail? <==> saveThrows
      ensures calls == old(calls) + RecordCalls(saveThrows)
      ensures recorder.recordingProcess == Some(FfmpegProcess(RecordingCommand(recorder.options, recorder.sinkMonitor), false))
      ensures manipulator.Snapshot() ==
        if r.Pass? then old(manipulator.Snapshot()).(setupRequests := old(manipulator.setupRequests) + 1)
        else old(manipulator.Snapshot())
    {
      calls := calls + [RecorderStart];
      r := recorder.StartRecording(saveThrows);
      if r.Fail? {
        return;
      }
      calls := calls + [ManipulatorSetup];
      AppendAssociative(old(calls), [RecorderStart], [ManipulatorSetup]);
      manipulator.SetupStreamingSetting();
    }

    /** `_startStreamingGame`: stop a running recording, then begin a new one.
        A failure leaves the recording flag set: nothing rolls it back. */
    method StartUnlocked(gameUrl: string, env: Env) returns (r: Outcome)
      requires manipulator.Valid()
      modifies this`isRecording, this`calls, recorder, manipulator
      ensures manipulator.Valid()
      ensures r.Fail? <==> old(StartFails(gameUrl, env))
      ensures isRecording
      ensures calls == old(calls) + StartCalls(old(isRecording), old(StopFails()),
                                               old(manipulator.JoinFails(gameUrl, env.launch, env.site)),
                                               env.ffmpegSaveThrows, gameUrl)
      ensures recorder.isKilledOnPurpose == (old(isRecording) || old(recorder.isKilledOnPurpose))
      ensures recorder.recordingProcess ==
        if !old(StopFails()) && !old(manipulator.JoinFails(gameUrl, env.launch, env.site))
        then Some(FfmpegProcess(RecordingCommand(recorder.options, recorder.sinkMonitor), false))
        else if old(isRecording) && old(recorder.recordingProcess).Some?
        then Some(old(recorder.recordingProcess).value.(killed := true))
        else old(recorder.recordingProcess)
      ensures recorder.startDate == old(recorder.startDate) && recorder.emitted == old(recorder.emitted)
      ensures manipulator.Snapshot() ==
        if old(StopFails()) then old(manipulator.Snapshot())
        else JoinedAndSetUp(old(manipulator.Snapshot()), gameUrl, env,
                            manipulator.options.loginPage, manipulator.account, r.Pass?)
    {
      ghost var joinFails := manipulator.JoinFails(gameUrl, env.launch, env.site);
      ghost var calls0 := calls;
      ghost var stopped: seq<Call> := if isRecording then [RecorderStop] else [];
      if isRecording {
        var s := StopUnlocked();
        if s.Failure? {
          return Fail(s.error);
        }
        isRecording := false;
      }
      assert calls == calls0 + stopped;
      assert manipulator.JoinFails(gameUrl, env.launch, env.site) == joinFails;
      r := BeginRecording(gameUrl, env);
      ghost var recorded: seq<Call> := if joinFails then [] else RecordCalls(env.ffmpegSaveThrows);
      AppendAssociative(calls0 + stopped, [ManipulatorJoin(gameUrl)], recorded);
      AppendAssociative(calls0, stopped, BeginCalls(joinFails, env.ffmpegSaveThrows, gameUrl));
    }

    /** `startStreamingGame`, under the mutex, which is released on every exit. */
    method StartStreamingGame(gameUrl: string, env: Env) returns (r: Outcome)
      requires Valid()
      modifies this`locked, this`isRecording, this`calls, recorder, manipulator
      ensures Valid()
      ensures r.Fail? <==> old(StartFails(gameUrl, env))
      ensures isRecording
      ensures calls == old(calls) + StartCalls(old(isRecording), old(StopFails()),
                                               old(manipulator.JoinFails(gameUrl, env.launch, env.site)),
                                               env.ffmpegSaveThrows, gameUrl)
      ensures recorder.isKilledOnPurpose == (old(isRecording) || old(recorder.isKilledOnPurpose))
      ensures recorder.recordingProcess ==
        if !old(StopFails()) && !old(manipulator.JoinFails(gameUrl, env.launch, env.site))
        then Some(FfmpegProcess(RecordingCommand(recorder.options, recorder.sinkMonitor), false))
        else if old(isRecording) && old(recorder.recordingProcess).Some?
        then Some(old(recorder.recordingProcess).value.(killed := true))
        else old(recorder.recordingProcess)
      ensures recorder.startDate == old(recorder.startDate) && recorder.emitted == old(recorder.emitted)
      ensures manipulator.Snapshot() ==
        if old(StopFails()) then old(manipulator.Snapshot())
        else JoinedAndSetUp(old(manipulator.Snapshot()), gameUrl, env,
                            manipulator.options.loginPage, manipulator.account, r.Pass?)
    {
      locked := true;
      r := StartUnlocked(gameUrl, env);
      locked := false;
    }

    /** Moves the streamed view onto an area of the map; refused while not recording. */
    method CoverArea(area: BoundingBox) returns (r: Outcome)
      requires Valid() && PositiveArea(area)
      modifies this`calls, manipulator`zoomRequests, manipulator`scrolls
      ensures Valid()
      ensures isRecording == old(isRecording)
      ensures !isRecording ==> r == Fail(InvalidClientStateError) && calls == old(calls) && unchanged(manipulator)
      ensures isRecording ==> calls == old(calls) + [ManipulatorCoverArea(area)]
      ensures isRecording ==>
        var zoom := GetZoomForArea(area, ScreenBox(manipulator.options.screenSize));
        && (r == Fail(ZoomError) <==> zoom > MaxZoomPercentage)
        && (r.Pass? <==> zoom <= MaxZoomPercentage && manipulator.pageOpen)
        && (zoom <= MaxZoomPercentage && !manipulator.pageOpen ==> r == Fail(TypeError))
        && manipulator.zoomRequests == old(manipulator.zoomRequests) + (if r.Pass? then [zoom] else [])
        && manipulator.scrolls == old(manipulator.scrolls) + (if r.Pass? then [ScrollTarget(area, zoom)] else [])
    {
      if !isRecording {
        return Fail(InvalidClientStateError);
      }
      calls := calls + [ManipulatorCoverArea(area)];
      r := manipulator.CoverArea(area);
    }
  }

  /** Stopping twice is stopping once: the second stop finds the client idle
      and neither calls the recorder nor reports a start date. */
  method StopTwice(c: Roll20Client) returns (first: Result<Option<AccurateTime>>, second: Result<Option<AccurateTime>>)
    requires c.Valid() && !c.StopFails()
    modifies c`locked, c`isRecording, c`calls, c.recorder
    ensures c.Valid() && !c.isRecording
    ensures c.calls == old(c.calls) + (if old(c.isRecording) then [RecorderStop] else [])
    ensures first == (if old(c.isRecording) then Success(old(c.recorder.startDate)) else Success(None))
    ensures second == Success(None)
  {
    first := c.StopStreamingGame();
    second := c.StopStreamingGame();
  }

  /** No rollback: on a client whose recorder never started, a failed join
      leaves the client marked as recording, so the next start throws in its
      stop step before joining anything, and so does a stop. */
  method FailedJoinThenRestart(c: Roll20Client, badUrl: string, gameUrl: string, env: Env, retry: Env)
    returns (first: Outcome, second: Outcome, stop: Result<Option<AccurateTime>>)
    requires c.Valid() && !c.isRecording && c.recorder.recordingProcess.None?
    requires c.manipulator.JoinFails(badUrl, env.launch, env.site)
    modifies c`locked, c`isRecording, c`calls, c.recorder, c.manipulator
    ensures first.Fail? && second.Fail? && stop == Failure(TypeError)
    ensures c.isRecording
    ensures c.calls == old(c.calls) + [ManipulatorJoin(badUrl), RecorderStop, RecorderStop]
  {
    first := c.StartStreamingGame(badUrl, env);
    second := c.StartStreamingGame(gameUrl, retry);
    stop := c.StopStreamingGame();
  }
}
