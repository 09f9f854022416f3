# roll20-streaming-client, modelled in Dafny

roll20-streaming-client streams a Roll20 tabletop game. A headful Chrome,
driven by puppeteer, logs into Roll20 with a bot account and joins a campaign
as a player. The browser runs on an Xvfb virtual display and plays its sound
into a PulseAudio sink. ffmpeg grabs that display and the sink's monitor and
pushes H.264/AAC in FLV to an RTMP target. Remote control arrives over Redis:
a start command carries an invitation link, a stop command carries nothing,
and each command is answered on an event channel with a flag that says
whether it failed.

The project models the three services of that core (virtual screen, recorder,
manipulator), the manipulator's pure helpers, and the two components:

- `Screen` (VirtualScreen.dfy): the virtual screen, its option defaults, the
  refusal of a non-zero display without Xvfb, and the Xvfb arguments. Also
  start on a free display only, and stop-once.
- `Capture` (Recorder.dfy): the recorder, its option defaults and the
  PulseAudio monitor name. It also covers the exact ffmpeg command, the
  intentional-kill flag that swallows one error event, and the start date.
- `ManipulatorSpec` (ManipulatorSpec.dfy): the manipulator's pure logic. This
  is the zoom arithmetic and its range guard, the cookie expiry test, the
  campaign id read from an invitation link by `/\/(\d+)/`, the editor URL and
  the option defaults.
- `Manipulator` (Manipulator.dfy): the manipulator. It covers browser start,
  login (a quick path over restored cookies, else the form), joining a game
  (with the detour through the invitation link), the zoom cache, zoom changes
  and covering an area.
- `Client` (Client.dfy): the Roll20 client. It owns the three services,
  rebuilds them whenever options are set, and runs start and stop behind a
  mutex. It keeps a log of every call it makes into a service, so the order
  of those calls can be stated.
- `Receiver` (Receiver.dfy): the remote command receiver. It covers channel
  names, the reply it builds, what it publishes per command, its
  construction, and the message broker.
- `Types` and `Text` hold the shared values and JavaScript string behaviour:
  `includes`, and the decimal rendering of numbers in template literals,
  with its inverse.

Classes stand for the objects whose fields the source updates in place. The
methods of the screen, the recorder, the manipulator and the client state the
new value of every field they modify. The manipulator's state is gathered into
a `Browser` value (`Snapshot`), and each of its compound steps is stated as a
function on that value: `Launched`, `LoggedIn`, `Navigated`, `Joined`, and in
the client `Initialized` and `JoinedAndSetUp`. The receiver's methods state
what they publish and the calls the client makes into its services. The
outside world comes in as parameters, as oracles:

- `LaunchStep` says how far a browser launch gets.
- `Site` holds:
  - the addresses `page.goto` rejects;
  - the address `page.url()` shows after a redirect;
  - the cookie backup file;
  - `Date.now()`;
  - whether the login form fails;
  - the zoom the page displays.
- The booleans `xvfbInstalled`, `screenFree` and `ffmpegSaveThrows` stand for
  `checkXfvb`, `checkAvailableScreen` and a synchronous throw from ffmpeg's
  `save`.

A rejected promise or a thrown exception is an `Outcome.Fail` or a
`Result.Failure` carrying the error class. A property read on `undefined` is
`TypeError`.

Behaviour of the code worth knowing, modelled as written:

- **No rollback.** `_startStreamingGame` sets `isRecording` before joining and
  nothing resets it when the join or the recorder throws. What follows depends
  on the recorder. `startRecording` stores the ffmpeg process before calling
  `save` (src/services/recorder.ts:44-98), so after a throwing `save`, or after
  an earlier recording, a process exists and a later stop kills it and
  succeeds. But when the join fails on a recorder that never had a process (a
  fresh client, or one whose options were just set), a later start and a stop
  both call `stopRecording` with no process. That call throws, so the client
  stays stuck as recording. `FailedJoinThenRestart` proves this sequence.
- **Zoom cache.** `getZoomLevel` caches the level it reads, and
  `changeZoomLevel` never updates or clears that cache. So after a change the
  getter keeps answering the old level, although the zoom test at
  src/services/roll20-manipulator.spec.ts:192-203 expects the new one. The
  model keeps the cache as written: ChangeZoomLevel leaves `currentZoomLevel`
  alone.
- **Reply field name.** The broker copies `campaignRoll2OIds` (letter O) into
  its reply. The message type and the test's message use `campaignRoll20Ids`
  (digit zero). A reply therefore never carries the ids a sender put in.
  `RedisMessage` has both fields, `Response` is the reply as written, and
  `ResponseDropsDeclaredIds` shows the effect on the test's message.
- **Editor detour.** The default editor page itself contains "setcampaign".
  So when the site does not redirect the editor page, `joinGame` always takes
  the detour through the invitation link
  (`EditorPageMentionsSetcampaign`).

## Model

| member | source | states |
|---|---|---|
| Text.ContainsIff | src/services/roll20-manipulator.ts:541 | `includes` holds exactly when the substring occurs at some index |
| Text.ParseNatToString | src/services/recorder.ts:45 | the decimal text a template literal gives a non-negative integer is all digits and reads back as that integer |
| Text.NatToStringInjective | src/services/virtual-screen.ts:52 | distinct numbers never render to the same decimal text |
| Screen.ScreenDefaultsMerge | src/services/virtual-screen.ts:14-19 | supplied options win over the defaults; an empty argument gives display 99 at 1280x720 |
| Screen.XvfbArgumentsNameDisplay | src/services/virtual-screen.ts:50-56 | the display argument of the Xvfb command determines the configured display id |
| Screen.VirtualScreen.constructor | src/services/virtual-screen.ts:18-25 | on an accepted configuration, the options are the merged ones and no display server is running |
| Screen.VirtualScreen.Create | src/services/virtual-screen.ts:18-25 | construction throws a VirtualScreenError exactly for a non-zero display without Xvfb; otherwise it gives a new screen with merged options |
| Screen.VirtualScreen.StartVirtualScreen | src/services/virtual-screen.ts:48-59 | answers the configured id either way; spawns Xvfb with the configured arguments only when the display is free, else keeps the old handle |
| Screen.VirtualScreen.StopVirtualScreen | src/services/virtual-screen.ts:61-66 | kills the current server exactly once if there is one, and forgets it |
| Screen.StopTwice | src/services/virtual-screen.ts:61-66 | a second stop kills nothing more |
| Screen.StartOnOccupiedDisplay | src/services/virtual-screen.spec.ts:47-56 | a second start on the display the first occupied spawns nothing and answers the same id |
| Capture.RecorderDefaultsMerge | src/services/recorder.ts:20-36 | supplied options win; an empty argument gives 1280x720, display 99, 21 fps, 8000k/24000k, no target, sink roll20Sink |
| Capture.SinkMonitorInverse | src/services/recorder.ts:37-40 | the monitor source names its sink back (".monitor" added, "default" kept), and only "default" maps to "default" |
| Capture.SinkMonitorInjective | src/services/recorder.ts:37-40 | distinct sinks are recorded from distinct sources |
| Capture.VideoInputDisplay | src/services/recorder.ts:45 | the x11grab source names the configured display |
| Capture.GopIsTwoSeconds | src/services/recorder.ts:91 | the GOP option is twice the frame rate, a keyframe every two seconds |
| Capture.RecordingCommandFollowsOptions | src/services/recorder.ts:43-98 | the command grabs the configured display (x11grab) and the sink's monitor (pulse) and uses a two-second GOP; it writes FLV to the configured target |
| Capture.Recorder.constructor | src/services/recorder.ts:34-41 | the options are merged over the defaults and the monitor source is derived from the sink; no process yet |
| Capture.Recorder.StartRecording | src/services/recorder.ts:43-99 | the process with the exact command is stored before `save`; the call fails with an ffmpeg error exactly when `save` throws |
| Capture.Recorder.StopRecording | src/services/recorder.ts:101-106 | marks the kill as intended in every case; with no process it throws a TypeError; otherwise it kills the process and hands back the start date |
| Capture.Recorder.OnStart | src/services/recorder.ts:57-61 | the start event records the start time and re-emits the command line |
| Capture.Recorder.OnRelayed | src/services/recorder.ts:65-82 | progress, stderr and end events are re-emitted in order |
| Capture.Recorder.OnError | src/services/recorder.ts:72-79 | an error from a process killed on purpose is swallowed and the flag cleared; any other error is passed on to no listener, so Node throws it and the service ends (`Fail(UnhandledErrorEvent)`); the flag is clear afterwards |
| Capture.ErrorMaskedOncePerKill | src/services/recorder.ts:72-79 | an intentional kill swallows exactly one error; the next one is passed on unheard and ends the service; no event is emitted |
| ManipulatorSpec.GetZoomForArea | src/services/roll20-manipulator.ts:227-236 | the computed level is never below the minimum of 10 |
| ManipulatorSpec.FitsIff | src/services/roll20-manipulator.ts:227-236 | at any level from 10 up, the area fits the screen exactly when it can fit at 10% and the level does not exceed the computed one |
| ManipulatorSpec.ZoomForAreaCovers | src/services/roll20-manipulator.ts:227-236 | when the area fits at 10% or more, the computed level shows it whole and one level more does not |
| ManipulatorSpec.ZoomForAreaSample | src/services/roll20-manipulator.spec.ts:153-174 | the test's area on a 1200x690 screen gets level 119 and fits at it |
| ManipulatorSpec.CoverAreaZoomRefused | src/services/roll20-manipulator.ts:257-265 | coverArea's zoom change is refused exactly when the computed level exceeds 250, which is exactly when the map part of the window would still show the area whole at 251% |
| ManipulatorSpec.CoverAreaSamples | src/services/roll20-manipulator.spec.ts:204-239 | on a 1280x720 window the tests' areas get levels 89 and 125 |
| ManipulatorSpec.AreExpiredIff | src/services/roll20-manipulator.ts:539-544 | cookies count as expired exactly when a cookie whose name contains "roll20" or "session" expired before now |
| ManipulatorSpec.FirstSlashDigitFrom | src/services/roll20-manipulator.ts:126 | finds the leftmost slash followed by a digit, or proves there is none |
| ManipulatorSpec.DigitRunEnd | src/services/roll20-manipulator.ts:126 | the greedy `\d+`: the end of the maximal digit run |
| ManipulatorSpec.CampaignId | src/services/roll20-manipulator.ts:126 | no id exactly when the link has no slash followed by a digit; otherwise the id is the full digit run after the leftmost such slash |
| ManipulatorSpec.EditorPageCampaignId | src/services/roll20-manipulator.ts:77-78 | reading the campaign id back from an editor URL gives the id it was built from |
| ManipulatorSpec.EditorPageMentionsSetcampaign | src/services/roll20-manipulator.ts:133-138 | the editor URL itself contains "setcampaign" |
| ManipulatorSpec.SampleGameLinkCampaignId | src/components/remote-command-receiver.spec.ts:25 | the tests' invitation link names campaign 2883710 |
| ManipulatorSpec.ManipulatorDefaultsMerge | src/services/roll20-manipulator.ts:72-87 | supplied options win; an empty argument gives the defaults (display 99, account id 2970803, volume 35) |
| Manipulator.ExpiredSessionCookieForcesForm | src/services/roll20-manipulator.ts:494-513 | one expired session cookie in the backup rules out the quick path; login then fails exactly when the page, the account or the form does |
| Manipulator.FreshSessionSkipsForm | src/services/roll20-manipulator.ts:500-508 | an unexpired backup whose session the site accepts logs in without the form, whatever the account |
| Manipulator.Roll20Manipulator.constructor | src/services/roll20-manipulator.ts:67-88 | options merged over the defaults; the browser state is the fresh one: no browser, no page, no cached zoom, empty logs |
| Manipulator.Roll20Manipulator.InitializeBrowser | src/services/roll20-manipulator.ts:461-488 | rejects exactly when a launch step fails; the flag is set only once launch, page and viewport all succeeded; the new browser state is `Launched` of the old |
| Manipulator.Roll20Manipulator.Goto | src/services/roll20-manipulator.ts:127-129 | with no page it throws a TypeError; otherwise it visits the address, rejects exactly for an unreachable one, and lands where the site sends it |
| Manipulator.Roll20Manipulator.NormalLogin | src/services/roll20-manipulator.ts:518-529 | visits the login page; fails exactly when the page, the account or the form does |
| Manipulator.Roll20Manipulator.SetCookies | src/services/roll20-manipulator.ts:497-499 | sets every cookie of the list, in order |
| Manipulator.Roll20Manipulator.Login | src/services/roll20-manipulator.ts:494-513 | with no page it throws a TypeError and touches no cookie, visit or backup; otherwise restores every cookie of the backup, fails exactly when LoginFails holds, visits the pages LoginVisits lists, ends where the login page lands, and backs the cookies up only after a form login |
| Manipulator.Roll20Manipulator.JoinGame | src/services/roll20-manipulator.ts:116-144 | fails exactly when JoinFails holds; the new browser state is `Joined` of the old: launch only if not initialized, then login, "logged", the campaign visits, and "joined" on success |
| Manipulator.Roll20Manipulator.OpenCampaign | src/services/roll20-manipulator.ts:126-138 | fails exactly when NavigationFails holds (TypeError for a link without an id); visits CampaignVisits on every path (the editor, or editor, link and editor again) and ends on the editor's landing page; the new browser state is `Navigated` of the old |
| Manipulator.JoinedEffects | src/services/roll20-manipulator.ts:116-144 | what joining does to the browser: launch only without a browser, cookies restored once a page is open, events "logged" and "joined" exactly on passing login and join, the login and campaign pages visited in order, ending on the editor's landing page; zoom, scroll and settings untouched |
| Manipulator.Roll20Manipulator.SetupStreamingSetting | src/services/roll20-manipulator.ts:145-167 | one more request for the streaming tweaks of the page |
| Manipulator.Roll20Manipulator.GetZoomLevel | src/services/roll20-manipulator.ts:204-212 | answers a non-zero cached level without touching the page; otherwise reads and caches the displayed level (TypeError with no page) |
| Manipulator.Roll20Manipulator.ChangeZoomLevel | src/services/roll20-manipulator.ts:214-226 | refuses levels outside 10..250 with a ZoomError before touching the page; otherwise asks the slider for the level |
| Manipulator.Roll20Manipulator.CoverArea | src/services/roll20-manipulator.ts:257-274 | zooms to the computed level for the map box and scrolls to the scaled corner; fails with a ZoomError exactly when that level exceeds 250, and with a TypeError when it does not but no page is open |
| Client.OverlayAccumulates | src/components/roll20-client.ts:63-64 | two option updates are one combined update; repeating an update changes nothing; target and account are always set |
| Client.ServicesAgree | src/components/roll20-client.ts:63-88 | the three services share the client's display, screen size and sink; the recorder gets the client's fps and target |
| Client.RestartStopsOnceFirst | src/components/roll20-client.ts:123-132 | starting over a recording stops it exactly once, before any other call |
| Client.FreshStartJoinsFirst | src/components/roll20-client.ts:123-132 | starting from idle stops nothing and joins first |
| Client.RecordingFollowsJoin | src/components/roll20-client.ts:128-131 | recording starts only right after the join, the stream settings only right after recording starts, and recording starts exactly when stop and join succeed |
| Client.Roll20Client.NewServices | src/components/roll20-client.ts:65-82 | builds a fresh recorder and manipulator from the merged options, in their initial state: no process, flag clear, no start date, no events, a fresh browser state |
| Client.Roll20Client.constructor | src/components/roll20-client.ts:34-47 | the setter applied to the defaults: merged options, idle, no calls, and the three services built from them in their initial state |
| Client.Roll20Client.Create | src/components/roll20-client.ts:84-87 | construction throws a VirtualScreenError exactly when the screen refuses the display; otherwise it gives a new client in the constructor's state: merged options, idle, no calls, and the three services in their initial state |
| Client.Roll20Client.SetOptions | src/components/roll20-client.ts:63-88 | merges the update; replaces recorder and manipulator with fresh ones in their initial state (even when the screen then throws); keeps the recording flag and the call log; throws exactly when the screen refuses, else a fresh idle screen |
| Client.Roll20Client.Initialize | src/components/roll20-client.ts:90-94 | starts the screen, launches the browser, and logs in only once the browser is up; fails exactly when the launch or the login does; the new browser state is `Initialized` of the old; nothing is killed |
| Client.Roll20Client.StopUnlocked | src/components/roll20-client.ts:134-140 | when idle, answers nothing and calls nothing; when recording, stops the recorder once and hands back its start date; throws exactly when the recorder has no process, leaving the recording flag set |
| Client.Roll20Client.StopStreamingGame | src/components/roll20-client.ts:105-114 | the same under the mutex, which is free again afterwards |
| Client.Roll20Client.BeginRecording | src/components/roll20-client.ts:128-131 | sets the recording flag, joins, then records and requests the settings, each only if the step before succeeded; fails exactly when the join or the recorder does; the recorder's process is stored whenever the join succeeded; the new browser state is `JoinedAndSetUp` of the old |
| Client.Roll20Client.RecordAndSetUp | src/components/roll20-client.ts:130-131 | starts the recorder, storing its process, and requests the stream settings only when recording started |
| Client.Roll20Client.StartUnlocked | src/components/roll20-client.ts:123-132 | fails exactly when StartFails holds; the recording flag is set afterwards in every case; the service calls are StartCalls; the recorder's process is the new one when stop and join succeed, else the old one, killed if it was stopped; the kill flag is set when a recording was stopped; the browser state is unchanged when the stop throws, else `JoinedAndSetUp` of the old |
| Client.Roll20Client.StartStreamingGame | src/components/roll20-client.ts:96-103 | the same under the mutex, which is free again afterwards |
| Client.Roll20Client.CoverArea | src/components/roll20-client.ts:116-122 | refused with InvalidClientStateError while not recording, calling nothing; otherwise passes the area to the manipulator, and passes exactly when the level is at most 250 and the page is open, with a TypeError when only the page is missing |
| Client.StopTwice | src/components/roll20-client.ts:105-114 | a second stop finds the client idle: one recorder stop in all, and the second answer is empty |
| Client.FailedJoinThenRestart | src/components/roll20-client.ts:123-140 | after a failed join on a fresh client, the next start and a stop both throw in the stop step, and the client stays marked as recording |
| Receiver.ParseSubChannel | src/components/remote-command-receiver.ts:10-13 | recognises exactly the two command channel names |
| Receiver.ChannelsDisjoint | src/components/remote-command-receiver.ts:10-18 | no event channel is taken for a command channel; each command channel is recognised as itself |
| Receiver.ResponseIdentifiesRequest | src/components/remote-command-receiver.ts:61-66 | the reply has no data and the outcome flag; two replies are equal exactly when they answer the same campaignId and campaignRoll2OIds with the same outcome |
| Receiver.ResponseDropsDeclaredIds | src/@types/redis-message.d.ts:5 | the reply to the test's message carries no campaign ids, and ignores the declared campaignRoll20Ids field |
| Receiver.DispatchAnswersEachCommandOnce | src/components/remote-command-receiver.ts:50-83 | a start command is answered once on the "began" channel, a stop once on the "stopped" channel, anything else not at all |
| Receiver.RedisBus.constructor | src/@types/redis-API.d.ts:3-7 | a connection with no subscriptions, handlers or publications |
| Receiver.RedisBus.Subscribe | src/@types/redis-API.d.ts:6 | adds one subscription |
| Receiver.RedisBus.OnMessage | src/components/remote-command-receiver.ts:47 | registers one message handler |
| Receiver.RedisBus.Publish | src/@types/redis-API.d.ts:4 | appends one publication |
| Receiver.ReceiverOptionsAccepted | src/components/remote-command-receiver.ts:31-42 | the receiver's options select display 0 and the local RTMP server, so any host accepts them |
| Receiver.RemoteCommandReceiver.constructor | src/components/remote-command-receiver.ts:25-48 | the client gets the receiver's options and is initialised: a fresh recorder with no process, no start date and no events; the browser launched and, once up, logged in (`Initialized` of the fresh browser); the screen started when its display is free, nothing killed; the calls InitializeCalls; both command channels subscribed in order, one handler registered, nothing published |
| Receiver.RemoteCommandReceiver.MessageBroker | src/components/remote-command-receiver.ts:50-83 | publishes what Dispatch gives for the call's outcome; a start runs StartCalls and leaves the recorder and the browser as StartStreamingGame does (new or killed process, kill flag, start date and events kept, `JoinedAndSetUp` unless the stop throws); a stop runs at most one recorder stop, kills the process if there is one and leaves the browser alone; other messages and a start without data call nothing and change neither service |
| Receiver.HealthyStart | src/components/remote-command-receiver.ts:53-67 | with every collaborator working and a stop that would not throw, a start command is answered without error, makes the calls of a successful start and leaves the client recording |
| Receiver.TwoStartsInARow | src/components/remote-command-receiver.spec.ts:63-91 | with healthy collaborators, the second start stops the first recording and records again, and both are answered without error |
| Receiver.StopWhileIdle | src/components/remote-command-receiver.ts:68-81 | a stop while idle calls nothing and is answered without error |

## Left out

- The browser and the site: what the DOM scripts do is not modelled. This
  covers the body of setupStreamingSetting, hideOwnCamera, the volume, camera
  and display settings, transformSideBar, refreshRTC and injectCustomPayload.
  So are the scroll itself in moveToLocation, the 800 ms and other waits,
  closeBrowser and takeScreenshot. The model keeps only the requests the
  manipulator makes and what the site answers, as the `Site` oracle.
- The cookie file: reading and writing it are I/O. The backup's content is the
  oracle `Site.cookieFile`, and a write is counted, not stored.
- Processes: Xvfb and ffmpeg are not run. The model keeps the command they
  would be started with and whether they were killed. Events from an old
  ffmpeg process that arrive after a restart are not modelled.
- Host checks: `checkXfvb` and `checkAvailableScreen` are shell commands,
  passed in as booleans.
- Time: `hrtime()` values are opaque and only stored. `Date.now()` is a
  parameter.
- Concurrency: `initialize` in the receiver's constructor and
  `setupStreamingSetting` in the client are not awaited. The model runs each
  of them to completion at the point where it is called, one interleaving of
  many. The mutex is a flag that is held for the whole of a start or stop.
- Redis, JSON and wiring: the Redis transport, `JSON.parse` of a message, the
  inversify container and the HTTP server are not part of this model. A
  message with `data` but no `gameUrl` is not modelled; `data` is either
  absent or carries a link.
- Numbers: screen sizes, display ids and fps are non-negative integers. Areas
  and zoom ratios are exact reals, not IEEE doubles. The `NaN` that `Number()`
  gives for a non-numeric zoom text is not modelled. `maxRate` and `bufSize`
  are strings. A template literal renders integers of 10^21 and above in
  exponent form ("1e+21"); `NatToString` always gives plain digits.
- ManipulatorSpec.GetZoomForArea: requires an area of positive width and
  height. For non-positive sizes the source divides by zero (and computes
  with Infinity or NaN) or gets a negative ratio and returns the minimum 10;
  neither is modelled.
- Manipulator.Roll20Manipulator.CoverArea: requires an area of positive width
  and height, for the same reason.
- Client.Roll20Client.CoverArea: requires an area of positive width and
  height, for the same reason.
- Page address: after a form login the model leaves `url` where the login
  page landed, although the submit click navigates
  (src/services/roll20-manipulator.ts:526-528); a newly opened page's
  `about:blank` is not modelled either, as InitializeBrowser keeps the old
  `url`. Neither value is read before the next `Goto`.
- Site redirects: `Site.redirects` is a fixed map, so after the detour
  through the invitation link the editor page lands where its first visit
  did. A site whose answer changes once the invitation is accepted is not
  modelled.
- Capture.Recorder.OnError: the exit of the service after the uncaught error
  is not modelled; the `Fail(UnhandledErrorEvent)` outcome marks it.
- Options: `Object.assign` with a field explicitly set to `undefined` is not
  modelled. A field is either supplied or absent. The `editorPage` option is
  fixed to its default function.
