/** The remote command receiver: configures the client for the local RTMP
    server on the host's own display, subscribes to the two command channels
    and answers every command on the matching event channel with a reply that
    says whether the client call threw and echoes the request's correlation
    fields. The Redis connection is a `RedisBus` object that records
    subscriptions, handlers and publications. */
module Receiver {
  import opened Types
  import opened ManipulatorSpec
  import opened Manipulator
  import opened Screen
  import opened Client
  import opened Capture

  datatype SubChannel = StartStreaming | StopStreaming
  datatype PubChannel = StreamingBegan | StreamingStopped

  function SubChannelName(c: SubChannel): string {
    match c
    case StartStreaming => "startStreamingRoll20Game"
    case StopStreaming => "stopStreamingRoll20Game"
  }

  function PubChannelName(c: PubChannel): string {
    match c
    case StreamingBegan => "streamingRoll20GameBegan"
    case StreamingStopped => "streamingRoll20GameStopped"
  }

  /** The command a channel carries, if any: the broker's `===` tests. */
  function ParseSubChannel(name: string): (c: Option<SubChannel>)
    ensures c.Some? ==> SubChannelName(c.value) == name
    ensures c.None? <==> forall d: SubChannel :: SubChannelName(d) != name
  {
    if name == SubChannelName(StartStreaming) then Some(StartStreaming)
    else if name == SubChannelName(StopStreaming) then Some(StopStreaming)
    else None
  }

  /** A reply is never taken for a command: the receiver does not react to
      what it publishes itself. Each command channel is recognised as itself. */
  lemma ChannelsDisjoint(p: PubChannel, c: SubChannel)
    ensures ParseSubChannel(PubChannelName(p)) == None
    ensures ParseSubChannel(SubChannelName(c)) == Some(c)
  {
    var n := PubChannelName(p);
    assert n[0] == 's' && n[1] == 't' && n[2] == 'r';
    assert SubChannelName(StartStreaming)[2] == 'a';
    assert SubChannelName(StopStreaming)[2] == 'o';
  }

  /** Where the reply to a command goes. */
  function ReplyChannel(c: SubChannel): PubChannel {
    match c
    case StartStreaming => StreamingBegan
    case StopStreaming => StreamingStopped
  }

  /** The `data` of a command: only `gameUrl` is read. */
  datatype RequestData = RequestData(gameUrl: string)

  /** A message on the bus, as parsed from JSON; None is a null or absent
      field. `campaignRoll20Ids` (digit zero) is the field name the message
      type declares and senders fill in; `campaignRoll2OIds` (letter O) is the
      one the broker reads and writes. */
  datatype RedisMessage = RedisMessage(
    hasError: bool,
    data: Option<RequestData>,
    campaignId: Option<string>,
    campaignRoll20Ids: Option<seq<string>>,
    campaignRoll2OIds: Option<seq<string>>)

  /** The reply the broker builds: no data, the outcome flag, and the
      request's `campaignId` and `campaignRoll2OIds`, the ids field as the
      broker spells it. */
  function Response(request: RedisMessage, hasError: bool): RedisMessage {
    RedisMessage(hasError, None, request.campaignId, None, request.campaignRoll2OIds)
  }

  /** The reply carries the outcome and the correlation fields the broker
      copies, so it identifies the command it answers and how it ended. */
  lemma ResponseIdentifiesRequest(a: RedisMessage, b: RedisMessage, e: bool, f: bool)
    ensures Response(a, e).data == None && Response(a, e).hasError == e
    ensures Response(a, e) == Response(b, f) <==>
      a.campaignId == b.campaignId && a.campaignRoll2OIds == b.campaignRoll2OIds && e == f
  {
    if Response(a, e) == Response(b, f) {
      assert Response(a, e).campaignId == Response(b, f).campaignId;
    }
  }

  /** The command the receiver's own test sends, with the declared field name. */
  const SampleRequest: RedisMessage :=
    RedisMessage(false, Some(RequestData(SampleGameLink)), Some("99"), Some(["2883710"]), None)

  /** Because of the spelling, the reply to the test's command carries no
      campaign ids at all, and two commands that differ only in their
      `campaignRoll20Ids` get the same reply. */
  lemma ResponseDropsDeclaredIds()
    ensures Response(SampleRequest, false).campaignRoll20Ids == None
    ensures Response(SampleRequest, false).campaignRoll2OIds == None
    ensures Response(SampleRequest, false).campaignId == Some("99")
    ensures var other := SampleRequest.(campaignRoll20Ids := Some(["1"]));
      other != SampleRequest && Response(other, false) == Response(SampleRequest, false)
  {
  }

  datatype Publication = Publication(channel: string, payload: RedisMessage)

  /** What the broker publishes for a message on `channel`, given whether the
      client call threw: the reply on the matching event channel, or nothing
      for a channel it does not handle. */
  function Dispatch(channel: string, request: RedisMessage, failed: bool): seq<Publication> {
    match ParseSubChannel(channel)
    case None => []
    case Some(c) => [Publication(PubChannelName(ReplyChannel(c)), Response(request, failed))]
  }

  /** A start command is answered once on the "began" channel, a stop command
      once on the "stopped" channel, anything else not at all. */
  lemma DispatchAnswersEachCommandOnce(channel: string, request: RedisMessage, failed: bool)
    ensures channel == "startStreamingRoll20Game" ==>
      Dispatch(channel, request, failed) == [Publication("streamingRoll20GameBegan", Response(request, failed))]
    ensures channel == "stopStreamingRoll20Game" ==>
      Dispatch(channel, request, failed) == [Publication("streamingRoll20GameStopped", Response(request, failed))]
    ensures Dispatch(channel, request, failed) == [] <==>
      channel != "startStreamingRoll20Game" && channel != "stopStreamingRoll20Game"
    ensures |Dispatch(channel, request, failed)| <= 1
  {
  }

  class RedisBus {
    var subscriptions: seq<string>
    /** "message" handlers registered. */
    var handlers: nat
    var published: seq<Publication>

    constructor ()
      ensures subscriptions == [] && handlers == 0 && published == []
    {
      subscriptions := [];
      handlers := 0;
      published := [];
    }

    method Subscribe(channel: string)
      modifies this`subscriptions
      ensures subscriptions == old(subscriptions) + [channel]
    {
      subscriptions := subscriptions + [channel];
    }

    method OnMessage()
      modifies this`handlers
      ensures handlers == old(handlers) + 1
    {
      handlers := handlers + 1;
    }

    method Publish(p: Publication)
      modifies this`published
      ensures published == old(published) + [p]
    {
      published := published + [p];
    }
  }

  /** The options the receiver sets: the configured account, the host's own
      display 0 in a 1280x720 headful window at 21 fps, streaming to the local
      RTMP server through the "roll20Sink" sink. */
  function ReceiverUpdate(account: Account): ClientOptionsUpdate {
    ClientOptionsUpdate(Some(ScreenSize(1280, 720)), Some(21), "rtmp://localhost/live", account,
                        Some(0), Some(false), Some("roll20Sink"), None)
  }

  /** Display 0 never needs Xvfb, so the receiver's options are accepted on any host. */
  lemma ReceiverOptionsAccepted(o: ClientOptions, account: Account, xvfbInstalled: bool)
    ensures Overlay(o, ReceiverUpdate(account)).displayId == 0
    ensures !ConstructionRefused(Overlay(o, ReceiverUpdate(account)).displayId, xvfbInstalled)
    ensures Overlay(o, ReceiverUpdate(account)).target == Some("rtmp://localhost/live")
  {
  }

  class RemoteCommandReceiver {
    const client: Roll20Client
    const redis: RedisBus

    /** Sets the client's options, initialises it (its outcome is only
        logged), subscribes to both command channels and registers one
        message handler. */
    constructor (client: Roll20Client, redis: RedisBus, account: Account, xvfbInstalled: bool, env: Env)
      requires client.Valid()
      modifies client, redis
      ensures this.client == client && this.redis == redis
      ensures client.Valid()
      ensures client.options == Overlay(old(client.options), ReceiverUpdate(account))
      ensures client.manipulator.account == Some(account)
      ensures client.screen.options.screenId == 0
      ensures client.isRecording == old(client.isRecording)
      ensures client.calls == old(client.calls) + InitializeCalls(env.launch)
      ensures client.recorder.recordingProcess == None && !client.recorder.isKilledOnPurpose
      ensures client.recorder.startDate == None && client.recorder.emitted == []
      ensures client.manipulator.Snapshot() == Initialized(FreshBrowser, env.launch, env.site,
                                                           client.manipulator.options.loginPage, client.manipulator.account)
      ensures client.screen.displayServer ==
        if env.screenFree then Some(XvfbProcess(XvfbArguments(client.screen.options))) else None
      ensures client.screen.killed == []
      ensures redis.subscriptions ==
        old(redis.subscriptions) + [SubChannelName(StartStreaming), SubChannelName(StopStreaming)]
      ensures redis.handlers == old(redis.handlers) + 1
      ensures redis.published == old(redis.published)
    {
      this.client := client;
      this.redis := redis;
      new;
      ReceiverOptionsAccepted(client.options, account, xvfbInstalled);
      var accepted := client.SetOptions(ReceiverUpdate(account), xvfbInstalled);
      var _ := client.Initialize(env);
      redis.Subscribe(SubChannelName(StartStreaming));
      redis.Subscribe(SubChannelName(StopStreaming));
      redis.OnMessage();
    }

    /** The client call for a command on `channel` throws; a start command
        without data throws before reaching the client. */
    predicate CallFails(channel: string, request: RedisMessage, env: Env)
      reads client, client.recorder, client.manipulator
    {
      match ParseSubChannel(channel)
      case None => false
      case Some(StartStreaming) => request.data.None? || client.StartFails(request.data.value.gameUrl, env)
      case Some(StopStreaming) => client.StopFails()
    }

    /** `messageBroker`: run the command on the client, then publish the reply
        with the call's outcome. */
    method MessageBroker(channel: string, request: RedisMessage, env: Env)
      requires client.Valid()
      modifies client`locked, client`isRecording, client`calls, client.recorder, client.manipulator
      modifies redis`published
      ensures client.Valid()
      ensures redis.published == old(redis.published) + Dispatch(channel, request, old(CallFails(channel, request, env)))
      ensures ParseSubChannel(channel) == Some(StartStreaming) && request.data.Some? ==>
        client.calls == old(client.calls) +
          StartCalls(old(client.isRecording), old(client.StopFails()),
                     old(client.manipulator.JoinFails(request.data.value.gameUrl, env.launch, env.site)),
                     env.ffmpegSaveThrows, request.data.value.gameUrl)
      ensures ParseSubChannel(channel) == Some(StartStreaming) && request.data.Some? && !old(CallFails(channel, request, env)) ==>
        client.isRecording && client.recorder.recordingProcess.Some?
      ensures ParseSubChannel(channel) == Some(StartStreaming) && request.data.Some? ==>
        var url := request.data.value.gameUrl;
        && client.isRecording
        && client.recorder.isKilledOnPurpose == (old(client.isRecording) || old(client.recorder.isKilledOnPurpose))
        && client.recorder.recordingProcess ==
             (if !old(client.StopFails()) && !old(client.manipulator.JoinFails(url, env.launch, env.site))
              then Some(FfmpegProcess(RecordingCommand(client.recorder.options, client.recorder.sinkMonitor), false))
              else if old(client.isRecording) && old(client.recorder.recordingProcess).Some?
              then Some(old(client.recorder.recordingProcess).value.(killed := true))
              else old(client.recorder.recordingProcess))
        && client.recorder.startDate == old(client.recorder.startDate)
        && client.recorder.emitted == old(client.recorder.emitted)
        && client.manipulator.Snapshot() ==
             (if old(client.StopFails()) then old(client.manipulator.Snapshot())
              else JoinedAndSetUp(old(client.manipulator.Snapshot()), url, env, client.manipulator.options.loginPage,
                                  client.manipulator.account, !old(client.StartFails(url, env))))
      ensures ParseSubChannel(channel) == Some(StopStreaming) ==>
        && client.calls == old(client.calls) + (if old(client.isRecording) then [RecorderStop] else [])
        && client.isRecording == old(client.StopFails())
        && unchanged(client.manipulator)
        && (!old(client.isRecording) ==> unchanged(client.recorder))
        && (old(client.isRecording) ==> client.recorder.isKilledOnPurpose)
        && client.recorder.recordingProcess ==
             (if old(client.isRecording) && old(client.recorder.recordingProcess).Some?
              then Some(old(client.recorder.recordingProcess).value.(killed := true))
              else old(client.recorder.recordingProcess))
        && client.recorder.startDate == old(client.recorder.startDate)
        && client.recorder.emitted == old(client.recorder.emitted)
      ensures ParseSubChannel(channel).None? || (ParseSubChannel(channel) == Some(StartStreaming) && request.data.None?) ==>
        && client.calls == old(client.calls) && client.isRecording == old(client.isRecording)
        && unchanged(client.recorder, client.manipulator)
    {
      var command := ParseSubChannel(channel);
      if command == Some(StartStreaming) {
        var hasError := false;
        if request.data.None? {
          hasError := true;
        } else {
          var r := client.StartStreamingGame(request.data.value.gameUrl, env);
          hasError := r.Fail?;
        }
        redis.Publish(Publication(PubChannelName(StreamingBegan), Response(request, hasError)));
      } else if command == Some(StopStreaming) {
        var r := client.StopStreamingGame();
        var hasError := r.Failure?;
        redis.Publish(Publication(PubChannelName(StreamingStopped), Response(request, hasError)));
      }
    }
  }

  /** Every collaborator works and the link names a campaign. */
  predicate Healthy(env: Env, gameUrl: string) {
    && env.launch == Ready
    && env.site.unreachable == {}
    && !env.site.loginFormFails
    && !env.ffmpegSaveThrows
    && CampaignId(gameUrl).Some?
  }

  /** A start command in a healthy environment on a client whose stop would
      not throw: answered without error, with the calls of a successful start. */
  method HealthyStart(rcv: RemoteCommandReceiver, request: RedisMessage, env: Env)
    requires rcv.client.Valid() && !rcv.client.StopFails() && rcv.client.manipulator.account.Some?
    requires request.data.Some? && Healthy(env, request.data.value.gameUrl)
    modifies rcv.client`locked, rcv.client`isRecording, rcv.client`calls, rcv.client.recorder, rcv.client.manipulator
    modifies rcv.redis`published
    ensures rcv.client.Valid() && rcv.client.isRecording && !rcv.client.StopFails()
    ensures rcv.client.manipulator.account == old(rcv.client.manipulator.account)
    ensures rcv.client.calls == old(rcv.client.calls)
      + StartCalls(old(rcv.client.isRecording), false, false, false, request.data.value.gameUrl)
    ensures rcv.redis.published == old(rcv.redis.published)
      + [Publication("streamingRoll20GameBegan", Response(request, false))]
  {
    var start := SubChannelName(StartStreaming);
    assert ParseSubChannel(start) == Some(StartStreaming);
    rcv.MessageBroker(start, request, env);
  }

  /** Two start commands in a row, both answered without error: the second
      stops the recording the first began, then joins and records again. */
  method TwoStartsInARow(rcv: RemoteCommandReceiver, request: RedisMessage, env: Env)
    requires rcv.client.Valid() && !rcv.client.isRecording && rcv.client.manipulator.account.Some?
    requires request.data.Some? && Healthy(env, request.data.value.gameUrl)
    modifies rcv.client`locked, rcv.client`isRecording, rcv.client`calls, rcv.client.recorder, rcv.client.manipulator
    modifies rcv.redis`published
    ensures var url := request.data.value.gameUrl;
      rcv.client.calls == old(rcv.client.calls)
        + [ManipulatorJoin(url), RecorderStart, ManipulatorSetup]
        + [RecorderStop, ManipulatorJoin(url), RecorderStart, ManipulatorSetup]
    ensures rcv.redis.published == old(rcv.redis.published)
      + [Publication("streamingRoll20GameBegan", Response(request, false))]
      + [Publication("streamingRoll20GameBegan", Response(request, false))]
    ensures rcv.client.isRecording
  {
    var url := request.data.value.gameUrl;
    HealthyStart(rcv, request, env);
    assert StartCalls(false, false, false, false, url) == [ManipulatorJoin(url), RecorderStart, ManipulatorSetup];
    HealthyStart(rcv, request, env);
    assert StartCalls(true, false, false, false, url) == [RecorderStop, ManipulatorJoin(url), RecorderStart, ManipulatorSetup];
  }

  /** A stop command while idle is answered without error and calls nothing. */
  method StopWhileIdle(rcv: RemoteCommandReceiver, request: RedisMessage, env: Env)
    requires rcv.client.Valid() && !rcv.client.isRecording
    modifies rcv.client`locked, rcv.client`isRecording, rcv.client`calls, rcv.client.recorder, rcv.client.manipulator
    modifies rcv.redis`published
    ensures rcv.client.calls == old(rcv.client.calls) && !rcv.client.isRecording
    ensures rcv.redis.published == old(rcv.redis.published)
      + [Publication("streamingRoll20GameStopped", Response(request, false))]
  {
    var stop := SubChannelName(StopStreaming);
    assert ParseSubChannel(stop) == Some(StopStreaming);
    rcv.MessageBroker(stop, request, env);
  }
}
