/** The virtual screen service: an Xvfb display server started on a display id
    when that display is free, and killed again on request. Whether Xvfb is
    installed (`checkXfvb`) and whether a display is free
    (`checkAvailableScreen`) are questions to the host, passed in as booleans. */
module Screen {
  import opened Types
  import opened Text

  datatype ScreenOptions = ScreenOptions(screenSize: ScreenSize, screenId: nat)

  /** The constructor argument; None is an absent field. */
  datatype ScreenOverrides = ScreenOverrides(screenSize: Option<ScreenSize>, screenId: Option<nat>)

  const DefaultScreenOptions: ScreenOptions := ScreenOptions(DefaultScreenSize, DefaultDisplayId)

  /** `Object.assign({}, this.options, options)` over the defaults [1280, 720] and 99. */
  function WithScreenDefaults(o: ScreenOverrides): ScreenOptions
  {
    ScreenOptions(o.screenSize.GetOr(DefaultScreenOptions.screenSize), o.screenId.GetOr(DefaultScreenOptions.screenId))
  }

  /** Supplied fields win over the defaults, and an empty argument gives
      display 99 at 1280x720. */
  lemma ScreenDefaultsMerge(m: ScreenOptions)
    ensures WithScreenDefaults(ScreenOverrides(Some(m.screenSize), Some(m.screenId))) == m
    ensures WithScreenDefaults(ScreenOverrides(None, None)) == ScreenOptions(ScreenSize(1280, 720), 99)
  {
  }

  /** The constructor throws a VirtualScreenError for a non-zero screen id on a
      host without Xvfb; display 0 is the host's own display and needs none. */
  predicate ConstructionRefused(screenId: nat, xvfbInstalled: bool) {
    screenId != 0 && !xvfbInstalled
  }

  /** `Xvfb -ac :<id> -screen 0 <width>x<height>x24` */
  function XvfbArguments(o: ScreenOptions): seq<string> {
    ["-ac", ":" + NatToString(o.screenId), "-screen", "0",
     NatToString(o.screenSize.width) + "x" + NatToString(o.screenSize.height) + "x24"]
  }

  /** The display argument names the configured display and no other. */
  lemma XvfbArgumentsNameDisplay(o: ScreenOptions, p: ScreenOptions)
    requires XvfbArguments(o)[1] == XvfbArguments(p)[1]
    ensures o.screenId == p.screenId
  {
    assert NatToString(o.screenId) == XvfbArguments(o)[1][1..];
    assert NatToString(p.screenId) == XvfbArguments(p)[1][1..];
    NatToStringInjective(o.screenId, p.screenId);
  }

  /** A spawned display server process. */
  datatype XvfbProcess = XvfbProcess(arguments: seq<string>)

  class VirtualScreen {
    const options: ScreenOptions
    /** The `displayServer` field: the process this object spawned last, until stopped. */
    var displayServer: Option<XvfbProcess>
    /** The processes sent SIGKILL, oldest first. */
    var killed: seq<XvfbProcess>

    constructor (o: ScreenOverrides, xvfbInstalled: bool)
      requires !ConstructionRefused(WithScreenDefaults(o).screenId, xvfbInstalled)
      ensures options == WithScreenDefaults(o)
      ensures displayServer == None && killed == []
    {
      options := WithScreenDefaults(o);
      displayServer := None;
      killed := [];
    }

    /** `new VirtualScreen(options)`, which throws on the refused configuration. */
    static method Create(o: ScreenOverrides, xvfbInstalled: bool) returns (r: Result<VirtualScreen>)
      ensures r.Failure? <==> ConstructionRefused(WithScreenDefaults(o).screenId, xvfbInstalled)
      ensures r.Failure? ==> r.error == VirtualScreenError
      ensures r.Success? ==> fresh(r.value) && r.value.options == WithScreenDefaults(o)
      ensures r.Success? ==> r.value.displayServer == None && r.value.killed == []
    {
      if ConstructionRefused(WithScreenDefaults(o).screenId, xvfbInstalled) {
        return Failure(VirtualScreenError);
      }
      var s := new VirtualScreen(o, xvfbInstalled);
      return Success(s);
    }

    /** Spawns Xvfb only when the display is reported free, and answers the
        configured id either way. */
    method StartVirtualScreen(screenFree: bool) returns (id: nat)
      modifies this`displayServer
      ensures id == options.screenId
      ensures displayServer == if screenFree then Some(XvfbProcess(XvfbArguments(options))) else old(displayServer)
    {
      if screenFree {
        displayServer := Some(XvfbProcess(XvfbArguments(options)));
      }
      id := options.screenId;
    }

    /** Kills and forgets the display server if there is one; otherwise does nothing. */
    method StopVirtualScreen()
      modifies this`displayServer, this`killed
      ensures displayServer == None
      ensures killed == old(killed) + (if old(displayServer).Some? then [old(displayServer).value] else [])
    {
      if displayServer.Some? {
        killed := killed + [displayServer.value];
        displayServer := None;
      }
    }
  }

  /** Stopping twice kills the server once: the second stop finds no handle. */
  method StopTwice(s: VirtualScreen)
    modifies s
    ensures s.displayServer == None
    ensures s.killed == old(s.killed) + (if old(s.displayServer).Some? then [old(s.displayServer).value] else [])
  {
    s.StopVirtualScreen();
    s.StopVirtualScreen();
  }

  /** A second start on a display that the first start occupied spawns nothing more. */
  method StartOnOccupiedDisplay(s: VirtualScreen) returns (first: nat, second: nat)
    modifies s
    ensures first == second == s.options.screenId
    ensures s.displayServer == Some(XvfbProcess(XvfbArguments(s.options)))
    ensures s.killed == old(s.killed)
  {
    first := s.StartVirtualScreen(true);
    second := s.StartVirtualScreen(false);
  }
}
