/** The Roll20 manipulator: a headful browser driven to log into Roll20, join
    a campaign as a player and steer the map's zoom and scroll position. The
    browser and the site are not modelled; what the site does is an oracle, a
    `Site` value, and the manipulator keeps logs of what it asked the page to
    do (pages visited, cookies set, zoom levels and scroll targets requested). */
module Manipulator {
  import opened Types
  import opened Text
  import opened ManipulatorSpec

  /** How far `initializeBrowser` gets: `launch`, then `newPage`, then `setViewport`. */
  datatype LaunchStep = LaunchFails | ViewportFails | Ready

  /** The behaviour of the site and of the host, as the manipulator observes it. */
  datatype Site = Site(
    unreachable: set<string>,         // addresses whose `page.goto` rejects
    redirects: map<string, string>,   // `page.url()` after reaching an address, where it differs
    cookieFile: Option<seq<Cookie>>,  // the cookie backup file; None when it does not exist
    now: int,                         // `Date.now()`, in milliseconds
    loginFormFails: bool,             // typing into or submitting the login form rejects
    displayedZoom: int)               // the number shown by the map's zoom control

  /** The address the page shows after reaching `address`. */
  function Landing(site: Site, address: string): string {
    if address in site.redirects then site.redirects[address] else address
  }

  /** The cookies `login` puts into the page: the whole backup, in file order. */
  function StoredCookies(site: Site): seq<Cookie> {
    site.cookieFile.GetOr([])
  }

  /** The quick path is tried: a backup exists and none of its session cookies expired. */
  predicate QuickLoginTried(site: Site) {
    site.cookieFile.Some? && !AreExpired(site.cookieFile.value, site.now)
  }

  /** The quick path succeeds: the login page, reached with the restored
      session, sends the browser elsewhere. */
  predicate QuickLogin(site: Site, loginPage: string) {
    QuickLoginTried(site) && loginPage !in site.unreachable && Landing(site, loginPage) != loginPage
  }

  /** `login` rejects, with a page open: the login page cannot be reached, or
      the form has to be used and the account is missing or the form fails. */
  predicate LoginFails(site: Site, loginPage: string, account: Option<Account>) {
    loginPage in site.unreachable || (!QuickLogin(site, loginPage) && (account.None? || site.loginFormFails))
  }

  /** The pages `login` visits: the login page, once more for the form when the
      quick path was tried, reached the page and was not redirected. */
  function LoginVisits(site: Site, loginPage: string): seq<string> {
    if QuickLoginTried(site) && loginPage !in site.unreachable && Landing(site, loginPage) == loginPage
    then [loginPage, loginPage]
    else [loginPage]
  }

  /** A session cookie of the backup that expired before now forces the form. */
  lemma ExpiredSessionCookieForcesForm(site: Site, loginPage: string, account: Option<Account>, i: int)
    requires site.cookieFile.Some? && ExpiredSessionCookieAt(site.cookieFile.value, site.now, i)
    ensures !QuickLogin(site, loginPage)
    ensures LoginFails(site, loginPage, account) <==>
              loginPage in site.unreachable || account.None? || site.loginFormFails
    ensures LoginVisits(site, loginPage) == [loginPage]
  {
    AreExpiredIff(site.cookieFile.value, site.now);
  }

  /** An unexpired backup whose session the site accepts logs in without the
      form, whatever the account and the form would do. */
  lemma FreshSessionSkipsForm(site: Site, loginPage: string, account: Option<Account>)
    requires site.cookieFile.Some?
    requires forall i :: !ExpiredSessionCookieAt(site.cookieFile.value, site.now, i)
    requires loginPage !in site.unreachable && Landing(site, loginPage) != loginPage
    ensures QuickLogin(site, loginPage) && !LoginFails(site, loginPage, account)
    ensures LoginVisits(site, loginPage) == [loginPage]
  {
    AreExpiredIff(site.cookieFile.value, site.now);
  }

  /** Joining fails after the login: the link names no campaign (the regular
      expression finds no match), the editor cannot be reached, or the editor
      bounces to the campaign page and the invitation link cannot be reached. */
  predicate NavigationFails(gameUrl: string, site: Site) {
    CampaignId(gameUrl).None?
    || EditorPage(CampaignId(gameUrl).value) in site.unreachable
    || (Contains(Landing(site, EditorPage(CampaignId(gameUrl).value)), "setcampaign") && gameUrl in site.unreachable)
  }

  /** The pages `joinGame` visits after logging in: the editor, and when the
      site sends the browser to a "setcampaign" page, the invitation link and,
      if that was reached, the editor again. A link without a campaign id
      visits nothing. */
  function CampaignVisits(gameUrl: string, site: Site): seq<string> {
    match CampaignId(gameUrl)
    case None => []
    case Some(id) =>
      var editor := EditorPage(id);
      if editor in site.unreachable || !Contains(Landing(site, editor), "setcampaign") then [editor]
      else if gameUrl in site.unreachable then [editor, gameUrl]
      else [editor, gameUrl, editor]
  }

  /** The observable state of a manipulator, field by field. */
  datatype Browser = Browser(
    isBrowserInitialized: bool,
    pageOpen: bool,
    url: string,
    currentZoomLevel: Option<int>,
    launches: nat,
    visited: seq<string>,
    cookiesSet: seq<Cookie>,
    cookieBackups: nat,
    emitted: seq<string>,
    zoomRequests: seq<int>,
    scrolls: seq<(real, real)>,
    setupRequests: nat)

  /** A manipulator before any call: no browser, no page, empty logs. */
  const FreshBrowser := Browser(false, false, "", None, 0, [], [], 0, [], [], [], 0)

  /** The state after `initializeBrowser`: one more launch; a page exists once
      `newPage` ran; the flag is raised only when the viewport was set too. */
  function Launched(b: Browser, launch: LaunchStep): Browser {
    b.(launches := b.launches + 1,
       pageOpen := b.pageOpen || launch != LaunchFails,
       isBrowserInitialized := b.isBrowserInitialized || launch == Ready)
  }

  /** The state after `login`. With no page it throws before touching
      anything; otherwise the backup's cookies are put into the page, the
      login page is visited as `LoginVisits` says, the page shows where the
      login page lands (unless it could not be reached), and a form login
      that succeeds writes one more backup. */
  function LoggedIn(b: Browser, site: Site, loginPage: string, account: Option<Account>): Browser {
    if !b.pageOpen then b
    else b.(cookiesSet := b.cookiesSet + StoredCookies(site),
            visited := b.visited + LoginVisits(site, loginPage),
            url := if loginPage in site.unreachable then b.url else Landing(site, loginPage),
            cookieBackups := b.cookieBackups +
              (if LoginFails(site, loginPage, account) || QuickLogin(site, loginPage) then 0 else 1))
  }

  /** The state after the navigation part of `joinGame`: the pages of
      `CampaignVisits`, and the editor on display once it was reached. */
  function Navigated(b: Browser, gameUrl: string, site: Site): Browser {
    b.(visited := b.visited + CampaignVisits(gameUrl, site),
       url := if CampaignId(gameUrl).None? || EditorPage(CampaignId(gameUrl).value) in site.unreachable
              then b.url
              else Landing(site, EditorPage(CampaignId(gameUrl).value)))
  }

  /** The state after `joinGame`: launch when no browser is up, stop if that
      failed; log in, stop if that failed; announce "logged"; navigate, and
      announce "joined" when that succeeded. */
  function Joined(b: Browser, gameUrl: string, launch: LaunchStep, site: Site,
                  loginPage: string, account: Option<Account>): Browser
  {
    var up := if b.isBrowserInitialized then b else Launched(b, launch);
    if !up.isBrowserInitialized then up
    else
      var logged := LoggedIn(up, site, loginPage, account);
      if LoginFails(site, loginPage, account) then logged
      else
        var there := Navigated(logged.(emitted := logged.emitted + ["logged"]), gameUrl, site);
        if NavigationFails(gameUrl, site) then there else there.(emitted := there.emitted + ["joined"])
  }

  /** What `joinGame` leaves behind, read field by field: the browser is up
      exactly when it was or the launch succeeded, and was launched only when
      it was not up; "logged" follows every login that succeeded and "joined"
      every join that did; after a failed launch the pages and cookies are
      untouched; a join that succeeds visits the login pages then the
      campaign's and ends on the editor; zoom, scroll and setup state is
      never touched. */
  lemma JoinedEffects(b: Browser, gameUrl: string, launch: LaunchStep, site: Site,
                      loginPage: string, account: Option<Account>)
    requires b.isBrowserInitialized ==> b.pageOpen
    ensures var a := Joined(b, gameUrl, launch, site, loginPage, account);
      var initFails := !b.isBrowserInitialized && launch != Ready;
      var fails := initFails || LoginFails(site, loginPage, account) || NavigationFails(gameUrl, site);
      && (a.isBrowserInitialized ==> a.pageOpen)
      && a.isBrowserInitialized == (b.isBrowserInitialized || launch == Ready)
      && a.launches == b.launches + (if b.isBrowserInitialized then 0 else 1)
      && a.emitted == b.emitted
           + (if initFails || LoginFails(site, loginPage, account) then [] else ["logged"])
           + (if fails then [] else ["joined"])
      && (initFails ==> a.visited == b.visited && a.cookiesSet == b.cookiesSet && a.url == b.url)
      && (!initFails ==> a.cookiesSet == b.cookiesSet + StoredCookies(site))
      && (!fails ==> a.visited == b.visited + LoginVisits(site, loginPage) + CampaignVisits(gameUrl, site))
      && (!fails ==> a.url == Landing(site, EditorPage(CampaignId(gameUrl).value)))
      && a.currentZoomLevel == b.currentZoomLevel && a.zoomRequests == b.zoomRequests
      && a.scrolls == b.scrolls && a.setupRequests == b.setupRequests
  {
  }

  class Roll20Manipulator {
    const account: Option<Account>
    const options: ManipulatorOptions
    var isBrowserInitialized: bool
    /** A page exists (`this.page` is set). */
    var pageOpen: bool
    /** `page.url()`. */
    var url: string
    /** The cached zoom level; None is `undefined`. */
    var currentZoomLevel: Option<int>
    /** Browser launches attempted. */
    var launches: nat
    /** Addresses reached by `page.goto`, oldest first. */
    var visited: seq<string>
    /** Cookies put into the page, oldest first. */
    var cookiesSet: seq<Cookie>
    /** Times the page's cookies were written to the backup file. */
    var cookieBackups: nat
    /** Events emitted ("logged", "joined"). */
    var emitted: seq<string>
    /** Levels handed to the map's zoom slider, oldest first. */
    var zoomRequests: seq<int>
    /** Scroll positions requested from the editor wrapper, oldest first. */
    var scrolls: seq<(real, real)>
    /** Times the streaming tweaks of the page were requested. */
    var setupRequests: nat

    /** Only a launched browser with a page counts as initialized. */
    ghost predicate Valid()
      reads this
    {
      isBrowserInitialized ==> pageOpen
    }

    /** The state of every field that changes. */
    function Snapshot(): Browser
      reads this
    {
      Browser(isBrowserInitialized, pageOpen, url, currentZoomLevel, launches, visited,
              cookiesSet, cookieBackups, emitted, zoomRequests, scrolls, setupRequests)
    }

    constructor (account: Option<Account>, o: ManipulatorOverrides)
      ensures Valid()
      ensures this.account == account && options == WithManipulatorDefaults(o)
      ensures Snapshot() == FreshBrowser
    {
      this.account := account;
      options := WithManipulatorDefaults(o);
      isBrowserInitialized := false;
      pageOpen := false;
      url := "";
      currentZoomLevel := None;
      launches := 0;
      visited := [];
      cookiesSet := [];
      cookieBackups := 0;
      emitted := [];
      zoomRequests := [];
      scrolls := [];
      setupRequests := 0;
    }

    /** `initializeBrowser` rejects. */
    predicate InitFails(launch: LaunchStep)
      reads this
    {
      !isBrowserInitialized && launch != Ready
    }

    /** `joinGame` rejects: the browser cannot be brought up, the login fails or
        the campaign cannot be reached. */
    predicate JoinFails(gameUrl: string, launch: LaunchStep, site: Site)
      reads this
    {
      InitFails(launch) || LoginFails(site, options.loginPage, account) || NavigationFails(gameUrl, site)
    }

    /** Launches the browser, opens a page and sizes its viewport; the flag is
        set only once all three succeeded. */
    method InitializeBrowser(launch: LaunchStep) returns (r: Outcome)
      modifies this`isBrowserInitialized, this`pageOpen, this`launches
      ensures launches == old(launches) + 1
      ensures r.Fail? <==> launch != Ready
      ensures r.Fail? ==> r.error == BrowserLaunchError
      ensures isBrowserInitialized == (old(isBrowserInitialized) || launch == Ready)
      ensures pageOpen == (old(pageOpen) || launch != LaunchFails)
      ensures Snapshot() == Launched(old(Snapshot()), launch)
    {
      launches := launches + 1;
      if launch == LaunchFails {
        return Fail(BrowserLaunchError);
      }
      pageOpen := true;
      if launch == ViewportFails {
        return Fail(BrowserLaunchError);
      }
      isBrowserInitialized := true;
      return Pass;
    }

    /** `page.goto(address)`; with no page it reads a property of `undefined`. */
    method Goto(address: string, site: Site) returns (r: Outcome)
      modifies this`visited, this`url
      ensures !pageOpen ==> r == Fail(TypeError) && visited == old(visited) && url == old(url)
      ensures pageOpen ==> visited == old(visited) + [address]
      ensures pageOpen ==> (r.Fail? <==> address in site.unreachable)
      ensures pageOpen && r.Fail? ==> r.error == NavigationError && url == old(url)
      ensures r.Pass? ==> url == Landing(site, address)
    {
      if !pageOpen {
        return Fail(TypeError);
      }
      visited := visited + [address];
      if address in site.unreachable {
        return Fail(NavigationError);
      }
      url := Landing(site, address);
      return Pass;
    }

    /** Logs in with the form: reach the login page, fill in the account and submit. */
    method NormalLogin(site: Site) returns (r: Outcome)
      requires pageOpen
      modifies this`visited, this`url
      ensures visited == old(visited) + [options.loginPage]
      ensures url == (if options.loginPage in site.unreachable then old(url) else Landing(site, options.loginPage))
      ensures r.Fail? <==> options.loginPage in site.unreachable || account.None? || site.loginFormFails
    {
      r := Goto(options.loginPage, site);
      if r.Fail? {
        return;
      }
      if account.None? {
        return Fail(TypeError);
      }
      if site.loginFormFails {
        return Fail(LoginFormError);
      }
    }

    /** Puts the cookies into the page one at a time, in order. */
    method SetCookies(cookies: seq<Cookie>)
      modifies this`cookiesSet
      ensures cookiesSet == old(cookiesSet) + cookies
    {
      for i := 0 to |cookies|
        invariant cookiesSet == old(cookiesSet) + cookies[..i]
      {
        cookiesSet := cookiesSet + [cookies[i]];
      }
    }

    /** Restores the cookie backup into the page; with unexpired session
        cookies, tries the login page and stops if the site redirects away;
        otherwise logs in with the form and writes a new backup. */
    method Login(site: Site) returns (r: Outcome)
      modifies this`visited, this`url, this`cookiesSet, this`cookieBackups
      ensures !pageOpen ==> r == Fail(TypeError)
      ensures pageOpen ==> (r.Fail? <==> LoginFails(site, options.loginPage, account))
      ensures cookiesSet == old(cookiesSet) + (if pageOpen then StoredCookies(site) else [])
      ensures visited == old(visited) + (if pageOpen then LoginVisits(site, options.loginPage) else [])
      ensures cookieBackups == old(cookieBackups) +
                (if pageOpen && r.Pass? && !QuickLogin(site, options.loginPage) then 1 else 0)
      ensures url == (if !pageOpen || options.loginPage in site.unreachable then old(url)
                      else Landing(site, options.loginPage))
    {
      if !pageOpen {
        return Fail(TypeError);
      }
      if site.cookieFile.Some? {
        var cookies := site.cookieFile.value;
        SetCookies(cookies);
        if !AreExpired(cookies, site.now) {
          r := Goto(options.loginPage, site);
          if r.Fail? {
            assert LoginVisits(site, options.loginPage) == [options.loginPage];
            return;
          }
          if options.loginPage != url {
            assert QuickLogin(site, options.loginPage);
            assert LoginVisits(site, options.loginPage) == [options.loginPage];
            return;
          }
        }
      }
      assert !QuickLogin(site, options.loginPage);
      assert cookiesSet == old(cookiesSet) + StoredCookies(site);
      r := NormalLogin(site);
      if r.Fail? {
        return;
      }
      cookieBackups := cookieBackups + 1;
    }

    /** Brings the browser up if needed, logs in, then opens the campaign's
        editor, going through the invitation link first when the editor
        refuses a campaign the account has not joined yet. */
    method JoinGame(gameUrl: string, launch: LaunchStep, site: Site) returns (r: Outcome)
      requires Valid()
      modifies this`isBrowserInitialized, this`pageOpen, this`launches, this`visited, this`url
      modifies this`cookiesSet, this`cookieBackups, this`emitted
      ensures Valid()
      ensures r.Fail? <==> old(JoinFails(gameUrl, launch, site))
      ensures Snapshot() == Joined(old(Snapshot()), gameUrl, launch, site, options.loginPage, account)
    {
      ghost var before := Snapshot();
      if !isBrowserInitialized {
        r := InitializeBrowser(launch);
        if r.Fail? {
          return;
        }
      }
      ghost var up := Snapshot();
      assert up == if before.isBrowserInitialized then before else Launched(before, launch);
      r := Login(site);
      assert Snapshot() == LoggedIn(up, site, options.loginPage, account);
      if r.Fail? {
        return;
      }
      emitted := emitted + ["logged"];
      ghost var logged := Snapshot();
      assert logged == LoggedIn(up, site, options.loginPage, account).(emitted := logged.emitted);
      r := OpenCampaign(gameUrl, site);
      if r.Fail? {
        return;
      }
      emitted := emitted + ["joined"];
    }

    /** The navigation part of `joinGame`: open the campaign's editor page;
        when the site sends the browser back to a "setcampaign" page, follow
        the invitation link and open the editor once more. A link without a
        campaign id throws before any navigation. */
    method OpenCampaign(gameUrl: string, site: Site) returns (r: Outcome)
      requires pageOpen
      modifies this`visited, this`url
      ensures r.Fail? <==> NavigationFails(gameUrl, site)
      ensures CampaignId(gameUrl).None? ==> r == Fail(TypeError)
      ensures visited == old(visited) + CampaignVisits(gameUrl, site)
      ensures Snapshot() == Navigated(old(Snapshot()), gameUrl, site)
    {
      var id := CampaignId(gameUrl);
      if id.None? {
        return Fail(TypeError);
      }
      var editorUrl := EditorPage(id.value);
      r := Goto(editorUrl, site);
      if r.Fail? {
        return;
      }
      if Contains(url, "setcampaign") {
        r := Goto(gameUrl, site);
        if r.Fail? {
          return;
        }
        r := Goto(editorUrl, site);
      }
    }

    /** Requests the streaming tweaks of the page (volume, camera size, hidden
        controls, side bar, custom payload); their effect on the page is not
        modelled. */
    method SetupStreamingSetting()
      modifies this`setupRequests
      ensures setupRequests == old(setupRequests) + 1
    {
      setupRequests := setupRequests + 1;
    }

    /** Answers the cached level; reads it from the page when the cache is
        unset or zero. */
    method GetZoomLevel(site: Site) returns (r: Result<int>)
      modifies this`currentZoomLevel
      ensures old(currentZoomLevel).Some? && old(currentZoomLevel).value != 0 ==>
                r == Success(old(currentZoomLevel).value) && currentZoomLevel == old(currentZoomLevel)
      ensures (old(currentZoomLevel).None? || old(currentZoomLevel).value == 0) && pageOpen ==>
                r == Success(site.displayedZoom) && currentZoomLevel == Some(site.displayedZoom)
      ensures (old(currentZoomLevel).None? || old(currentZoomLevel).value == 0) && !pageOpen ==>
                r == Failure(TypeError) && currentZoomLevel == old(currentZoomLevel)
    {
      if currentZoomLevel.None? || currentZoomLevel.value == 0 {
        if !pageOpen {
          return Failure(TypeError);
        }
        currentZoomLevel := Some(site.displayedZoom);
      }
      return Success(currentZoomLevel.value);
    }

    /** Moves the zoom slider; a level outside 10..250 is refused before the
        page is touched. */
    method ChangeZoomLevel(level: int) returns (r: Outcome)
      modifies this`zoomRequests
      ensures !ZoomLevelInRange(level) ==> r == Fail(ZoomError)
      ensures ZoomLevelInRange(level) && !pageOpen ==> r == Fail(TypeError)
      ensures r.Pass? <==> ZoomLevelInRange(level) && pageOpen
      ensures zoomRequests == old(zoomRequests) + (if r.Pass? then [level] else [])
    {
      if level < MinZoomPercentage || level > MaxZoomPercentage {
        return Fail(ZoomError);
      }
      if !pageOpen {
        return Fail(TypeError);
      }
      zoomRequests := zoomRequests + [level];
      return Pass;
    }

    /** Zooms to the largest level at which the area fits the map view (never
        below 10) and scrolls to the area's scaled corner. */
    method CoverArea(area: BoundingBox) returns (r: Outcome)
      requires PositiveArea(area)
      modifies this`zoomRequests, this`scrolls
      ensures var zoom := GetZoomForArea(area, ScreenBox(options.screenSize));
        && (r == Fail(ZoomError) <==> zoom > MaxZoomPercentage)
        && (r.Pass? <==> zoom <= MaxZoomPercentage && pageOpen)
        && (zoom <= MaxZoomPercentage && !pageOpen ==> r == Fail(TypeError))
        && zoomRequests == old(zoomRequests) + (if r.Pass? then [zoom] else [])
        && scrolls == old(scrolls) + (if r.Pass? then [ScrollTarget(area, zoom)] else [])
    {
      var zoom := GetZoomForArea(area, ScreenBox(options.screenSize));
      r := ChangeZoomLevel(zoom);
      if r.Fail? {
        return;
      }
      scrolls := scrolls + [ScrollTarget(area, zoom)];
    }
  }
}
