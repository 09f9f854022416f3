/** The pure helpers of the Roll20 manipulator service: the zoom arithmetic, the
    zoom range guard, the cookie expiry test, the campaign id taken from an
    invitation link, the editor URL, and the defaults of its options. */
module ManipulatorSpec {
  import opened Types
  import opened Text

  // ---------------------------------------------------------------------------
  // Zoom

  const MinZoomPercentage: int := 10
  const MaxZoomPercentage: int := 250

  function MinReal(a: real, b: real): real {
    if a <= b then a else b
  }

  function MaxReal(a: real, b: real): real {
    if a >= b then a else b
  }

  /** `changeZoomLevel` accepts exactly the levels 10..250, both bounds included. */
  predicate ZoomLevelInRange(level: int) {
    MinZoomPercentage <= level <= MaxZoomPercentage
  }

  predicate PositiveArea(area: BoundingBox) {
    area.width > 0.0 && area.height > 0.0
  }

  /** The zoom percentage, before clamping and rounding, at which `area` exactly
      fills the tighter of the two screen dimensions. */
  function FitRatio(area: BoundingBox, screen: BoundingBox): real
    requires PositiveArea(area)
  {
    MinReal(screen.height / area.height * 100.0, screen.width / area.width * 100.0)
  }

  /** `getZoomForArea`: floor(max(min(minZoomHeight, minZoomWidth), 10)). */
  function GetZoomForArea(area: BoundingBox, screen: BoundingBox): (zoom: int)
    requires PositiveArea(area)
    ensures zoom >= MinZoomPercentage
  {
    MaxReal(FitRatio(area, screen), MinZoomPercentage as real).Floor
  }

  /** At `zoom` percent the screen shows a region of `screen / (zoom / 100)`
      page pixels; the area fits when that region is at least as large. */
  predicate Fits(area: BoundingBox, screen: BoundingBox, zoom: int)
    requires zoom > 0
  {
    && screen.width / (zoom as real / 100.0) >= area.width
    && screen.height / (zoom as real / 100.0) >= area.height
  }

  lemma FitsDimension(s: real, a: real, k: int)
    requires a > 0.0 && k > 0
    ensures s / (k as real / 100.0) >= a <==> k as real <= s / a * 100.0
  {
    var q := k as real / 100.0;
    assert q > 0.0;
    assert s / q * q == s;
    assert s / a * a == s;
    if s / q >= a {
      assert s >= a * q by {
        assert s / q * q >= a * q;
      }
      assert s / a >= q by {
        assert s / a * a >= q * a;
      }
    } else {
      assert s < a * q by {
        assert s / q * q < a * q;
      }
      assert s / a < q by {
        assert s / a * a < q * a;
      }
    }
  }

  /** For every zoom level the guard accepts from below, the area fits exactly
      when the level does not exceed the computed one, and the area can fit at
      all: the computed level is the largest integer level that still shows
      the whole area. */
  lemma FitsIff(area: BoundingBox, screen: BoundingBox, zoom: int)
    requires PositiveArea(area) && zoom >= MinZoomPercentage
    ensures Fits(area, screen, zoom) <==>
              FitRatio(area, screen) >= MinZoomPercentage as real && zoom <= GetZoomForArea(area, screen)
  {
    FitsDimension(screen.width, area.width, zoom);
    FitsDimension(screen.height, area.height, zoom);
  }

  /** The property the zoom test checks: when the area can be shown at 10% or
      more, it is shown whole at the computed level, and one level more is too
      much. */
  lemma ZoomForAreaCovers(area: BoundingBox, screen: BoundingBox)
    requires PositiveArea(area) && FitRatio(area, screen) >= MinZoomPercentage as real
    ensures Fits(area, screen, GetZoomForArea(area, screen))
    ensures !Fits(area, screen, GetZoomForArea(area, screen) + 1)
  {
    FitsIff(area, screen, GetZoomForArea(area, screen));
    FitsIff(area, screen, GetZoomForArea(area, screen) + 1);
  }

  /** The coordinates of src/services/roll20-manipulator.spec.ts:153-174. */
  lemma ZoomForAreaSample()
    ensures GetZoomForArea(BoundingBox(152.0, 516.0, 1003.0, 513.0), BoundingBox(0.0, 0.0, 1200.0, 690.0)) == 119
    ensures Fits(BoundingBox(152.0, 516.0, 1003.0, 513.0), BoundingBox(0.0, 0.0, 1200.0, 690.0), 119)
  {
    var area := BoundingBox(152.0, 516.0, 1003.0, 513.0);
    var screen := BoundingBox(0.0, 0.0, 1200.0, 690.0);
    assert FitRatio(area, screen) == 1200.0 / 1003.0 * 100.0;
    assert 119.0 <= 1200.0 / 1003.0 * 100.0 < 120.0;
    ZoomForAreaCovers(area, screen);
  }

  // ---------------------------------------------------------------------------
  // coverArea arithmetic

  /** The part of the window that shows the map: the screen minus 30 pixels of
      width and 80 of height. */
  function ScreenBox(size: ScreenSize): BoundingBox {
    BoundingBox(0.0, 0.0, size.width as real - 30.0, size.height as real - 80.0)
  }

  /** The scroll position coverArea moves to: the area's corner scaled by the zoom. */
  function ScrollTarget(area: BoundingBox, zoom: int): (real, real) {
    (area.x * (zoom as real / 100.0), area.y * (zoom as real / 100.0))
  }

  /** coverArea's zoom change is refused exactly when the computed level
      exceeds 250, that is, exactly when the area is so small that the map part
      of the window would still show it whole one level above the maximum. */
  lemma CoverAreaZoomRefused(area: BoundingBox, size: ScreenSize)
    requires PositiveArea(area)
    ensures !ZoomLevelInRange(GetZoomForArea(area, ScreenBox(size))) <==>
              GetZoomForArea(area, ScreenBox(size)) > MaxZoomPercentage
    ensures !ZoomLevelInRange(GetZoomForArea(area, ScreenBox(size))) <==>
              Fits(area, ScreenBox(size), MaxZoomPercentage + 1)
  {
    FitsIff(area, ScreenBox(size), MaxZoomPercentage + 1);
  }

  /** The levels the coverArea tests expect on a 1280x720 window. */
  lemma CoverAreaSamples()
    ensures GetZoomForArea(BoundingBox(141.0, 596.0, 995.0, 713.0), ScreenBox(DefaultScreenSize)) == 89
    ensures GetZoomForArea(BoundingBox(126.0, 625.0, 996.0, 486.0), ScreenBox(DefaultScreenSize)) == 125
  {
    var box := ScreenBox(DefaultScreenSize);
    assert box == BoundingBox(0.0, 0.0, 1250.0, 640.0);
    var a1 := BoundingBox(141.0, 596.0, 995.0, 713.0);
    assert FitRatio(a1, box) == 640.0 / 713.0 * 100.0;
    assert 89.0 <= 640.0 / 713.0 * 100.0 < 90.0;
    var a2 := BoundingBox(126.0, 625.0, 996.0, 486.0);
    assert FitRatio(a2, box) == 1250.0 / 996.0 * 100.0;
    assert 125.0 <= 1250.0 / 996.0 * 100.0 < 126.0;
  }

  // ---------------------------------------------------------------------------
  // Cookies

  /** The cookies areExpired looks at: those whose name mentions "roll20" or "session". */
  predicate IsSessionCookie(c: Cookie) {
    Contains(c.name, "roll20") || Contains(c.name, "session")
  }

  /** `.filter(c => c.name.includes("roll20") || c.name.includes("session"))` */
  function SessionCookies(cookies: seq<Cookie>): seq<Cookie>
    decreases |cookies|
  {
    if cookies == [] then []
    else if IsSessionCookie(cookies[0]) then [cookies[0]] + SessionCookies(cookies[1..])
    else SessionCookies(cookies[1..])
  }

  /** `.map(c => c.expires)` */
  function ExpiryDates(cookies: seq<Cookie>): seq<real>
    decreases |cookies|
  {
    if cookies == [] then [] else [cookies[0].expires] + ExpiryDates(cookies[1..])
  }

  /** `.some(expires => expires * 1000 < now)`, with `now` in milliseconds. */
  function SomeBefore(dates: seq<real>, now: int): bool
    decreases |dates|
  {
    dates != [] && (dates[0] * 1000.0 < now as real || SomeBefore(dates[1..], now))
  }

  /** `areExpired`, with `Date.now()` passed in as `now`. */
  function AreExpired(cookies: seq<Cookie>, now: int): bool {
    SomeBefore(ExpiryDates(SessionCookies(cookies)), now)
  }

  predicate ExpiredSessionCookieAt(cookies: seq<Cookie>, now: int, i: int) {
    0 <= i < |cookies| && IsSessionCookie(cookies[i]) && cookies[i].expires * 1000.0 < now as real
  }

  lemma {:induction false} AreExpiredFront(cookies: seq<Cookie>, now: int)
    requires cookies != []
    ensures AreExpired(cookies, now) <==>
              (IsSessionCookie(cookies[0]) && cookies[0].expires * 1000.0 < now as real)
              || AreExpired(cookies[1..], now)
  {
    var rest := ExpiryDates(SessionCookies(cookies[1..]));
    if IsSessionCookie(cookies[0]) {
      var s := [cookies[0]] + SessionCookies(cookies[1..]);
      assert s[0] == cookies[0] && s[1..] == SessionCookies(cookies[1..]);
      assert ExpiryDates(s) == [cookies[0].expires] + rest;
      assert ([cookies[0].expires] + rest)[1..] == rest;
    }
  }

  /** areExpired holds exactly when one of the session cookies expired before
      `now`; all other cookies are ignored, and no cookies means not expired. */
  lemma {:induction false} AreExpiredIff(cookies: seq<Cookie>, now: int)
    ensures AreExpired(cookies, now) <==> exists i :: ExpiredSessionCookieAt(cookies, now, i)
    decreases |cookies|
  {
    if cookies != [] {
      AreExpiredFront(cookies, now);
      AreExpiredIff(cookies[1..], now);
      if IsSessionCookie(cookies[0]) && cookies[0].expires * 1000.0 < now as real {
        assert ExpiredSessionCookieAt(cookies, now, 0);
      }
      if exists i :: ExpiredSessionCookieAt(cookies[1..], now, i) {
        var i :| ExpiredSessionCookieAt(cookies[1..], now, i);
        assert ExpiredSessionCookieAt(cookies, now, i + 1);
      }
      if exists i :: ExpiredSessionCookieAt(cookies, now, i) {
        var i :| ExpiredSessionCookieAt(cookies, now, i);
        if i > 0 {
          assert ExpiredSessionCookieAt(cookies[1..], now, i - 1);
        } else {
          assert IsSessionCookie(cookies[0]) && cookies[0].expires * 1000.0 < now as real;
        }
      }
    }
  }

  // ---------------------------------------------------------------------------
  // Campaign id and editor URL

  /** A match of `/\/(\d+)/` can start at `i`: a slash followed by a digit. */
  predicate SlashDigitAt(s: string, i: int) {
    0 <= i && i + 1 < |s| && s[i] == '/' && IsDigit(s[i + 1])
  }

  /** The leftmost match start at or after `i`, scanning like the regex engine. */
  function FirstSlashDigitFrom(s: string, i: nat): (r: Option<nat>)
    ensures r.Some? ==> i <= r.value && SlashDigitAt(s, r.value)
    ensures r.Some? ==> forall k :: i <= k < r.value ==> !SlashDigitAt(s, k)
    ensures r.None? ==> forall k :: i <= k ==> !SlashDigitAt(s, k)
    decreases |s| - i
  {
    if i + 1 >= |s| then None
    else if SlashDigitAt(s, i) then Some(i)
    else FirstSlashDigitFrom(s, i + 1)
  }

  /** The end of the maximal run of digits starting at `i` (the greedy `\d+`). */
  function DigitRunEnd(s: string, i: nat): (e: nat)
    requires i <= |s|
    ensures i <= e <= |s|
    ensures forall k :: i <= k < e ==> IsDigit(s[k])
    ensures e == |s| || !IsDigit(s[e])
    decreases |s| - i
  {
    if i < |s| && IsDigit(s[i]) then DigitRunEnd(s, i + 1) else i
  }

  /** `gameUrl.match(/\/(\d+)/)[1]`; None when there is no match (where the
      source then reads index 1 of `null` and throws a TypeError). */
  function CampaignId(url: string): (id: Option<string>)
    ensures id.None? <==> forall k :: !SlashDigitAt(url, k)
    ensures id.Some? ==> exists i :: IsCampaignIdAt(url, i, id.value)
  {
    match FirstSlashDigitFrom(url, 0)
    case None => None
    case Some(i) =>
      var e := DigitRunEnd(url, i + 1);
      assert IsCampaignIdAt(url, i, url[i + 1..e]);
      Some(url[i + 1..e])
  }

  /** `id` is the capture of the leftmost match, which starts at `i`: no slash
      followed by a digit before `i`, and `id` is the whole run of digits after the slash. */
  predicate IsCampaignIdAt(url: string, i: int, id: string) {
    && SlashDigitAt(url, i)
    && (forall k :: 0 <= k < i ==> !SlashDigitAt(url, k))
    && |id| > 0 && AllDigits(id)
    && i + 1 + |id| <= |url| && url[i + 1..i + 1 + |id|] == id
    && (i + 1 + |id| == |url| || !IsDigit(url[i + 1 + |id|]))
  }

  lemma {:induction false} LeftmostSlashDigit(s: string, i: nat, j: nat)
    requires i <= j && SlashDigitAt(s, j)
    requires forall k :: i <= k < j ==> !SlashDigitAt(s, k)
    ensures FirstSlashDigitFrom(s, i) == Some(j)
    decreases j - i
  {
    if i < j {
      LeftmostSlashDigit(s, i + 1, j);
    }
  }

  lemma {:induction false} DigitRunStops(s: string, i: nat, e: nat)
    requires i <= e <= |s| && forall k :: i <= k < e ==> IsDigit(s[k])
    requires e == |s| || !IsDigit(s[e])
    ensures DigitRunEnd(s, i) == e
    decreases e - i
  {
    if i < e {
      DigitRunStops(s, i + 1, e);
    }
  }

  /** The id is the digit run after the leftmost slash-digit match. */
  lemma {:induction false} CampaignIdOfRun(url: string, i: nat, e: nat)
    requires FirstSlashDigitFrom(url, 0) == Some(i)
    requires i + 1 <= e <= |url| && forall k :: i + 1 <= k < e ==> IsDigit(url[k])
    requires e == |url| || !IsDigit(url[e])
    ensures CampaignId(url) == Some(url[i + 1..e])
  {
    DigitRunStops(url, i + 1, e);
  }

  const EditorPagePrefix: string := "https://app.roll20.net/editor/setcampaign/"

  /** The default `editorPage` option. */
  function EditorPage(campaignId: string): string {
    EditorPagePrefix + campaignId
  }

  /** Reading the campaign id back out of an editor URL gives the id it was
      built from, for every id the regex can produce. */
  lemma EditorPageCampaignId(id: string)
    requires |id| > 0 && AllDigits(id)
    ensures CampaignId(EditorPage(id)) == Some(id)
  {
    var url := EditorPage(id);
    var p := EditorPagePrefix;
    EditorPagePrefixSlashes();
    forall k | 0 <= k < 41
      ensures !SlashDigitAt(url, k)
    {
      assert url[k] == p[k] && url[k + 1] == p[k + 1];
    }
    assert url[41] == '/' && url[42] == id[0];
    LeftmostSlashDigit(url, 0, 41);
    forall k | 42 <= k < |url|
      ensures IsDigit(url[k])
    {
      assert url[k] == id[k - 42];
    }
    CampaignIdOfRun(url, 41, |url|);
    assert url[42..|url|] == id;
  }

  /** Within the editor prefix, only its last character is a slash that can
      be followed by a digit. */
  lemma EditorPagePrefixSlashes()
    ensures |EditorPagePrefix| == 42 && EditorPagePrefix[41] == '/'
    ensures forall k :: 0 <= k < 41 ==> EditorPagePrefix[k] != '/' || !IsDigit(EditorPagePrefix[k + 1])
  {
    var p := EditorPagePrefix;
    assert forall k :: 0 <= k < 41 && p[k] == '/' ==> k == 6 || k == 7 || k == 22 || k == 29;
    assert p[7] == '/' && p[8] == 'a' && p[23] == 'e' && p[30] == 's';
  }

  /** The editor URL mentions "setcampaign", so a page that stays on it is taken
      as a game not joined yet. */
  lemma EditorPageMentionsSetcampaign(id: string)
    ensures Contains(EditorPage(id), "setcampaign")
  {
    assert EditorPage(id) == "https://app.roll20.net/editor/" + "setcampaign" + ("/" + id);
    ContainsInfix("https://app.roll20.net/editor/", "setcampaign", "/" + id);
  }

  const SampleGameLink: string := "https://app.roll20.net/join/2883710/mEiLZw"

  lemma SampleGameLinkFirstMatch()
    ensures FirstSlashDigitFrom(SampleGameLink, 0) == Some(27)
  {
    var u := SampleGameLink;
    assert forall k :: 0 <= k < 27 && u[k] == '/' ==> k == 6 || k == 7 || k == 22;
    assert u[7] == '/' && u[8] == 'a' && u[23] == 'j' && u[27] == '/' && u[28] == '2';
    LeftmostSlashDigit(u, 0, 27);
  }

  lemma SampleGameLinkDigits()
    ensures |SampleGameLink| > 35
    ensures forall k :: 28 <= k < 35 ==> IsDigit(SampleGameLink[k])
    ensures !IsDigit(SampleGameLink[35])
    ensures SampleGameLink[28..35] == "2883710"
  {
  }

  /** The game link of the receiver's tests names campaign 2883710. */
  lemma SampleGameLinkCampaignId()
    ensures CampaignId(SampleGameLink) == Some("2883710")
  {
    SampleGameLinkFirstMatch();
    SampleGameLinkDigits();
    CampaignIdOfRun(SampleGameLink, 27, 35);
  }

  // ---------------------------------------------------------------------------
  // Options

  /** The manipulator's options once merged (the callback option `editorPage`
      is fixed to EditorPage). */
  datatype ManipulatorOptions = ManipulatorOptions(
    screenSize: ScreenSize,
    virtualDisplayId: nat,
    baseUrl: string,
    loginPage: string,
    roll20Id: int,
    headless: bool,
    sinkName: string,
    defaultVolume: int,
    customPayloadUrl: Option<string>)

  /** The options argument of the constructor; None is an absent field. */
  datatype ManipulatorOverrides = ManipulatorOverrides(
    screenSize: Option<ScreenSize>,
    virtualDisplayId: Option<nat>,
    baseUrl: Option<string>,
    loginPage: Option<string>,
    roll20Id: Option<int>,
    headless: Option<bool>,
    sinkName: Option<string>,
    defaultVolume: Option<int>,
    customPayloadUrl: Option<string>)

  const LoginPage: string := "https://app.roll20.net/sessions/new"

  const DefaultManipulatorOptions: ManipulatorOptions := ManipulatorOptions(
    DefaultScreenSize, DefaultDisplayId, "https://roll20.net/", LoginPage,
    2970803, false, DefaultSinkName, 35, None)

  /** `Object.assign({}, defaultParameters, options)`. */
  function WithManipulatorDefaults(o: ManipulatorOverrides): ManipulatorOptions {
    var d := DefaultManipulatorOptions;
    ManipulatorOptions(
      o.screenSize.GetOr(d.screenSize),
      o.virtualDisplayId.GetOr(d.virtualDisplayId),
      o.baseUrl.GetOr(d.baseUrl),
      o.loginPage.GetOr(d.loginPage),
      o.roll20Id.GetOr(d.roll20Id),
      o.headless.GetOr(d.headless),
      o.sinkName.GetOr(d.sinkName),
      o.defaultVolume.GetOr(d.defaultVolume),
      if o.customPayloadUrl.Some? then o.customPayloadUrl else d.customPayloadUrl)
  }

  /** The options a fully specified argument describes. */
  function AllSupplied(m: ManipulatorOptions): ManipulatorOverrides {
    ManipulatorOverrides(
      Some(m.screenSize), Some(m.virtualDisplayId), Some(m.baseUrl), Some(m.loginPage),
      Some(m.roll20Id), Some(m.headless), Some(m.sinkName), Some(m.defaultVolume),
      m.customPayloadUrl)
  }

  /** Supplied fields win over the defaults, and an empty argument gives the
      defaults, among them display 99, account id 2970803 and volume 35. */
  lemma ManipulatorDefaultsMerge(m: ManipulatorOptions)
    ensures WithManipulatorDefaults(AllSupplied(m)) == m
    ensures var e := WithManipulatorDefaults(ManipulatorOverrides(None, None, None, None, None, None, None, None, None));
            e == DefaultManipulatorOptions &&
            e.virtualDisplayId == 99 && e.roll20Id == 2970803 && e.defaultVolume == 35
  {
  }
}
