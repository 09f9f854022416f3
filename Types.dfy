/** Value types shared by the services and components. */
module Types {

  datatype Option<+T> = None | Some(value: T) {
    /** `options.f ?? default`, the value Object.assign keeps for an absent field. */
    function GetOr(default: T): T {
      if Some? then value else default
    }
  }

  /** The exceptions the services and components raise. */
  datatype Error =
    | TypeError                 // a property read on `undefined` (a missing page, process or regex match)
    | ZoomError                 // zoom level outside 10..250
    | InvalidClientStateError   // coverArea while not recording
    | VirtualScreenError        // non-zero screen id without Xvfb
    | NavigationError           // page.goto rejected
    | LoginFormError            // typing into or submitting the login form failed
    | BrowserLaunchError        // puppeteer could not launch the browser
    | FfmpegError               // ffmpeg command raised synchronously
    | UnhandledErrorEvent       // an "error" event emitted with no listener: Node throws it, ending the service

  /** Completion of an operation that returns nothing: resolved, or rejected with an error. */
  datatype Outcome = Pass | Fail(error: Error)

  /** Completion of an operation that returns a value. */
  datatype Result<+T> = Success(value: T) | Failure(error: Error)

  /** `AccurateTime = [number, number]`, the pair returned by `process.hrtime()`:
      opaque to the core, only stored and handed back. */
  datatype AccurateTime = AccurateTime(seconds: int, nanoseconds: int)

  /** puppeteer's BoundingBox, in CSS pixels. */
  datatype BoundingBox = BoundingBox(x: real, y: real, width: real, height: real)

  /** `screenSize: [number, number]`, width first. */
  datatype ScreenSize = ScreenSize(width: nat, height: nat)

  datatype Account = Account(login: string, password: string)

  /** The part of a puppeteer Cookie the core looks at; `expires` is in seconds
      since the epoch. */
  datatype Cookie = Cookie(name: string, value: string, expires: real)

  const DefaultScreenSize: ScreenSize := ScreenSize(1280, 720)
  const DefaultDisplayId: nat := 99
  const DefaultSinkName: string := "roll20Sink"
  const DefaultFps: nat := 21
}
