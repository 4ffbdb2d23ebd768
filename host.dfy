/** What the plugin reads from the browser, reduced to plain inputs: engine flags,
    the screen size, whether the top frame can be read, the clock, one draw of
    `Math.random()` and what `window.open` handed back. */
module Host {
  import opened Js

  /** `$.browser` flags and the `window.postMessage` capability. */
  datatype Browser = Browser(
    opera: bool,
    msie: bool,
    webkit: bool,
    mozilla: bool,
    majorVersion: int,       // parseInt($.browser.version, 10)
    hasPostMessage: bool)

  /** `screen.availWidth` and `screen.availHeight`. */
  datatype Screen = Screen(availWidth: int, availHeight: int)

  /** The window a popup is opened from: the page's own (`self`) or the top frame. */
  datatype WindowRef = SelfWindow | TopWindow

  /** The result of probing `top.document.location` from inside the page. */
  datatype TopAccess =
    | TopIsSelf      // the page is not framed
    | TopReadable    // framed, and the top frame's location could be read
    | TopForbidden   // framed, and reading it threw (cross-origin)

  /** A window object returned by `window.open`. */
  datatype Handle = Handle(id: nat)

  /** `Math.random()` yields `random / RandomScale`, a multiple of 2^-53 in [0, 1). */
  const RandomScale: nat := 0x20_0000_0000_0000

  /** Everything one call into the plugin reads from the host. */
  datatype Inputs = Inputs(
    browser: Browser,
    screen: Screen,
    top: TopAccess,
    now: int,                 // (new Date()).getTime(), in milliseconds
    random: nat,              // the draw behind Math.random()
    openResult: Option<Handle>)
  {
    predicate WellFormed() {
      random < RandomScale
    }
  }
}
