# jquery-popunder, modelled in Dafny

jquery-popunder is a jQuery plugin that opens a "popunder": a browser window opened
from a user action and at once pushed behind the page that opened it. Under its
browser calls sits a small stateful kernel, `$.popunder.helper`, and this project
models that kernel:

- the dispatcher `$.popunder`, which shifts the next `[url, options]` request off the
  caller's array and opens it, or only re-runs the background step when the array is
  empty;
- `open` and its gates: the option defaults, the Opera check, the cookie throttle, and
  then the window creation, `lastWindow`, `counter` and `moveToBackground`;
- `cookieCheck`, the once-per-interval throttle kept in one cookie that concatenates the
  URLs already opened;
- `rand`, the cookie and window names;
- `getOptions`, the window-feature string;
- `timeout` and `handleMessage`, the deferred-call queue driven by a self-addressed
  `'popunder'` message.

The browser is reduced to inputs (`Host.Inputs`): engine flags, the screen size,
whether the top frame is readable, the clock, one draw of `Math.random()` as an
integer `r` with `Math.random() = r / 2^53`, and the handle `window.open` returned (or
none). The cookie store is a class over a map from names to cookies with an expiry.
What the helper does to the browser (windows opened, focus sequences, callbacks
queued and run) is written to a ghost trace. `Helper.Valid()` ties the helper's fields
to that trace: `counter` is the number of windows opened, `lastWindow` is the latest
handle `window.open` returned, and the queue holds exactly the callbacks queued and
not yet taken, in order.

Modules: `Decimal` (integers as text), `Js` (truthiness, `||`, `String(v)`,
`Number(v)`, `indexOf`), `Host`, `Names` (`rand`), `Throttle` (`cookieCheck`'s rule and
the cookie store), `Features` (`getOptions`), `PopunderHelper` (the helper object)
and `Popunder` (the dispatcher, the bound handler and end-to-end scenarios over fresh
objects).

Behaviour of the code worth knowing, all modelled as written:

- `disableOpera`: `options.disableOpera || true` turns `false` into `true`, and the test
  is `=== true`. So `false` cannot switch the Opera check off. Only a truthy value other
  than `true` (such as `1`) does (`PopunderHelper.OperaGate`).
- Cookie name: `open` sets `options.cookie` to `'puCookie'` when it is falsy, so the
  throttle cookie is called `puCookie` unless the caller names it. `pu_` only comes from
  `rand` called with a falsy name.
- The throttle cookie is written back in every branch, the suppressing one included,
  and its expiry is renewed each time.
- An empty stored value is falsy, so it counts as no cookie. An empty URL therefore
  never throttles itself (`Throttle.RepeatSuppressed`).
- `rand(name, true)` joins text only for a string name. A truthy number or `true` is
  added to the random number, so `{cookie: 5}` names the window with the digits of
  5 + the draw (`Names.RandNumeric`).
- Two URLs accumulate when the second one does not occur in the first and the first is
  non-empty (`Throttle.DistinctUrlsAccumulate`).
- The feature string handed to `window.open` is only `toolbar=<value>` (see Findings).
  The window-open record carries that string, as written.

## Model

| member | source | states |
|---|---|---|
| `Js.Or` | jquery.popunder.js:144-145 | `a \|\| b` is truthy iff either operand is; it is `a` when `a` is truthy and `b` otherwise (so `undefined \|\| false` is `false`) |
| `Js.OrChain` | jquery.popunder.js:210-221 | an `\|\|`-chain yields its first truthy operand (no earlier operand truthy), or the last operand when none is truthy |
| `Js.IndexOf` | jquery.popunder.js:95 | `indexOf` is -1 exactly when the needle does not occur; otherwise it is the first position where it occurs |
| `Decimal.ParseFromNat` | jquery.popunder.js:119 | the text `String(n)` writes for a non-negative integer reads back as `n` |
| `Decimal.FromNatParse` | jquery.popunder.js:119 | a canonical digit string (no leading zero) is exactly the text `String` writes for the number it denotes |
| `Names.RandomSuffix` | jquery.popunder.js:119 | `floor(89999999 * r + 10000000)` for r in [0, 1) lies in [10000000, 99999998] |
| `Names.RandFixed` | jquery.popunder.js:117-119 | `rand(name, false)` is `name` for a non-empty string name, `'pu_'` for a falsy one, and does not depend on the random draw |
| `Names.RandSuffixed` | jquery.popunder.js:117-119 | with any other second argument and a string or falsy name, the result is the prefix followed by exactly eight decimal digits, which denote a number in [10000000, 99999998] |
| `Names.RandNumeric` | jquery.popunder.js:118-119 | with any other second argument and a truthy number or `true` as the name, `+` adds instead of joining: the result is the decimal text of name + random number (`true` counting as 1), so no prefix is left in it |
| `Throttle.CheckCases` | jquery.popunder.js:92-100 | no (or empty) cookie: store the URL, pass. A cookie without the URL as a substring: append it, pass. A cookie with it: keep the value, suppress. Suppress iff the cookie is non-empty and holds the URL |
| `Throttle.CheckRemembers` | jquery.popunder.js:92-102 | the value written back always holds the URL, and starts with the value stored before |
| `Throttle.RepeatSuppressed` | jquery.popunder.js:92-100 | a second check of the same URL against what the first stored suppresses, unless the URL is empty and nothing was stored |
| `Throttle.DistinctUrlsAccumulate` | jquery.popunder.js:92-97 | a non-empty URL and then a URL not inside it both pass, and the cookie becomes their concatenation, which holds both |
| `Throttle.DistinctStepsAccumulate` | jquery.popunder.js:88-104 | on the store, starting from no cookie, two checks within the block time of a non-empty URL and then a URL not inside it both pass, and the stored value becomes their concatenation |
| `Throttle.SuppressedWithinBlocktime` | jquery.popunder.js:88-104 | after a check at time `now` with block time `h` hours, the same URL is suppressed at time `later` iff `later < now + h * 3600000` |
| `Throttle.CookieJar.Set` | jquery.popunder.js:102-104 | setting a cookie replaces that name's value and expiry and leaves every other cookie alone |
| `Features.GetOptions` | jquery.popunder.js:209-222 | the feature string is exactly `'toolbar='` followed by the toolbar option as text, and nothing else |
| `Features.FeatureStringHasEveryField` | jquery.popunder.js:209-222 | the corrected feature string holds `key=value` for each of the twelve features: the caller's value when truthy, else that feature's own fallback |
| `Features.GetOptionsDropsFallbacks` | jquery.popunder.js:210-221 | for `{toolbar: '1'}` the source's string is "toolbar=1" with no scrollbars feature, while the corrected string carries "scrollbars=1" |
| `PopunderHelper.OperaGate` | jquery.popunder.js:139-142 | on Opera, `open` stops iff `disableOpera` is falsy or exactly `true`, and `false` cannot switch the check off |
| `PopunderHelper.DefaultsApplied` | jquery.popunder.js:139-145 | the defaults make `disableOpera` and `cookie` truthy, give `blocktime` `false` and `cookie` `'puCookie'` when falsy, keep truthy values, and leave the window features alone |
| `PopunderHelper.GateClosesExactly` | jquery.popunder.js:139-148 | `open` stops iff Opera is blocked, or a truthy `blocktime`, a cookie store and a live cookie holding the URL come together; the store changes only when the throttle ran |
| `PopunderHelper.Helper.constructor` | jquery.popunder.js:45-50 | the helper starts with `_top` = self, no last window, an empty queue and counter 0 |
| `PopunderHelper.Helper.Fifo` | jquery.popunder.js:229-256 | callbacks leave the queue in the order they entered it: those taken are a prefix of those queued, and the queue is the rest |
| `PopunderHelper.Helper.CookieCheck` | jquery.popunder.js:87-107 | the store becomes the old store with the cookie `rand(options.cookie, false)` set to the throttle's value and an expiry `blocktime` hours on; the result is the throttle's verdict |
| `PopunderHelper.Helper.Open` | jquery.popunder.js:130-156 | `_top` becomes the top frame when it is readable. The options receive their defaults. The result is false, with counter, last window and trace unchanged, exactly when a gate closes. Otherwise the counter goes up by one, `lastWindow` becomes the new handle (or stays when there is none), one window is opened from `_top` under `rand(cookie, true)` with the `getOptions` string, and the focus sequence follows |
| `PopunderHelper.Helper.Gate` | jquery.popunder.js:139-148 | the defaults written into the options, and the pass/stop outcome with the cookie store's change, as `GateOutcome` states |
| `PopunderHelper.Helper.Launch` | jquery.popunder.js:150-155 | counter + 1, `lastWindow` = result or previous, one window-open record with the URL, `rand(cookie, true)` and the `getOptions` string, then the background step |
| `PopunderHelper.Helper.MoveToBackground` | jquery.popunder.js:161-190 | nothing at all when no window is tracked; otherwise one focus sequence on the tracked window, and no field changes |
| `PopunderHelper.Helper.BindEvents` | jquery.popunder.js:61-77 | binding handlers leaves the helper's fields unchanged and only records the binding |
| `PopunderHelper.Helper.Timeout` | jquery.popunder.js:229-240 | IE runs the callback at once. Otherwise, with `postMessage`, it is appended at the back of the queue and a message is posted. Otherwise a zero-delay timer is set |
| `PopunderHelper.Helper.HandleMessage` | jquery.popunder.js:247-256 | only the page's own `'popunder'` message with a non-empty queue takes and runs a callback, and that callback is the oldest; otherwise the queue is unchanged |
| `Popunder.Popunder` | jquery.popunder.js:26-42 | with a form or trigger: bind only. Empty array: only the background step. In both cases `_top` and the cookie store are unchanged, and binding also leaves the first request's options alone. Otherwise the array loses exactly its first element, and that request is opened with `p[1] \|\| {}`. `_top` becomes the top frame when it is readable, the caller's `p[1]` receives `open`'s defaults, and the gate outcome and window record are those `open` gives |
| `Popunder.FireBoundHandler` | jquery.popunder.js:62-66 | one bound event dispatches twice, consuming up to two requests and opening at most two windows |
| `Popunder.SameUrlTwice` | jquery.popunder.js:144-148 | with a block time of `h` hours, a URL opens, and opening it again opens iff `h` hours have passed |
| `Popunder.DistinctUrlsBothOpen` | jquery.popunder.js:92-97 | two URLs, the second not inside the first, both open within the block time, and the cookie ends up as their concatenation |
| `Popunder.OperaNeverOpens` | jquery.popunder.js:139-142 | on Opera, with `disableOpera` falsy or `true`, `open` returns false and the counter stays 0 |
| `Popunder.DeferredInOrder` | jquery.popunder.js:229-256 | two deferred calls run in scheduling order, one per own `'popunder'` message; a foreign message runs nothing, and a third message finds the queue empty |

## Left out

- Window creation, `blur`/`focus`, the `init` focus hook set on the popup, `opener`
  refocusing and `backgroundHack` (jquery.popunder.js:164-199): these are browser side
  effects. They appear as one `FocusSequence` record, which notes whether the IE
  branch ran.
- Browser sniffing (`$.browser.*`, `mozPaintCount`, `webkitGetUserMedia`) and
  `screen`: these are boolean and integer inputs.
- The top-frame probe (jquery.popunder.js:131-137): cross-origin behaviour is an input,
  `Host.TopAccess`.
- The jQuery cookies library: JSON decoding of stored values, paths and domains are
  left out. An invalid expiry date (`blocktime` not a number) is taken as a session
  cookie.
- `Math.random()` is a multiple of 2^-53 in [0, 1). The floating-point rounding of
  `89999999 * r` is not modelled.
- Numbers are integers. Fractional `blocktime` values are not modelled. For strings,
  `Number(s)` only reads plain decimal digits: whitespace, signs, fractions, exponents
  and hex are read as NaN. The 2^53 precision limit of `counter` is not modelled.
- What a deferred callback does when it runs, `e.stopPropagation()`, the timing of
  `postMessage` and `setTimeout`, and the listener registration
  (jquery.popunder.js:259-261) are event-loop wiring, not modelled.
- `bindEvents` selector normalisation and jQuery event binding
  (jquery.popunder.js:68-76) are left out. A binding is one `HandlersBound` record;
  the handler's body is `Popunder.FireBoundHandler`.
- The dispatcher's return value `$` (jQuery chaining) is not modelled. The URL `p[0]`
  is taken to be a string.
- Popunder.FireBoundHandler: states only the array consumed and the bound on windows
  opened, not each dispatch's outcome; `Popunder.Popunder` states that per call.
- `String(n)` for integers of 10^21 and more: JavaScript writes these in exponent form
  (`1e+21`), and `Decimal.FromNat` always writes plain digits. Such numbers only reach
  the text of option values and a numeric cookie name.

## Findings

| source | as written | input that shows it | evidently intended | confidence | as-written member | corrected member |
|---|---|---|---|---|---|---|
| jquery.popunder.js:210-221 | `'toolbar=' + options.toolbar \|\| fallback + ',scrollbars=' + ...`: `+` binds tighter than `\|\|`, and the first operand is always a non-empty string. So the result is only `toolbar=<value>`, and every other feature and every fallback is dropped | options `{toolbar: '1'}`: the result is "toolbar=1", with no scrollbars, size or position | each feature written as `key=(options.key \|\| fallback)`, comma-separated | high; not executed | `Features.GetOptions`, `Features.GetOptionsDropsFallbacks` | `Features.FeatureString`, `Features.FeatureStringHasEveryField` (the window-open record keeps the as-written string) |
