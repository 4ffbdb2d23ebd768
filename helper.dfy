/** `$.popunder.helper`: the object that opens popups, throttles them, pushes them
    behind the page and defers callbacks. Its fields change in place, so it is a class;
    what it does to the browser is recorded in a ghost trace of host effects. */
module PopunderHelper {
  import opened Js
  import opened Host
  import Names
  import Throttle
  import Features

  /** The properties of an options object: the three `open` reads and writes, and the
      window features (`toolbar`, `width`, ...) that only the feature string reads. A
      property the caller left out is `Undefined`. */
  datatype Props = Props(disableOpera: Value, blocktime: Value, cookie: Value, features: map<string, Value>)

  /** A caller's options object (`p[1]`). `open` writes its defaults into it. */
  class Options {
    var props: Props

    constructor (props: Props)
      ensures this.props == props
    {
      this.props := props;
    }
  }

  /** A deferred zero-argument function; what it does when run is not part of the model. */
  datatype Callback = Callback(id: nat)

  /** One effect on the browser. */
  datatype Event =
    | WindowOpened(opener: WindowRef, url: string, name: string, features: string, result: Option<Handle>)
    | FocusSequence(popup: Handle, opener: WindowRef, classicIe: bool)  // blur popup, blur and focus opener, refocus
    | RanNow(fn: Callback)            // fn() called synchronously
    | Queued(fn: Callback)            // timeouts.push(fn) and postMessage('popunder', '*')
    | Dequeued(fn: Callback)          // timeouts.shift() called on receipt of the message
    | TimerSet(fn: Callback)          // setTimeout(fn, 0)
    | HandlersBound(form: bool, trigger: bool)

  ghost function OpenCount(t: seq<Event>): nat {
    if t == [] then 0 else OpenCount(t[..|t| - 1]) + (if t[|t| - 1].WindowOpened? then 1 else 0)
  }

  /** The most recent window `window.open` actually returned. */
  ghost function LastHandle(t: seq<Event>): Option<Handle> {
    if t == [] then None
    else if t[|t| - 1].WindowOpened? && t[|t| - 1].result.Some? then t[|t| - 1].result
    else LastHandle(t[..|t| - 1])
  }

  ghost function QueuedFns(t: seq<Event>): seq<Callback> {
    if t == [] then [] else QueuedFns(t[..|t| - 1]) + (if t[|t| - 1].Queued? then [t[|t| - 1].fn] else [])
  }

  ghost function DequeuedFns(t: seq<Event>): seq<Callback> {
    if t == [] then [] else DequeuedFns(t[..|t| - 1]) + (if t[|t| - 1].Dequeued? then [t[|t| - 1].fn] else [])
  }

  lemma TraceSnoc(t: seq<Event>, e: Event)
    ensures OpenCount(t + [e]) == OpenCount(t) + (if e.WindowOpened? then 1 else 0)
    ensures LastHandle(t + [e]) == if e.WindowOpened? && e.result.Some? then e.result else LastHandle(t)
    ensures QueuedFns(t + [e]) == if e.Queued? then QueuedFns(t) + [e.fn] else QueuedFns(t)
    ensures DequeuedFns(t + [e]) == if e.Dequeued? then DequeuedFns(t) + [e.fn] else DequeuedFns(t)
  {
    assert (t + [e])[..|t|] == t;
    assert QueuedFns(t) + [] == QueuedFns(t);
    assert DequeuedFns(t) + [] == DequeuedFns(t);
  }

  /** `options.disableOpera = options.disableOpera || true`. */
  function WithOperaDefault(props: Props): Props {
    props.(disableOpera := Or(props.disableOpera, Bool(true)))
  }

  /** `options.blocktime = options.blocktime || false; options.cookie = options.cookie || 'puCookie'`. */
  function WithThrottleDefaults(props: Props): Props {
    props.(blocktime := Or(props.blocktime, Bool(false)), cookie := Or(props.cookie, Str("puCookie")))
  }

  function WithDefaults(props: Props): Props {
    WithThrottleDefaults(WithOperaDefault(props))
  }

  /** `options.disableOpera === true && $.browser.opera === true`, after the default. */
  predicate OperaBlocks(props: Props, browser: Browser) {
    WithOperaDefault(props).disableOpera == Bool(true) && browser.opera
  }

  /** On Opera the gate closes for every falsy `disableOpera` and for `true`: `false`
      cannot switch it off, and only a truthy value other than `true` does. */
  lemma OperaGate(props: Props, browser: Browser)
    ensures OperaBlocks(props, browser) <==>
      browser.opera && (!Truthy(props.disableOpera) || props.disableOpera == Bool(true))
    ensures props.disableOpera == Bool(false) ==> (OperaBlocks(props, browser) <==> browser.opera)
  {
  }

  /** The defaults fill in exactly the three options, leave the others alone, and make
      the cookie name truthy; `blocktime` keeps its truthiness. */
  lemma DefaultsApplied(props: Props)
    ensures var o := WithDefaults(props);
      && o.features == props.features
      && Truthy(o.disableOpera) && Truthy(o.cookie)
      && (Truthy(o.blocktime) <==> Truthy(props.blocktime))
      && (Truthy(props.blocktime) ==> o.blocktime == props.blocktime)
      && (!Truthy(props.blocktime) ==> o.blocktime == Bool(false))
      && (Truthy(props.cookie) ==> o.cookie == props.cookie)
      && (!Truthy(props.cookie) ==> o.cookie == Str("puCookie"))
  {
  }

  /** The gates of `open` on options that held `props0`, with the cookie store (when
      there is one) going from `entries0` to `entries1`: whether `open` goes on to
      create a window. The throttle runs only past the Opera check, with a truthy
      `blocktime` and a cookie store. */
  predicate GateOutcome(url: string, props0: Props, host: Inputs, hasJar: bool,
                        entries0: map<string, Throttle.Cookie>, entries1: map<string, Throttle.Cookie>, pass: bool)
  {
    var o := WithDefaults(props0);
    var blocked := OperaBlocks(props0, host.browser);
    var checked := !blocked && Truthy(o.blocktime) && hasJar;
    if checked then
      (entries1, !pass) == Throttle.Step(entries0, CookieName(o), url, host.now, o.blocktime)
    else
      entries1 == entries0 && pass == !blocked
  }

  /** `open` stops exactly when Opera is blocked, or when a truthy `blocktime`, a cookie
      store and a live, non-empty cookie that already holds the URL come together. The
      store changes only when the throttle ran. */
  lemma GateClosesExactly(url: string, props0: Props, host: Inputs, hasJar: bool,
                          entries0: map<string, Throttle.Cookie>, entries1: map<string, Throttle.Cookie>, pass: bool)
    requires GateOutcome(url, props0, host, hasJar, entries0, entries1, pass)
    ensures var stored := Throttle.Lookup(entries0, CookieName(WithDefaults(props0)), host.now);
      !pass <==>
        || OperaBlocks(props0, host.browser)
        || (Truthy(props0.blocktime) && hasJar && Throttle.Filled(stored) && Contains(stored.value, url))
    ensures entries1 != entries0 ==> !OperaBlocks(props0, host.browser) && Truthy(props0.blocktime) && hasJar
  {
    var o := WithDefaults(props0);
    Throttle.CheckCases(Throttle.Lookup(entries0, CookieName(o), host.now), url);
  }

  /** `rand(options.cookie, false)`: the throttle cookie's name. */
  function CookieName(props: Props): string {
    Names.Rand(props.cookie, Bool(false), 0)
  }

  /** `rand(options.cookie, true)`: the popup window's name. */
  function WindowName(props: Props, random: nat): string
    requires random < RandomScale
  {
    Names.Rand(props.cookie, Bool(true), random)
  }

  /** The effect of `moveToBackground`: one focus sequence when a window is tracked. */
  function Background(lastWindow: Option<Handle>, top: WindowRef, msie: bool): seq<Event> {
    if lastWindow.Some? then [FocusSequence(lastWindow.value, top, msie)] else []
  }

  class Helper {
    var top: WindowRef             // _top
    var lastWindow: Option<Handle>
    var timeouts: seq<Callback>
    const messageName: string
    var counter: int
    ghost var trace: seq<Event>

    /** The counter counts the windows opened, `lastWindow` is the latest window
        `window.open` returned, and the deferred queue holds exactly the callbacks
        queued and not yet taken, in order. */
    ghost predicate Valid()
      reads this
    {
      && messageName == "popunder"
      && counter == OpenCount(trace)
      && lastWindow == LastHandle(trace)
      && QueuedFns(trace) == DequeuedFns(trace) + timeouts
    }

    constructor ()
      ensures Valid()
      ensures top == SelfWindow && lastWindow == None && timeouts == [] && counter == 0 && trace == []
    {
      top := SelfWindow;
      lastWindow := None;
      timeouts := [];
      messageName := "popunder";
      counter := 0;
      trace := [];
    }

    /** Callbacks leave the queue in the order they entered it. */
    lemma Fifo()
      requires Valid()
      ensures DequeuedFns(trace) <= QueuedFns(trace)
      ensures timeouts == QueuedFns(trace)[|DequeuedFns(trace)|..]
    {
    }

    /** `cookieCheck(sUrl, options)`. */
    method CookieCheck(url: string, options: Options, jar: Throttle.CookieJar, now: int) returns (ret: bool)
      modifies jar
      ensures (jar.entries, ret) ==
        Throttle.Step(old(jar.entries), CookieName(options.props), url, now, options.props.blocktime)
    {
      var name := Names.Rand(options.props.cookie, Bool(false), 0);
      var cookie := jar.Get(name, now);
      var value: string;
      ret := false;
      if cookie.None? || cookie.value == "" {
        value := url;
      } else if IndexOf(cookie.value, url) == -1 {
        value := cookie.value + url;
      } else {
        value := cookie.value;
        ret := true;
      }
      jar.Set(name, value, Throttle.ExpiresAt(now, options.props.blocktime));
    }

    /** `open(sUrl, options)`: false, with nothing opened, when a gate closes; otherwise
        one window opened, counted and moved to the background, and true. */
    method Open(url: string, options: Options, host: Inputs, jar: Throttle.CookieJar?) returns (ok: bool)
      requires Valid() && host.WellFormed()
      modifies this, options, jar
      ensures Valid()
      ensures top == (if host.top == TopReadable then TopWindow else old(top))
      ensures options.props ==
        if OperaBlocks(old(options.props), host.browser) then WithOperaDefault(old(options.props))
        else WithDefaults(old(options.props))
      ensures GateOutcome(url, old(options.props), host, jar != null,
                          if jar == null then map[] else old(jar.entries),
                          if jar == null then map[] else jar.entries, ok)
      ensures timeouts == old(timeouts)
      ensures !ok ==> counter == old(counter) && lastWindow == old(lastWindow) && trace == old(trace)
      ensures ok ==> counter == old(counter) + 1
      ensures ok ==> lastWindow == (if host.openResult.Some? then host.openResult else old(lastWindow))
      ensures ok ==>
        trace == old(trace)
          + [WindowOpened(top, url, WindowName(WithDefaults(old(options.props)), host.random),
                          Features.GetOptions(old(options.props.features), host.browser, host.screen), host.openResult)]
          + Background(lastWindow, top, host.browser.msie)
    {
      if host.top == TopReadable {
        top := TopWindow;
      }
      ok := Gate(url, options, host, jar);
      if ok {
        Launch(url, options.props, host);
      }
    }

    /** The gates of `open`: the option defaults, the Opera check and the throttle. */
    method Gate(url: string, options: Options, host: Inputs, jar: Throttle.CookieJar?) returns (pass: bool)
      modifies options, jar
      ensures options.props ==
        if OperaBlocks(old(options.props), host.browser) then WithOperaDefault(old(options.props))
        else WithDefaults(old(options.props))
      ensures GateOutcome(url, old(options.props), host, jar != null,
                          if jar == null then map[] else old(jar.entries),
                          if jar == null then map[] else jar.entries, pass)
    {
      options.props := options.props.(disableOpera := Or(options.props.disableOpera, Bool(true)));
      if options.props.disableOpera == Bool(true) && host.browser.opera {
        return false;
      }

      options.props := options.props.(blocktime := Or(options.props.blocktime, Bool(false)));
      options.props := options.props.(cookie := Or(options.props.cookie, Str("puCookie")));
      if Truthy(options.props.blocktime) && jar != null {
        var suppressed := CookieCheck(url, options, jar, host.now);
        if suppressed {
          return false;
        }
      }
      pass := true;
    }

    /** `open` past its gates: create the popup, remember it, count it, push it back. */
    method Launch(url: string, o: Props, host: Inputs)
      requires Valid() && host.WellFormed()
      modifies this
      ensures Valid()
      ensures top == old(top) && timeouts == old(timeouts)
      ensures counter == old(counter) + 1
      ensures lastWindow == (if host.openResult.Some? then host.openResult else old(lastWindow))
      ensures trace == old(trace)
        + [WindowOpened(top, url, WindowName(o, host.random), Features.GetOptions(o.features, host.browser, host.screen), host.openResult)]
        + Background(lastWindow, top, host.browser.msie)
    {
      var name := WindowName(o, host.random);
      var features := Features.GetOptions(o.features, host.browser, host.screen);
      var e := WindowOpened(top, url, name, features, host.openResult);
      TraceSnoc(trace, e);
      trace := trace + [e];
      lastWindow := if host.openResult.Some? then host.openResult else lastWindow;
      counter := counter + 1;
      MoveToBackground(host.browser);
    }

    /** `bindEvents(aPopunder, form, trigger)`: attaches the handler to the page's
        elements; on the helper it leaves only that record. */
    method BindEvents(form: bool, trigger: bool)
      requires Valid()
      modifies this
      ensures Valid()
      ensures trace == old(trace) + [HandlersBound(form, trigger)]
      ensures top == old(top) && lastWindow == old(lastWindow) && counter == old(counter) && timeouts == old(timeouts)
    {
      var e := HandlersBound(form, trigger);
      TraceSnoc(trace, e);
      trace := trace + [e];
    }

    /** `moveToBackground()`: nothing at all unless a window is tracked. */
    method MoveToBackground(browser: Browser)
      requires Valid()
      modifies this
      ensures Valid()
      ensures trace == old(trace) + Background(lastWindow, top, browser.msie)
      ensures top == old(top) && lastWindow == old(lastWindow) && counter == old(counter) && timeouts == old(timeouts)
    {
      if lastWindow.Some? {
        var e := FocusSequence(lastWindow.value, top, browser.msie);
        TraceSnoc(trace, e);
        trace := trace + [e];
      }
    }

    /** `timeout(fn)`: run now on IE, queue behind a self-addressed message where
        `postMessage` exists, and fall back to `setTimeout` otherwise. */
    method Timeout(fn: Callback, browser: Browser)
      requires Valid()
      modifies this
      ensures Valid()
      ensures browser.msie ==> timeouts == old(timeouts) && trace == old(trace) + [RanNow(fn)]
      ensures !browser.msie && browser.hasPostMessage ==> timeouts == old(timeouts) + [fn] && trace == old(trace) + [Queued(fn)]
      ensures !browser.msie && !browser.hasPostMessage ==> timeouts == old(timeouts) && trace == old(trace) + [TimerSet(fn)]
      ensures top == old(top) && lastWindow == old(lastWindow) && counter == old(counter)
    {
      if browser.msie {
        TraceSnoc(trace, RanNow(fn));
        trace := trace + [RanNow(fn)];
      } else if browser.hasPostMessage {
        TraceSnoc(trace, Queued(fn));
        assert (DequeuedFns(trace) + timeouts) + [fn] == DequeuedFns(trace) + (timeouts + [fn]);
        timeouts := timeouts + [fn];
        trace := trace + [Queued(fn)];
      } else {
        TraceSnoc(trace, TimerSet(fn));
        trace := trace + [TimerSet(fn)];
      }
    }

    /** `handleMessage(e)`: on the page's own 'popunder' message, take the oldest queued
        callback and run it; every other message, and an empty queue, change nothing. */
    method HandleMessage(fromSelf: bool, data: Value) returns (ran: Option<Callback>)
      requires Valid()
      modifies this
      ensures Valid()
      ensures ran.Some? <==> fromSelf && data == Str("popunder") && old(timeouts) != []
      ensures ran.Some? ==> ran.value == old(timeouts)[0] && timeouts == old(timeouts)[1..]
                            && trace == old(trace) + [Dequeued(ran.value)]
      ensures ran.None? ==> timeouts == old(timeouts) && trace == old(trace)
      ensures top == old(top) && lastWindow == old(lastWindow) && counter == old(counter)
    {
      ran := None;
      if fromSelf && data == Str(messageName) {
        if |timeouts| > 0 {
          var fn := timeouts[0];
          timeouts := timeouts[1..];
          var e := Dequeued(fn);
          TraceSnoc(trace, e);
          trace := trace + [e];
          ran := Some(fn);
        }
      }
    }
  }
}
