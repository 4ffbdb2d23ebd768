/** `$.popunder(aPopunder, form, trigger)`: the plugin's entry point, which takes the
    next request off the caller's array and opens it through the helper. */
module Popunder {
  import opened Js
  import opened Host
  import Throttle
  import Features
  import opened PopunderHelper

  /** One entry `[url, options]` of the caller's array; the options may be missing. */
  datatype Request = Request(url: string, options: Options?)

  /** The caller's array of pending popunders, shifted in place by the dispatcher. */
  class Requests {
    var items: seq<Request>

    constructor (items: seq<Request>)
      ensures this.items == items
    {
      this.items := items;
    }
  }

  /** `{}`: an options object with no properties. */
  const NoProps: Props := Props(Undefined, Undefined, Undefined, map[])

  /** The properties `open` is handed for a request: `p[1] || {}`. */
  function RequestProps(r: Request): Props
    reads r.options
  {
    if r.options == null then NoProps else r.options.props
  }

  /** The options objects of the first `n` requests, which opening them writes to. */
  function LeadingOptions(items: seq<Request>, n: nat): set<object> {
    set i | 0 <= i < |items| && i < n && items[i].options != null :: items[i].options
  }

  /** `$.popunder(aPopunder, form, trigger)`. With a form or a trigger it only binds the
      handlers. Otherwise it shifts the first request and opens it, or, with nothing
      left, moves the last popup to the background again. */
  method Popunder(h: Helper, requests: Requests, form: bool, trigger: bool, host: Inputs, jar: Throttle.CookieJar?)
    requires h.Valid() && host.WellFormed()
    modifies h, requests, jar, LeadingOptions(requests.items, 1)
    ensures h.Valid()
    ensures h.timeouts == old(h.timeouts)
    ensures form || trigger ==>
      && requests.items == old(requests.items)
      && (old(requests.items) != [] && old(requests.items[0].options) != null ==>
            requests.items[0].options.props == old(requests.items[0].options.props))
      && (jar != null ==> jar.entries == old(jar.entries))
      && h.top == old(h.top)
      && h.trace == old(h.trace) + [HandlersBound(form, trigger)]
      && h.counter == old(h.counter) && h.lastWindow == old(h.lastWindow)
    ensures !form && !trigger && old(requests.items) == [] ==>
      && requests.items == []
      && (jar != null ==> jar.entries == old(jar.entries))
      && h.top == old(h.top)
      && h.trace == old(h.trace) + Background(h.lastWindow, h.top, host.browser.msie)
      && h.counter == old(h.counter) && h.lastWindow == old(h.lastWindow)
    ensures !form && !trigger && old(requests.items) != [] ==>
      var p := old(requests.items[0]);
      var props0 := old(RequestProps(requests.items[0]));
      var didOpen := (h.counter == old(h.counter) + 1);
      && requests.items == old(requests.items[1..])
      && h.top == (if host.top == TopReadable then TopWindow else old(h.top))
      && (p.options != null ==>
            p.options.props ==
              if OperaBlocks(props0, host.browser) then WithOperaDefault(props0) else WithDefaults(props0))
      && GateOutcome(p.url, props0, host, jar != null,
                     if jar == null then map[] else old(jar.entries),
                     if jar == null then map[] else jar.entries, didOpen)
      && (!didOpen ==> h.counter == old(h.counter) && h.trace == old(h.trace))
      && (didOpen ==>
            h.trace == old(h.trace)
              + [WindowOpened(h.top, p.url, WindowName(WithDefaults(props0), host.random),
                              Features.GetOptions(props0.features, host.browser, host.screen), host.openResult)]
              + Background(h.lastWindow, h.top, host.browser.msie))
  {
    if trigger || form {
      h.BindEvents(form, trigger);
    } else if |requests.items| > 0 {
      var p := requests.items[0];
      requests.items := requests.items[1..];
      var options := p.options;
      if options == null {
        options := new Options(NoProps);
      }
      var _ := h.Open(p.url, options, host, jar);
    } else {
      h.MoveToBackground(host.browser);
    }
  }

  /** The handler `bindEvents` attaches to the form's submit and the trigger's click and
      mousedown: two dispatches in a row on the same array, so one event consumes up to
      two requests. */
  method FireBoundHandler(h: Helper, requests: Requests, host1: Inputs, host2: Inputs, jar: Throttle.CookieJar?)
    requires h.Valid() && host1.WellFormed() && host2.WellFormed()
    modifies h, requests, jar, LeadingOptions(requests.items, 2)
    ensures h.Valid()
    ensures requests.items == old(requests.items)[if |old(requests.items)| < 2 then |old(requests.items)| else 2..]
    ensures h.counter <= old(h.counter) + 2
  {
    Popunder(h, requests, false, false, host1, jar);
    Popunder(h, requests, false, false, host2, jar);
  }

  /** Opening the same URL twice under a block time of `hours` hours: the first opens,
      and the second opens again exactly when the cookie has expired by then. */
  method SameUrlTwice(url: string, hours: nat, host1: Inputs, host2: Inputs) returns (first: bool, second: bool)
    requires url != "" && hours > 0
    requires host1.WellFormed() && host2.WellFormed()
    requires !host1.browser.opera && !host2.browser.opera
    ensures first
    ensures second <==> host2.now >= host1.now + hours * Throttle.HourMs
  {
    var h := new Helper();
    var jar := new Throttle.CookieJar(map[]);
    var props := Props(Undefined, Num(hours), Undefined, map[]);
    var o1 := new Options(props);
    first := h.Open(url, o1, host1, jar);
    var o2 := new Options(props);
    second := h.Open(url, o2, host2, jar);
    Throttle.SuppressedWithinBlocktime(map[], CookieName(WithDefaults(props)), url, host1.now, hours, host2.now);
  }

  /** Two URLs, the second not inside the first, opened within the block time: both
      open, and the cookie ends up holding both, in order. */
  method DistinctUrlsBothOpen(u1: string, u2: string, hours: nat, host1: Inputs, host2: Inputs)
    returns (first: bool, second: bool, stored: string)
    requires u1 != "" && !Contains(u1, u2) && hours > 0
    requires host1.WellFormed() && host2.WellFormed()
    requires !host1.browser.opera && !host2.browser.opera
    requires host2.now < host1.now + hours * Throttle.HourMs
    ensures first && second
    ensures stored == u1 + u2
  {
    var h := new Helper();
    var jar := new Throttle.CookieJar(map[]);
    var props := Props(Undefined, Num(hours), Undefined, map[]);
    var o1 := new Options(props);
    first := h.Open(u1, o1, host1, jar);
    var o2 := new Options(props);
    second := h.Open(u2, o2, host2, jar);
    Throttle.DistinctStepsAccumulate(CookieName(WithDefaults(props)), u1, u2, host1.now, host2.now, hours);
    stored := jar.entries[CookieName(WithDefaults(props))].value;
  }

  /** On Opera, with `disableOpera` left out, false or true, nothing is ever opened. */
  method OperaNeverOpens(url: string, props: Props, host: Inputs) returns (ok: bool, count: int)
    requires host.WellFormed() && host.browser.opera
    requires !Truthy(props.disableOpera) || props.disableOpera == Bool(true)
    ensures !ok && count == 0
  {
    var h := new Helper();
    var jar := new Throttle.CookieJar(map[]);
    var o := new Options(props);
    ok := h.Open(url, o, host, jar);
    count := h.counter;
  }

  /** Deferred calls run in the order they were scheduled, one per self-addressed
      'popunder' message; a message from elsewhere runs nothing. */
  method DeferredInOrder(f1: Callback, f2: Callback, browser: Browser)
    returns (r0: Option<Callback>, r1: Option<Callback>, r2: Option<Callback>, r3: Option<Callback>)
    requires !browser.msie && browser.hasPostMessage
    ensures r0 == None && r1 == Some(f1) && r2 == Some(f2) && r3 == None
  {
    var h := new Helper();
    h.Timeout(f1, browser);
    h.Timeout(f2, browser);
    r0 := h.HandleMessage(false, Str("popunder"));
    r1 := h.HandleMessage(true, Str("popunder"));
    r2 := h.HandleMessage(true, Str("popunder"));
    r3 := h.HandleMessage(true, Str("popunder"));
  }
}
