/** The once-per-interval throttle behind `cookieCheck`: one cookie holds the URLs
    already popped, concatenated; a URL found in it is suppressed. */
module Throttle {
  import opened Js

  const HourMs: int := 3600000

  /** A stored cookie. `expiresAt` is `None` when the expiry date is invalid
      (`new Date(NaN)`), which leaves a cookie that lasts for the session. */
  datatype Cookie = Cookie(value: string, expiresAt: Option<int>)

  predicate Live(c: Cookie, now: int) {
    c.expiresAt.None? || now < c.expiresAt.value
  }

  /** `$.cookies.get(name)` at time `now`: the value of a live cookie, or null. */
  function Lookup(entries: map<string, Cookie>, name: string, now: int): (v: Option<string>)
    ensures v.Some? <==> name in entries && Live(entries[name], now)
  {
    if name in entries && Live(entries[name], now) then Some(entries[name].value) else None
  }

  /** `new Date(now + blocktime * 3600000)`. */
  function ExpiresAt(now: int, blocktime: Value): Option<int> {
    match ToNumber(blocktime)
    case None => None
    case Some(hours) => Some(now + hours * HourMs)
  }

  /** `$.cookies`: the cookie store of the page. */
  class CookieJar {
    var entries: map<string, Cookie>

    constructor (entries: map<string, Cookie>)
      ensures this.entries == entries
    {
      this.entries := entries;
    }

    function Get(name: string, now: int): Option<string>
      reads this
    {
      Lookup(entries, name, now)
    }

    /** `$.cookies.set(name, value, {expiresAt: ...})`. */
    method Set(name: string, value: string, expiresAt: Option<int>)
      modifies this
      ensures entries == old(entries)[name := Cookie(value, expiresAt)]
    {
      entries := entries[name := Cookie(value, expiresAt)];
    }
  }

  /** A stored value `!cookie` treats as present: neither null nor the empty string. */
  predicate Filled(stored: Option<string>) {
    stored.Some? && stored.value != ""
  }

  /** The outcome of one check: the value written back and whether to suppress. */
  datatype Verdict = Verdict(value: string, suppress: bool)

  /** The three branches of `cookieCheck` on the value read from the store. */
  function Check(stored: Option<string>, url: string): Verdict {
    if !Filled(stored) then Verdict(url, false)
    else if IndexOf(stored.value, url) == -1 then Verdict(stored.value + url, false)
    else Verdict(stored.value, true)
  }

  /** A whole `cookieCheck` on the store: the new entries and the verdict. The cookie is
      rewritten, with a fresh expiry, in every branch. */
  function Step(entries: map<string, Cookie>, name: string, url: string, now: int, blocktime: Value): (map<string, Cookie>, bool) {
    var v := Check(Lookup(entries, name, now), url);
    (entries[name := Cookie(v.value, ExpiresAt(now, blocktime))], v.suppress)
  }

  /** The check in terms of substrings rather than `indexOf`. */
  lemma CheckCases(stored: Option<string>, url: string)
    ensures var v := Check(stored, url);
      && (!Filled(stored) ==> v == Verdict(url, false))
      && (Filled(stored) && !Contains(stored.value, url) ==> v == Verdict(stored.value + url, false))
      && (Filled(stored) && Contains(stored.value, url) ==> v == Verdict(stored.value, true))
      && (v.suppress <==> Filled(stored) && Contains(stored.value, url))
  {
  }

  /** After a check the value written back always holds the URL, and never loses what
      was stored before. */
  lemma {:induction false} CheckRemembers(stored: Option<string>, url: string)
    ensures var v := Check(stored, url);
      && Contains(v.value, url)
      && (Filled(stored) ==> stored.value <= v.value)
  {
    var v := Check(stored, url);
    if !Filled(stored) {
      OccursInSelf(url);
    } else if IndexOf(stored.value, url) == -1 {
      OccursInConcat(stored.value, url);
    }
  }

  /** Checking the same URL again against what the first check stored suppresses it,
      except when the URL is empty and nothing was stored: an empty cookie counts as
      absent. */
  lemma {:induction false} RepeatSuppressed(stored: Option<string>, url: string)
    ensures var v := Check(stored, url);
      && (Check(Some(v.value), url).suppress <==> v.value != "")
      && (v.value == "" <==> url == "" && !Filled(stored))
  {
    CheckRemembers(stored, url);
  }

  /** Two different URLs, the second not inside the first, both pass and accumulate. */
  lemma {:induction false} DistinctUrlsAccumulate(u1: string, u2: string)
    requires u1 != "" && !Contains(u1, u2)
    ensures Check(None, u1) == Verdict(u1, false)
    ensures Check(Some(u1), u2) == Verdict(u1 + u2, false)
    ensures Contains(u1 + u2, u1) && Contains(u1 + u2, u2)
  {
    OccursInConcat(u1, u2);
  }

  /** The interval: after a check at `now` that did not run into an empty value, the same
      URL is suppressed at `later` exactly when the cookie has not expired yet. */
  lemma {:induction false} SuppressedWithinBlocktime(entries: map<string, Cookie>, name: string, url: string, now: int, hours: nat, later: int)
    requires url != ""
    ensures var (entries', _) := Step(entries, name, url, now, Num(hours));
      Step(entries', name, url, later, Num(hours)).1 <==> later < now + hours * HourMs
  {
    var v := Check(Lookup(entries, name, now), url);
    RepeatSuppressed(Lookup(entries, name, now), url);
    var entries' := Step(entries, name, url, now, Num(hours)).0;
    assert entries'[name] == Cookie(v.value, Some(now + hours * HourMs));
  }

  /** The same on the store: two checks within the block time, starting from no cookie,
      both pass and leave the concatenation stored. */
  lemma {:induction false} DistinctStepsAccumulate(name: string, u1: string, u2: string, now1: int, now2: int, hours: nat)
    requires u1 != "" && !Contains(u1, u2) && hours > 0 && now2 < now1 + hours * HourMs
    ensures var (e1, s1) := Step(map[], name, u1, now1, Num(hours));
      var (e2, s2) := Step(e1, name, u2, now2, Num(hours));
      !s1 && !s2 && name in e2 && e2[name].value == u1 + u2
  {
    DistinctUrlsAccumulate(u1, u2);
    var e1 := Step(map[], name, u1, now1, Num(hours)).0;
    assert e1 == map[name := Cookie(u1, Some(now1 + hours * HourMs))];
    assert Lookup(e1, name, now2) == Some(u1);
  }
}
