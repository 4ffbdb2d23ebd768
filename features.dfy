/** `$.popunder.helper.getOptions`: the window-feature string handed to `window.open`. */
module Features {
  import opened Js
  import Decimal
  import opened Host

  /** The toolbar fallback: shown, except on WebKit and on Mozilla 12 and later. */
  function ToolbarDefault(browser: Browser): string {
    if !browser.webkit && (!browser.mozilla || browser.majorVersion < 12) then "1" else "0"
  }

  /** `getOptions` as written. `+` binds tighter than `||`, so the expression is an
      `||`-chain of thirteen operands, each a concatenation, and the first of them,
      `'toolbar=' + options.toolbar`, is a non-empty string. */
  function GetOptions(props: map<string, Value>, browser: Browser, screen: Screen): (r: string)
    ensures r == "toolbar=" + ToString(Get(props, "toolbar"))
  {
    var ops := [
      Str("toolbar=" + ToString(Get(props, "toolbar"))),
      Str(ToolbarDefault(browser) + ",scrollbars=" + ToString(Get(props, "scrollbars"))),
      Str("1" + ",location=" + ToString(Get(props, "location"))),
      Str("1" + ",statusbar=" + ToString(Get(props, "statusbar"))),
      Str("1" + ",menubar=" + ToString(Get(props, "menubar"))),
      Str("0" + ",resizable=" + ToString(Get(props, "resizable"))),
      Str("1" + ",width=" + ToString(Get(props, "width"))),
      Str(Decimal.FromInt(screen.availWidth - 122) + ",height=" + ToString(Get(props, "height"))),
      Str(Decimal.FromInt(screen.availHeight - 122) + ",screenX=" + ToString(Get(props, "screenX"))),
      Str("0" + ",screenY=" + ToString(Get(props, "screenY"))),
      Str("0" + ",left=" + ToString(Get(props, "left"))),
      Str("0" + ",top=" + ToString(Get(props, "top"))),
      Str("0")];
    assert Truthy(ops[0]);
    ToString(OrChain(ops))
  }

  const FeatureKeys: seq<string> :=
    ["toolbar", "scrollbars", "location", "statusbar", "menubar", "resizable",
     "width", "height", "screenX", "screenY", "left", "top"]

  /** The fallback of each feature, in the order of `FeatureKeys`. */
  function FeatureDefaults(browser: Browser, screen: Screen): (d: seq<string>)
    ensures |d| == |FeatureKeys|
  {
    [ToolbarDefault(browser), "1", "1", "1", "0", "1",
     Decimal.FromInt(screen.availWidth - 122), Decimal.FromInt(screen.availHeight - 122),
     "0", "0", "0", "0"]
  }

  /** `options[key] || fallback`, written as text. */
  function FieldValue(props: map<string, Value>, key: string, fallback: string): string {
    if Truthy(Get(props, key)) then ToString(Get(props, key)) else fallback
  }

  function Fields(props: map<string, Value>, browser: Browser, screen: Screen): (f: seq<string>)
    ensures |f| == |FeatureKeys|
  {
    var d := FeatureDefaults(browser, screen);
    seq(|FeatureKeys|, i requires 0 <= i < |FeatureKeys| => FeatureKeys[i] + "=" + FieldValue(props, FeatureKeys[i], d[i]))
  }

  /** Comma-separated. */
  function Join(items: seq<string>): string {
    if items == [] then ""
    else if |items| == 1 then items[0]
    else items[0] + "," + Join(items[1..])
  }

  /** The feature string `getOptions` evidently means to build: every feature, each with
      its own fallback. */
  function FeatureString(props: map<string, Value>, browser: Browser, screen: Screen): string {
    Join(Fields(props, browser, screen))
  }

  lemma {:induction false} JoinContains(items: seq<string>, i: nat)
    requires i < |items|
    ensures Contains(Join(items), items[i])
  {
    if i == 0 {
      if |items| == 1 {
        OccursInSelf(items[0]);
      } else {
        OccursInConcat(items[0], "," + Join(items[1..]));
        assert items[0] + "," + Join(items[1..]) == items[0] + ("," + Join(items[1..]));
      }
    } else {
      JoinContains(items[1..], i - 1);
      var p :| 0 <= p <= |Join(items[1..])| && OccursAt(Join(items[1..]), items[i], p);
      OccursInContext(items[0] + ",", Join(items[1..]), "", items[i], p);
      assert items[0] + "," + Join(items[1..]) + "" == Join(items);
    }
  }

  /** Every feature appears as `key=value`, the caller's value when truthy and the
      feature's own fallback otherwise. */
  lemma FeatureStringHasEveryField(props: map<string, Value>, browser: Browser, screen: Screen, i: nat)
    requires i < |FeatureKeys|
    ensures Contains(FeatureString(props, browser, screen),
                     FeatureKeys[i] + "=" + FieldValue(props, FeatureKeys[i], FeatureDefaults(browser, screen)[i]))
  {
    JoinContains(Fields(props, browser, screen), i);
  }

  /** With only `toolbar: '1'` given, the intended string still carries the scrollbars
      fallback. */
  lemma ScrollbarsFallback(browser: Browser, screen: Screen)
    ensures Contains(FeatureString(map["toolbar" := Str("1")], browser, screen), "scrollbars=1")
  {
    var props := map["toolbar" := Str("1")];
    FeatureStringHasEveryField(props, browser, screen, 1);
    assert FieldValue(props, FeatureKeys[1], FeatureDefaults(browser, screen)[1]) == "1";
    assert FeatureKeys[1] + "=" + "1" == "scrollbars=1";
  }

  /** What the precedence slip costs: with `toolbar: '1'` and nothing else, `getOptions`
      yields "toolbar=1" and no scrollbars feature at all, while the intended string
      carries "scrollbars=1". */
  lemma GetOptionsDropsFallbacks(browser: Browser, screen: Screen)
    ensures var props := map["toolbar" := Str("1")];
      && GetOptions(props, browser, screen) == "toolbar=1"
      && !Contains(GetOptions(props, browser, screen), "scrollbars=")
      && Contains(FeatureString(props, browser, screen), "scrollbars=1")
  {
    var props := map["toolbar" := Str("1")];
    var g := GetOptions(props, browser, screen);
    assert Get(props, "toolbar") == Str("1");
    assert g == "toolbar=1";
    assert forall i :: 0 <= i <= |g| ==> !OccursAt(g, "scrollbars=", i);
    ScrollbarsFallback(browser, screen);
  }
}
