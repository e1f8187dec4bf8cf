/** The client side of a standalone-window activity.

    `ActivityWindowPort` opens the activity in a popup (or navigates the
    whole page to it), passes the request in the URL fragment, watches the
    popup with a heartbeat and settles its result promise exactly once.
    `DiscoverRedirectPort` is the other half of the redirect flow: after
    the host navigates back, it reads the response from the `__WA_RES__`
    fragment parameter. */
module WindowPort {
  import opened Base
  import Percent
  import opened Json
  import opened ActivityTypes
  import opened Utils
  import opened Messaging

  const TARGET_ERROR: string := "The only allowed targets are \"_blank\", \"_top\" and name targets"
  const OPEN_ERROR: string := "failed to open window"

  /** Grace delays of the cancellation timer: after the heartbeat finds the
      popup gone, and after a `check` command. */
  const HEARTBEAT_CANCEL_DELAY: int := 3000
  const CHECK_CANCEL_DELAY: int := 0

  // ---------------------------------------------------------------------
  // Target and mode

  /** A target the constructor accepts: `_blank`, `_top`, or a non-empty
      window name that does not start with `_`. */
  predicate ValidTarget(target: string) {
    target != "" && (target == "_blank" || target == "_top" || target[0] != '_')
  }

  /** `getMode()`. */
  function PortMode(target: string): (m: Mode)
    ensures m == REDIRECT <==> target == "_top"
    ensures m == POPUP <==> target != "_top"
  {
    if target == "_top" then REDIRECT else POPUP
  }

  // ---------------------------------------------------------------------
  // The URL that is opened

  /** `ActivityOpenOptionsDef`: `width`/`height` of `0` count as absent. */
  datatype OpenOptions = OpenOptions(
    returnUrl: Option<string>,
    skipRequestInUrl: bool,
    width: Option<int>,
    height: Option<int>)

  /** `options.returnUrl || removeFragment(href)`. */
  function ReturnUrlOf(options: Option<OpenOptions>, href: string): (r: string)
    ensures options.Some? && options.value.returnUrl.Some? && options.value.returnUrl.value != "" ==>
              r == options.value.returnUrl.value
    ensures !(options.Some? && options.value.returnUrl.Some? && options.value.returnUrl.value != "") ==>
              r == RemoveFragment(href) && '#' !in r
  {
    if options.Some? && options.value.returnUrl.Some? && options.value.returnUrl.value != "" then
      options.value.returnUrl.value
    else RemoveFragment(href)
  }

  /** The request a popup port sends: no origin fields, `args || null`. */
  function PortRequest(requestId: string, returnUrl: string, args: Json): Request
  {
    Request(Some(requestId), Some(returnUrl), OrNull(args), None, None)
  }

  /** The URL `openInternal_` opens: the activity URL with the serialized
      request as the `__WA__` fragment parameter, unless the options ask to
      leave it out. */
  function OpenUrl(url: string, requestId: string, args: Json, options: Option<OpenOptions>, href: string): string
  {
    if options.Some? && options.value.skipRequestInUrl then url
    else AddFragmentParam(url, REQUEST_PARAM, SerializeRequest(PortRequest(requestId, ReturnUrlOf(options, href), args)))
  }

  /** The opened URL carries the request: a reader of its `__WA__` fragment
      parameter gets back exactly the request id, the return URL and the
      arguments, with no origin fields; the URL before the fragment is kept. */
  lemma OpenUrlCarriesRequest(url: string, requestId: string, args: Json, options: Option<OpenOptions>, href: string)
    requires !(options.Some? && options.value.skipRequestInUrl)
    requires ParseQueryString(FragmentOf(url)).Some?
    ensures var r := PortRequest(requestId, ReturnUrlOf(options, href), args);
            GetQueryParam(FragmentOf(OpenUrl(url, requestId, args, options, href)), REQUEST_PARAM) ==
              Ok(Some(SerializeRequest(r))) &&
            ParseRequest(SerializeRequest(r), false) == Ok(Some(r))
    ensures RemoveFragment(OpenUrl(url, requestId, args, options, href)) == RemoveFragment(url)
  {
    var r := PortRequest(requestId, ReturnUrlOf(options, href), args);
    GetAddedFragmentParam(url, REQUEST_PARAM, SerializeRequest(r), REQUEST_PARAM);
    RemoveFragmentOfAdded(url, REQUEST_PARAM, SerializeRequest(r));
    ParseSerializeRequest(r, false);
  }

  /** With `skipRequestInUrl` the activity URL is opened as given. */
  lemma OpenUrlSkipped(url: string, requestId: string, args: Json, options: Option<OpenOptions>, href: string)
    requires options.Some? && options.value.skipRequestInUrl
    ensures OpenUrl(url, requestId, args, options, href) == url
  {
  }

  // ---------------------------------------------------------------------
  // Window features

  /** One `name=value` entry of the features string. */
  datatype Feature = Feature(name: string, value: string)

  function FeatureText(f: Feature): string
  {
    f.name + "=" + f.value
  }

  /** The features string: the entries in order, separated by `,`. */
  function FeaturesText(fs: seq<Feature>): string
  {
    if fs == [] then ""
    else
      var before := FeaturesText(fs[..|fs| - 1]);
      (if before == "" then "" else before + ",") + FeatureText(fs[|fs| - 1])
  }

  /** The size the popup asks for along one axis: a non-zero option capped
      at the screen, otherwise nine tenths of the screen, at most 600. */
  function PopupSize(screen: int, option: Option<int>): int
  {
    if option.Some? && option.value != 0 then Min(option.value, screen)
    else Min(600, (9 * screen) / 10)
  }

  function Min(a: int, b: int): int
  {
    if a <= b then a else b
  }

  /** The offset that centres `size` on the screen, rounded down. */
  function CentredOffset(screen: int, size: int): int
  {
    (screen - size) / 2
  }

  /** The entries of `buildFeatures_`, in the order the object literal
      lists them; `left` and `top` are left out on Edge. */
  function FeatureList(screenWidth: int, screenHeight: int, options: Option<OpenOptions>, isEdge: bool): seq<Feature>
  {
    var w := PopupSize(screenWidth, if options.Some? then options.value.width else None);
    var h := PopupSize(screenHeight, if options.Some? then options.value.height else None);
    [Feature("height", IntText(h)), Feature("width", IntText(w)),
     Feature("resizable", "yes"), Feature("scrollbars", "yes")] +
    (if isEdge then []
     else [Feature("left", IntText(CentredOffset(screenWidth, w))),
           Feature("top", IntText(CentredOffset(screenHeight, h)))])
  }

  /** `buildFeatures_()`: the `for`-`in` loop over the features. */
  method BuildFeatures(screenWidth: int, screenHeight: int, options: Option<OpenOptions>, isEdge: bool)
    returns (s: string)
    ensures s == FeaturesText(FeatureList(screenWidth, screenHeight, options, isEdge))
  {
    var fs := FeatureList(screenWidth, screenHeight, options, isEdge);
    s := "";
    var i := 0;
    while i < |fs|
      invariant 0 <= i <= |fs|
      invariant s == FeaturesText(fs[..i])
    {
      assert fs[..i + 1][..i] == fs[..i];
      if s != "" {
        s := s + ",";
      }
      s := s + FeatureText(fs[i]);
      i := i + 1;
    }
    assert fs[..|fs|] == fs;
  }

  function FeatureTexts(fs: seq<Feature>): seq<string>
  {
    seq(|fs|, i requires 0 <= i < |fs| => FeatureText(fs[i]))
  }

  predicate NoComma(fs: seq<Feature>) {
    forall i :: 0 <= i < |fs| ==> ',' !in FeatureText(fs[i])
  }

  /** Splitting the features string at `,` gives back the entries. */
  lemma {:induction false} FeaturesTextSplits(fs: seq<Feature>)
    requires fs != [] && NoComma(fs)
    ensures SplitOn(FeaturesText(fs), ',') == FeatureTexts(fs)
  {
    var last := FeatureText(fs[|fs| - 1]);
    assert SplitOn(last, ',') == [last] by {
      assert IndexOfChar(last, ',') < 0;
    }
    var init := fs[..|fs| - 1];
    if init == [] {
      assert FeaturesText(fs) == last;
      assert FeatureTexts(fs) == [last];
    } else {
      assert |FeatureText(init[|init| - 1])| > 0;
      FeaturesTextSplits(init);
      SplitOnAppend(FeaturesText(init), ',', last);
      assert FeaturesText(init) + "," == FeaturesText(init) + [','];
      FeatureTextsSnoc(fs);
    }
  }

  lemma FeatureTextsSnoc(fs: seq<Feature>)
    requires fs != []
    ensures FeatureTexts(fs) == FeatureTexts(fs[..|fs| - 1]) + [FeatureText(fs[|fs| - 1])]
  {
    var init := fs[..|fs| - 1];
    assert forall i :: 0 <= i < |init| ==> init[i] == fs[i];
  }

  /** Integers print without a comma, so the features string splits back
      into its entries. */
  lemma FeatureListSplits(screenWidth: int, screenHeight: int, options: Option<OpenOptions>, isEdge: bool)
    ensures var fs := FeatureList(screenWidth, screenHeight, options, isEdge);
            SplitOn(FeaturesText(fs), ',') == FeatureTexts(fs)
  {
    var w := PopupSize(screenWidth, if options.Some? then options.value.width else None);
    var h := PopupSize(screenHeight, if options.Some? then options.value.height else None);
    var fs := FeatureList(screenWidth, screenHeight, options, isEdge);
    var base := [Feature("height", IntText(h)), Feature("width", IntText(w)),
                 Feature("resizable", "yes"), Feature("scrollbars", "yes")];
    var tail := if isEdge then [] else [Feature("left", IntText(CentredOffset(screenWidth, w))),
                                        Feature("top", IntText(CentredOffset(screenHeight, h)))];
    assert fs == base + tail;
    IntTextNoComma(h);
    IntTextNoComma(w);
    FeatureNoComma("height", IntText(h));
    FeatureNoComma("width", IntText(w));
    FeatureNoComma("resizable", "yes");
    FeatureNoComma("scrollbars", "yes");
    assert NoComma(base);
    if !isEdge {
      IntTextNoComma(CentredOffset(screenWidth, w));
      IntTextNoComma(CentredOffset(screenHeight, h));
      FeatureNoComma("left", IntText(CentredOffset(screenWidth, w)));
      FeatureNoComma("top", IntText(CentredOffset(screenHeight, h)));
    }
    assert NoComma(tail);
    NoCommaAppend(base, tail);
    FeaturesTextSplits(fs);
  }

  lemma NoCommaAppend(a: seq<Feature>, b: seq<Feature>)
    requires NoComma(a) && NoComma(b)
    ensures NoComma(a + b)
  {
    forall i | 0 <= i < |a + b| ensures ',' !in FeatureText((a + b)[i]) {
      if i >= |a| {
        assert (a + b)[i] == b[i - |a|];
      }
    }
  }

  lemma FeatureNoComma(name: string, value: string)
    requires ',' !in name && ',' !in value
    ensures ',' !in FeatureText(Feature(name, value))
  {
  }

  lemma IntTextNoComma(n: int)
    ensures ',' !in IntText(n)
  {
    if n < 0 {
      assert IntText(n) == "-" + NatText(-n);
    }
  }

  /** A default or a non-negative option on a non-negative screen gives a
      window that fits the screen, with the default never above 600, and
      a centring offset that leaves at most one pixel more on the right
      (or bottom) than on the left (or top). */
  lemma PopupCentred(screen: int, option: Option<int>)
    requires screen >= 0
    requires option.Some? ==> option.value >= 0
    ensures var size := PopupSize(screen, option);
            var offset := CentredOffset(screen, size);
            && 0 <= size <= screen
            && (option.None? || option.value == 0 ==> size <= 600)
            && (option.Some? && option.value != 0 ==> size == Min(option.value, screen))
            && 0 <= offset
            && screen - 1 <= 2 * offset + size <= screen
  {
  }

  // ---------------------------------------------------------------------
  // The open cascade

  /** What the browser does with each `window.open` the port may make:
      `blank` for the blank window of the IE path and `replaced` for
      whether its location could then be replaced, `given` for the open
      with the requested target, `top` for the `_top` retry. `None` is
      `null` or a thrown error. */
  datatype OpenOracle = OpenOracle(
    blank: Option<WindowId>,
    replaced: bool,
    given: Option<WindowId>,
    top: Option<WindowId>)

  /** A browser call made while opening. */
  datatype OpenCall =
    | WindowOpen(url: string, target: string, features: Option<string>)
    | LocationReplace(window: WindowId, url: string)

  /** The window the IE path yields: a blank window whose location could
      be replaced with the activity URL. */
  function BlankWindow(openTarget: string, viaBlank: bool, o: OpenOracle): Option<WindowId>
  {
    if openTarget != "_top" && viaBlank && o.blank.Some? && o.replaced then o.blank else None
  }

  /** The window obtained and the effective target: the blank window, else
      the requested target, else `_top` — tried only when nothing was
      obtained and the requested target was not `_top` already. */
  function Cascade(openTarget: string, viaBlank: bool, o: OpenOracle): (r: (Option<WindowId>, string))
    ensures r.1 == openTarget || r.1 == "_top"
    ensures r.1 != openTarget ==>
              openTarget != "_top" && BlankWindow(openTarget, viaBlank, o).None? && o.given.None? && r.0 == o.top
    ensures r.1 == openTarget && BlankWindow(openTarget, viaBlank, o).Some? ==> r.0 == BlankWindow(openTarget, viaBlank, o)
    ensures r.1 == openTarget && BlankWindow(openTarget, viaBlank, o).None? ==> r.0 == o.given
    ensures openTarget == "_top" ==> r == (o.given, "_top")
  {
    var blank := BlankWindow(openTarget, viaBlank, o);
    if blank.Some? then (blank, openTarget)
    else if o.given.Some? || openTarget == "_top" then (o.given, openTarget)
    else (o.top, "_top")
  }

  /** The browser calls the cascade makes, in order. */
  function CascadeCalls(url: string, features: string, openTarget: string, viaBlank: bool, o: OpenOracle): (calls: seq<OpenCall>)
    ensures openTarget == "_top" ==> calls == [WindowOpen(url, "_top", Some(features))]
    ensures calls != []
    ensures calls[|calls| - 1] == WindowOpen(url, "_top", None) <==> Cascade(openTarget, viaBlank, o).1 != openTarget
    ensures BlankWindow(openTarget, viaBlank, o).None? ==> WindowOpen(url, openTarget, Some(features)) in calls
  {
    var blank :=
      if openTarget != "_top" && viaBlank then
        [WindowOpen("", openTarget, Some(features))] +
        (if o.blank.Some? then [LocationReplace(o.blank.value, url)] else [])
      else [];
    var given := if BlankWindow(openTarget, viaBlank, o).None? then [WindowOpen(url, openTarget, Some(features))] else [];
    var top := if Cascade(openTarget, viaBlank, o).1 != openTarget then [WindowOpen(url, "_top", None)] else [];
    blank + given + top
  }

  // ---------------------------------------------------------------------
  // Results

  /** How the port's result promise settled: through `resolveResult`, or
      rejected by `disconnectWithError_`. */
  datatype PortOutcome = Resolved(settlement: Settlement) | RejectedWith(reason: ErrorValue)

  /** The result `result_` means to build: learned origin, verified and
      secure when the messenger is connected, otherwise the origin of the
      activity URL, neither verified nor secure. */
  function PopupResult(code: ResultCode, data: Value, learned: Option<string>, urlOrigin: string): (r: ActivityResult)
    ensures WellFormed(r) && r.code == code
    ensures r.originVerified <==> learned.Some?
    ensures r.secureChannel <==> learned.Some?
    ensures learned.Some? ==> r.origin == learned.value
    ensures learned.None? ==> r.origin == urlOrigin
  {
    if learned.Some? then NewActivityResult(code, data, learned.value, true, true)
    else NewActivityResult(code, data, urlOrigin, false, false)
  }

  /** `result_` as written: the mode lands in the `origin` slot, the origin
      in `originVerified` (kept here as its truthiness) and the connected
      flag in `secureChannel`. */
  function PopupResultAsWritten(code: ResultCode, data: Value, learned: Option<string>, urlOrigin: string): (r: ActivityResult)
    ensures r.origin == ModeName(POPUP)
  {
    var origin := if learned.Some? then learned.value else urlOrigin;
    NewActivityResult(code, data, ModeName(POPUP), origin != "", learned.Some?)
  }

  /** Without a connection, the written result reports the mode as the
      origin and claims a verified origin, where the intended one reports
      the activity URL's origin unverified. */
  lemma PopupResultAsWrittenMisreports(code: ResultCode, data: Value)
    ensures var written := PopupResultAsWritten(code, data, None, "https://example-sp.com");
            var intended := PopupResult(code, data, None, "https://example-sp.com");
            written.origin == "popup" && written.originVerified &&
            intended.origin == "https://example-sp.com" && !intended.originVerified
  {
  }

  // ---------------------------------------------------------------------
  // The popup port

  class ActivityWindowPort {
    const requestId: string
    const url: string
    const openTarget: string
    /** `opt_args || null`. */
    const args: Json
    const options: Option<OpenOptions>

    /** Whether `resultResolver_` is still set. */
    var resolverLive: bool
    /** How the result promise settled, if it did. */
    ghost var outcome: Option<PortOutcome>
    var targetWin: Option<WindowId>
    /** Whether the 500 ms heartbeat interval is registered. */
    var heartbeat: bool
    var messenger: Messenger?
    /** Grace delays of the scheduled cancellation timers. */
    var pendingCancels: seq<int>
    /** Number of scheduled 200 ms re-checks. */
    var pendingChecks: nat
    ghost var opens: seq<OpenCall>
    /** The windows `disconnect` asked to close. */
    ghost var closeRequests: seq<WindowId>

    /** The target is valid, a live resolver means nothing settled yet, and
        a messenger is a connected one fixed on a window. */
    ghost predicate Valid()
      reads this, messenger
    {
      && ValidTarget(openTarget)
      && CanonicalArgs(args)
      && (resolverLive ==> outcome.None?)
      && (messenger != null ==> messenger.Valid() && messenger.source.Direct? && messenger.onCommand)
    }

    constructor(requestId: string, url: string, target: string, args: Json, options: Option<OpenOptions>)
      requires ValidTarget(target)
      ensures Valid()
      ensures this.requestId == requestId && this.url == url && openTarget == target
      ensures this.args == OrNull(args) && this.options == options
      ensures resolverLive && outcome.None? && targetWin.None? && !heartbeat && messenger == null
      ensures pendingCancels == [] && pendingChecks == 0 && opens == [] && closeRequests == []
    {
      this.requestId := requestId;
      this.url := url;
      openTarget := target;
      this.args := OrNull(args);
      this.options := options;
      resolverLive := true;
      outcome := None;
      targetWin := None;
      heartbeat := false;
      messenger := null;
      pendingCancels := [];
      pendingChecks := 0;
      opens := [];
      closeRequests := [];
    }

    /** `getMode()`. */
    method GetMode() returns (m: Mode)
      ensures m == PortMode(openTarget)
    {
      if openTarget == "_top" {
        return REDIRECT;
      }
      return POPUP;
    }

    /** `getTargetWin()`. */
    method GetTargetWin() returns (w: Option<WindowId>)
      ensures w == targetWin
    {
      return targetWin;
    }

    /** `disconnect()`: stops the heartbeat, disconnects and drops the
        messenger, asks the popup to close and drops the resolver. */
    method Disconnect()
      requires Valid()
      modifies this`heartbeat, this`messenger, this`targetWin, this`resolverLive, this`closeRequests,
               messenger
      ensures Valid()
      ensures !heartbeat && messenger == null && targetWin.None? && !resolverLive
      ensures old(messenger) != null ==>
                !old(messenger).onCommand && old(messenger).outbox == old(messenger.outbox) &&
                old(messenger).targetOrigin == old(messenger.targetOrigin)
      ensures old(messenger) != null ==>
                old(messenger).target == old(messenger.target) &&
                old(messenger).onCustomMessage == old(messenger.onCustomMessage) &&
                old(messenger).nextPort == old(messenger.nextPort) &&
                TableDropped(old(messenger.onCommand), old(messenger.channels), old(messenger.closed),
                             old(messenger).channels, old(messenger).closed)
      ensures closeRequests == old(closeRequests) + (if old(targetWin).Some? then [old(targetWin).value] else [])
    {
      heartbeat := false;
      if messenger != null {
        messenger.Disconnect();
        messenger := null;
      }
      if targetWin.Some? {
        // `close()` may throw; the error is ignored.
        closeRequests := closeRequests + [targetWin.value];
        targetWin := None;
      }
      resolverLive := false;
    }

    /** `disconnectWithError_(reason)`: rejects the promise with `reason`
        unless it already settled, then disconnects. */
    method DisconnectWithError(reason: ErrorValue)
      requires Valid()
      modifies this`heartbeat, this`messenger, this`targetWin, this`resolverLive, this`closeRequests, this`outcome,
               messenger
      ensures Valid()
      ensures !heartbeat && messenger == null && targetWin.None? && !resolverLive
      ensures outcome == if old(resolverLive) then Some(RejectedWith(reason)) else old(outcome)
      ensures old(messenger) != null ==>
                !old(messenger).onCommand && old(messenger).outbox == old(messenger.outbox) &&
                old(messenger).targetOrigin == old(messenger.targetOrigin)
      ensures old(messenger) != null ==>
                old(messenger).target == old(messenger.target) &&
                old(messenger).onCustomMessage == old(messenger.onCustomMessage) &&
                old(messenger).nextPort == old(messenger.nextPort) &&
                TableDropped(old(messenger.onCommand), old(messenger.channels), old(messenger.closed),
                             old(messenger).channels, old(messenger).closed)
      ensures closeRequests == old(closeRequests) + (if old(targetWin).Some? then [old(targetWin).value] else [])
    {
      if resolverLive {
        outcome := Some(RejectedWith(reason));
        resolverLive := false;
      }
      Disconnect();
    }

    /** `openInternal_()` on a browser whose answers are `o`; `viaBlank`
        and `isEdge` stand for the user-agent tests. */
    method Open(href: string, viaBlank: bool, isEdge: bool, screenWidth: int, screenHeight: int, o: OpenOracle)
      requires Valid()
      modifies this`heartbeat, this`messenger, this`targetWin, this`resolverLive, this`closeRequests, this`outcome,
               this`opens, messenger
      ensures Valid()
      ensures var features := FeaturesText(FeatureList(screenWidth, screenHeight, options, isEdge));
              opens == old(opens) + CascadeCalls(OpenUrl(url, requestId, args, options, href), features,
                                                 openTarget, viaBlank, o)
      ensures var (win, target) := Cascade(openTarget, viaBlank, o);
              && (win.Some? && target != "_top" ==>
                    && targetWin == win && heartbeat && resolverLive == old(resolverLive) && outcome == old(outcome)
                    && messenger != null && fresh(messenger) && messenger.source == Direct(win.value)
                    && messenger.targetOrigin.None? && messenger.outbox == [])
              && (win.Some? && target == "_top" ==>
                    targetWin == win && heartbeat == old(heartbeat) && messenger == old(messenger) &&
                    resolverLive == old(resolverLive) && outcome == old(outcome))
              && (win.None? ==>
                    && outcome == (if old(resolverLive) then Some(RejectedWith(PlainError(OPEN_ERROR))) else old(outcome))
                    && !resolverLive && targetWin.None? && messenger == null && !heartbeat)
    {
      var features := BuildFeatures(screenWidth, screenHeight, options, isEdge);
      var win, target := OpenWindow(OpenUrl(url, requestId, args, options, href), features, viaBlank, o);
      UseWindow(win, target);
    }

    /** The end of `openInternal_()`: keep the window and set up messaging
        unless it was opened as `_top`; without a window, fail. */
    method UseWindow(win: Option<WindowId>, target: string)
      requires Valid()
      modifies this`heartbeat, this`messenger, this`targetWin, this`resolverLive, this`closeRequests, this`outcome,
               messenger
      ensures Valid()
      ensures win.Some? && target != "_top" ==>
                && targetWin == win && heartbeat && resolverLive == old(resolverLive) && outcome == old(outcome)
                && messenger != null && fresh(messenger) && messenger.source == Direct(win.value)
                && messenger.targetOrigin.None? && messenger.outbox == []
      ensures win.Some? && target == "_top" ==>
                targetWin == win && heartbeat == old(heartbeat) && messenger == old(messenger) &&
                resolverLive == old(resolverLive) && outcome == old(outcome)
      ensures win.None? ==>
                && outcome == (if old(resolverLive) then Some(RejectedWith(PlainError(OPEN_ERROR))) else old(outcome))
                && !resolverLive && targetWin.None? && messenger == null && !heartbeat
    {
      if win.Some? {
        targetWin := win;
        if target != "_top" {
          SetupPopup(win.value);
        }
      } else {
        DisconnectWithError(PlainError(OPEN_ERROR));
      }
    }

    /** The `window.open` cascade of `openInternal_()`, which reassigns the
        window and the target as it falls back. */
    method OpenWindow(u: string, features: string, viaBlank: bool, o: OpenOracle)
      returns (win: Option<WindowId>, target: string)
      modifies this`opens
      ensures (win, target) == Cascade(openTarget, viaBlank, o)
      ensures opens == old(opens) + CascadeCalls(u, features, openTarget, viaBlank, o)
    {
      win := None;
      target := openTarget;
      if target != "_top" && viaBlank {
        opens := opens + [WindowOpen("", target, Some(features))];
        win := o.blank;
        if win.Some? {
          opens := opens + [LocationReplace(win.value, u)];
          if !o.replaced {
            // The blank window is kept but forgotten; the open is repeated.
            win := None;
          }
        }
      }
      assert win == BlankWindow(openTarget, viaBlank, o);
      if win.None? {
        opens := opens + [WindowOpen(u, target, Some(features))];
        win := o.given;
      }
      if win.None? && target != "_top" {
        target := "_top";
        opens := opens + [WindowOpen(u, target, None)];
        win := o.top;
      }
    }

    /** `setupPopup_()`: starts the heartbeat and connects a messenger fixed
        on the popup, with no origin yet. */
    method SetupPopup(win: WindowId)
      requires Valid()
      modifies this`heartbeat, this`messenger
      ensures Valid()
      ensures heartbeat && fresh(messenger) && messenger.source == Direct(win)
      ensures messenger.targetOrigin.None? && messenger.outbox == []
    {
      heartbeat := true;
      var m := new Messenger(Direct(win), None);
      var st := m.Connect();
      messenger := m;
    }

    /** `check_(delayCancel)` on a popup that is `closed` or not: a missing
        or closed popup stops the heartbeat and schedules a cancellation. */
    method Check(closed: bool, delayCancel: bool)
      modifies this`heartbeat, this`pendingCancels
      ensures targetWin.None? || closed ==>
                !heartbeat &&
                pendingCancels == old(pendingCancels) +
                  [if delayCancel then HEARTBEAT_CANCEL_DELAY else CHECK_CANCEL_DELAY]
      ensures targetWin.Some? && !closed ==> heartbeat == old(heartbeat) && pendingCancels == old(pendingCancels)
    {
      if targetWin.None? || closed {
        heartbeat := false;
        pendingCancels := pendingCancels + [if delayCancel then HEARTBEAT_CANCEL_DELAY else CHECK_CANCEL_DELAY];
      }
    }

    /** The heartbeat interval fires; it only fires while registered. */
    method HeartbeatFired(closed: bool)
      requires heartbeat
      modifies this`heartbeat, this`pendingCancels
      ensures targetWin.None? || closed ==>
                !heartbeat && pendingCancels == old(pendingCancels) + [HEARTBEAT_CANCEL_DELAY]
      ensures targetWin.Some? && !closed ==> heartbeat && pendingCancels == old(pendingCancels)
    {
      Check(closed, true);
    }

    /** A re-check scheduled by a `check` command fires. */
    method CheckTimerFired(closed: bool)
      requires pendingChecks > 0
      modifies this`heartbeat, this`pendingCancels, this`pendingChecks
      ensures pendingChecks == old(pendingChecks) - 1
      ensures targetWin.None? || closed ==>
                !heartbeat && pendingCancels == old(pendingCancels) + [CHECK_CANCEL_DELAY]
      ensures targetWin.Some? && !closed ==> heartbeat == old(heartbeat) && pendingCancels == old(pendingCancels)
    {
      pendingChecks := pendingChecks - 1;
      Check(closed, false);
    }

    /** Cancellation timer `i` fires: `result_(CANCELED, null)`, and an
        error it throws rejects the promise (if still open) and disconnects. */
    method CancelTimerFired(i: int, parseUrl: string -> Location)
      requires Valid()
      requires 0 <= i < |pendingCancels|
      modifies this`heartbeat, this`messenger, this`targetWin, this`resolverLive, this`closeRequests, this`outcome,
               this`pendingCancels, messenger
      ensures Valid()
      ensures pendingCancels == old(pendingCancels[..i] + pendingCancels[i + 1..])
      ensures old(outcome).Some? ==> outcome == old(outcome)
      ensures old(resolverLive) && old(messenger) != null ==>
                outcome == Some(Resolved(ResolveResult(
                  PopupResult(CANCELED, NullValue, old(messenger.targetOrigin), GetOriginFromUrl(parseUrl, url)))))
      ensures !resolverLive && messenger == null && targetWin.None? && !heartbeat
    {
      pendingCancels := pendingCancels[..i] + pendingCancels[i + 1..];
      var err := DeliverResult(CANCELED, NullValue, parseUrl);
      if err.Some? {
        DisconnectWithError(err.value);
      }
    }

    /** `result_(code, data)`: settles the promise once with the intended
        trust triple, then sends `close` (which throws while no origin is
        known) and disconnects. The returned error is the one thrown. */
    method DeliverResult(code: ResultCode, data: Value, parseUrl: string -> Location) returns (err: Option<ErrorValue>)
      requires Valid()
      modifies this`heartbeat, this`messenger, this`targetWin, this`resolverLive, this`closeRequests, this`outcome,
               messenger
      ensures Valid()
      ensures old(outcome).Some? ==> outcome == old(outcome)
      ensures old(resolverLive) && old(messenger) == null ==>
                err == Some(ErrorValue("TypeError", "this.messenger_ is null", None)) && unchanged(this)
      ensures !(old(resolverLive) && old(messenger) == null) ==> !resolverLive
      ensures err.Some? ==> messenger == old(messenger)
      ensures old(resolverLive) && old(messenger) != null ==>
                outcome == Some(Resolved(ResolveResult(
                  PopupResult(code, data, old(messenger.targetOrigin), GetOriginFromUrl(parseUrl, url)))))
      ensures old(messenger) != null ==>
                (err.None? <==> old(messenger.targetOrigin).Some?) &&
                (err.Some? ==> err == Some(PlainError("not connected")) && old(messenger).outbox == old(messenger.outbox)) &&
                (err.None? ==>
                   old(messenger).outbox == old(messenger.outbox) +
                     [Post(old(messenger).source.window, "close", JNull, old(messenger.targetOrigin).value, [])])
      ensures err.None? ==> messenger == null && targetWin.None? && !heartbeat &&
                            closeRequests == old(closeRequests) + (if old(targetWin).Some? then [old(targetWin).value] else [])
    {
      if resolverLive {
        if messenger == null {
          return Some(ErrorValue("TypeError", "this.messenger_ is null", None));
        }
        var isConnected := messenger.IsConnected();
        var learned: Option<string> := None;
        if isConnected {
          var o := messenger.GetTargetOrigin();
          learned := Some(o.value);
        }
        outcome := Some(Resolved(ResolveResult(PopupResult(code, data, learned, GetOriginFromUrl(parseUrl, url)))));
        resolverLive := false;
      }
      if messenger != null {
        var st := messenger.SendCommand("close", JNull, [], None);
        if st.Thrown? {
          return Some(PlainError(st.message));
        }
      }
      Disconnect();
      return None;
    }

    /** `handleCommand_(cmd, payload)`: `connect` answers with `start` and
        the arguments; `result` delivers the result; `check` schedules a
        re-check. A thrown error is returned. */
    method HandleCommand(cmd: string, payload: Json, parseUrl: string -> Location) returns (st: Status)
      requires Valid() && messenger != null
      modifies this`heartbeat, this`messenger, this`targetWin, this`resolverLive, this`closeRequests, this`outcome,
               this`pendingChecks, messenger
      ensures Valid()
      ensures old(outcome).Some? ==> outcome == old(outcome)
      ensures cmd == "connect" ==>
                messenger == old(messenger) && outcome == old(outcome) &&
                (st.Done? <==> messenger.targetOrigin.Some?) &&
                (st.Done? ==>
                   messenger.outbox == old(messenger.outbox) +
                     [Post(messenger.source.window, "start", args, messenger.targetOrigin.value, [])])
      ensures cmd == "result" && payload == JNull ==> st.Thrown? && outcome == old(outcome)
      ensures cmd == "result" && payload != JNull && old(resolverLive) ==>
                var code := CodeField(Get(payload, "code"));
                outcome == Some(Resolved(ResolveResult(
                  PopupResult(code, ResultData(code, Get(payload, "data")),
                              old(messenger.targetOrigin), GetOriginFromUrl(parseUrl, url)))))
      ensures cmd == "check" ==> st == Done && pendingChecks == old(pendingChecks) + 1 && outcome == old(outcome)
      ensures cmd != "connect" && cmd != "result" && cmd != "check" ==> st == Done && outcome == old(outcome)
    {
      st := Done;
      if cmd == "connect" {
        st := messenger.SendCommand("start", args, [], None);
      } else if cmd == "result" {
        if payload == JNull {
          return Thrown("TypeError: payload is null");
        }
        var code := CodeField(Get(payload, "code"));
        var err := DeliverResult(code, ResultData(code, Get(payload, "data")), parseUrl);
        if err.Some? {
          st := Thrown(err.value.message);
        }
      } else if cmd == "check" {
        pendingChecks := pendingChecks + 1;
      }
    }

    /** A `message` event reaching the messenger's listener, which exists
        while the messenger does. */
    method ReceiveMessage(data: Json, origin: string, eventSource: Option<WindowId>, ports: seq<Port>,
                          parseUrl: string -> Location) returns (st: Status)
      requires Valid() && messenger != null
      modifies this`heartbeat, this`messenger, this`targetWin, this`resolverLive, this`closeRequests, this`outcome,
               this`pendingChecks, messenger
      ensures Valid()
      ensures old(outcome).Some? ==> outcome == old(outcome)
      ensures !HasSentinel(data) ==> st == Done && unchanged(this) && unchanged(old(messenger))
      ensures old(messenger.targetOrigin).Some? && old(messenger.targetOrigin) != Some(origin) ==>
                st == Done && unchanged(this) && unchanged(old(messenger))
      ensures var fromWindow := eventSource.Some? &&
                LookedUpTarget(true, old(messenger.target), old(messenger.source), None) == eventSource;
              HasSentinel(data) && CommandOf(data) == "result" && GetOrNull(data, "payload") != JNull &&
              old(resolverLive) &&
              LearnOrigin(old(messenger.targetOrigin), "result", origin, fromWindow) == Some(origin) ==>
                var payload := GetOrNull(data, "payload");
                var code := CodeField(Get(payload, "code"));
                outcome == Some(Resolved(ResolveResult(
                  PopupResult(code, ResultData(code, Get(payload, "data")), Some(origin),
                              GetOriginFromUrl(parseUrl, url)))))
    {
      var d := messenger.HandleEvent(data, origin, eventSource, ports, None);
      match d
      case Forward(cmd, payload) =>
        st := HandleCommand(cmd, payload, parseUrl);
      case Failed(message) =>
        st := Thrown(message);
      case _ =>
        st := Done;
    }
  }

  /** `new ActivityWindowPort(win, requestId, url, target, opt_args,
      opt_options)`: throws on a target it does not accept. */
  method NewWindowPort(requestId: string, url: string, target: string, args: Json, options: Option<OpenOptions>)
    returns (r: Result<ActivityWindowPort>)
    ensures r.Ok? <==> ValidTarget(target)
    ensures r.Err? ==> r.message == TARGET_ERROR
    ensures r.Ok? ==> fresh(r.value) && r.value.Valid() && r.value.openTarget == target &&
                      r.value.resolverLive && r.value.outcome.None? && r.value.messenger == null
  {
    if !ValidTarget(target) {
      return Err(TARGET_ERROR);
    }
    var p := new ActivityWindowPort(requestId, url, target, args, options);
    return Ok(p);
  }

  // ---------------------------------------------------------------------
  // The redirect port

  /** `response['requestId'] != requestId`, compared as strings. */
  predicate SameRequestId(v: Option<Json>, requestId: string) {
    v == Some(JStr(requestId))
  }

  /** The response `discoverRedirectPort` looks for, read once: the
      `__WA_RES__` parameter (already decoded by `getQueryParam`), parsed
      as JSON, kept only if it is truthy and carries the request id.
      `Err` is a thrown `URIError` or `SyntaxError`. */
  function FoundResponse(fragment: string, requestId: string): (r: Result<Option<Json>>)
    ensures r.Ok? && r.value.Some? ==> SameRequestId(Get(r.value.value, "requestId"), requestId) && !Falsy(r.value.value)
  {
    var param :- GetQueryParam(fragment, RESULT_PARAM);
    if param.None? || param.value == "" then Ok(None)
    else
      match Parse(param.value)
      case None => Err("SyntaxError: not JSON")
      case Some(response) =>
        if Falsy(response) || !SameRequestId(Get(response, "requestId"), requestId) then Ok(None)
        else Ok(Some(response))
  }

  /** `discoverRedirectPort` as written: the parameter is decoded a second
      time before it is parsed. */
  function FoundResponseAsWritten(fragment: string, requestId: string): (r: Result<Option<Json>>)
    ensures r.Ok? && r.value.Some? ==> SameRequestId(Get(r.value.value, "requestId"), requestId)
  {
    var param :- GetQueryParam(fragment, RESULT_PARAM);
    if param.None? || param.value == "" then Ok(None)
    else
      match Percent.Decode(param.value)
      case None => Err("URIError: URI malformed")
      case Some(text) =>
        match Parse(text)
        case None => Err("SyntaxError: not JSON")
        case Some(response) =>
          if Falsy(response) || !SameRequestId(Get(response, "requestId"), requestId) then Ok(None)
          else Ok(Some(response))
  }

  /** A response whose text holds a `%` not followed by two hex digits
      makes the written lookup throw, whatever the request id. */
  lemma FoundResponseAsWrittenThrows(fragment: string, requestId: string, a: string, b: string)
    requires GetQueryParam(fragment, RESULT_PARAM) == Ok(Some(a + b))
    requires b != [] && b[0] == '%' && (|b| < 3 || !Percent.IsHex(b[1]) || !Percent.IsHex(b[2]))
    ensures FoundResponseAsWritten(fragment, requestId) == Err("URIError: URI malformed")
  {
    Percent.DecodeFailsAtBadPercent(a, b);
  }

  /** The origin of the referrer, `''` when there is none. */
  function ReferrerOrigin(referrer: string, parseUrl: string -> Location): string
  {
    if referrer == "" then "" else GetOriginFromUrl(parseUrl, referrer)
  }

  /** `ActivityWindowRedirectPort`: what the redirect result carried. */
  datatype RedirectPort = RedirectPort(code: ResultCode, data: Value, targetOrigin: string, targetOriginVerified: bool)

  /** A discovered port, and the fragment `history.replaceState` is given
      when removing the parameter changed it. */
  datatype Discovered = Discovered(port: RedirectPort, replaceState: Option<string>)

  /** `response['origin']` as a string; a non-string origin is carried as `''`. */
  function OriginField(response: Json): string
  {
    match Get(response, "origin")
    case Some(JStr(s)) => s
    case _ => ""
  }

  /** `discoverRedirectPort(win, fragment, requestId)` on a window whose
      hash is `hash` and whose referrer is `referrer`. */
  function DiscoverRedirectPort(fragment: string, requestId: string, hash: string, referrer: string,
                                parseUrl: string -> Location): (r: Result<Option<Discovered>>)
    ensures r.Err? <==> FoundResponse(fragment, requestId).Err?
    ensures r == Ok(None) <==> FoundResponse(fragment, requestId) == Ok(None)
    ensures r.Ok? && r.value.Some? ==>
              var response := FoundResponse(fragment, requestId).value.value;
              var port := r.value.value.port;
              && port.code == CodeField(Get(response, "code"))
              && port.targetOrigin == OriginField(response)
              && (port.targetOriginVerified <==>
                    Get(response, "origin") == Some(JStr(ReferrerOrigin(referrer, parseUrl))))
              && (r.value.value.replaceState.Some? <==> QueryWithout(hash, RESULT_PARAM) != hash)
              && (r.value.value.replaceState.Some? ==> r.value.value.replaceState.value == QueryWithout(hash, RESULT_PARAM))
  {
    var found :- FoundResponse(fragment, requestId);
    if found.None? then Ok(None)
    else
      var response := found.value;
      var clean := QueryWithout(hash, RESULT_PARAM);
      var data := Get(response, "data");
      var port := RedirectPort(
        CodeField(Get(response, "code")),
        JsonValue(if data.Some? then data.value else JNull),
        OriginField(response),
        Get(response, "origin") == Some(JStr(ReferrerOrigin(referrer, parseUrl))));
      Ok(Some(Discovered(port, if clean != hash then Some(clean) else None)))
  }

  /** `getMode()` of a redirect port. */
  function RedirectPortMode(p: RedirectPort): (m: Mode)
    ensures m == REDIRECT
  {
    REDIRECT
  }

  /** The result `acceptResult()` means to build: the carried origin and
      flag, over a channel that is never secure. */
  function RedirectResult(p: RedirectPort): (r: ActivityResult)
    ensures WellFormed(r) && r.code == p.code
    ensures r.origin == p.targetOrigin && r.originVerified == p.targetOriginVerified && !r.secureChannel
    ensures p.code == OK ==> r.data == p.data
  {
    NewActivityResult(p.code, p.data, p.targetOrigin, p.targetOriginVerified, false)
  }

  /** `acceptResult()` as written: the mode lands in the `origin` slot, the
      origin in `originVerified` (kept here as its truthiness) and the
      verified flag in `secureChannel`. */
  function RedirectResultAsWritten(p: RedirectPort): (r: ActivityResult)
    ensures r.origin == ModeName(REDIRECT)
    ensures r.secureChannel == p.targetOriginVerified
  {
    NewActivityResult(p.code, p.data, ModeName(REDIRECT), p.targetOrigin != "", p.targetOriginVerified)
  }

  /** A port whose origin the referrer does not vouch for is reported as a
      verified origin named `redirect` by the written code, and as its own
      unverified origin by the intended one. */
  lemma RedirectResultAsWrittenMisreports(code: ResultCode, data: Value)
    ensures var p := RedirectPort(code, data, "https://example-sp.com", false);
            RedirectResultAsWritten(p).origin == "redirect" && RedirectResultAsWritten(p).originVerified &&
            RedirectResult(p).origin == "https://example-sp.com" && !RedirectResult(p).originVerified
  {
  }

  /** `acceptResult()`: the settlement of the intended result. */
  function AcceptRedirectResult(p: RedirectPort): (s: Settlement)
    ensures s.Fulfilled? <==> p.code == OK
    ensures s.Fulfilled? ==> s.result == RedirectResult(p)
    ensures s.Rejected? ==> s.activityResult == RedirectResult(p)
  {
    ResolveResult(RedirectResult(p))
  }
}
