/** The two hosts of a standalone-window activity.

    `ActivityWindowRedirectHost` reads its request from the page URL (or
    from its caller), works out how far it may trust the client's origin,
    and answers by navigating back to the client's return URL with the
    result in the `__WA_RES__` fragment parameter.

    `ActivityWindowPopupHost` tries to talk to its opener window through a
    `Messenger`; it connects its redirect host first and falls back to it
    when no `start` arrives within five seconds. */
module WindowHost {
  import opened Base
  import opened Percent
  import opened Json
  import opened ActivityTypes
  import opened Utils
  import opened Messaging

  /** What the browser reports about the activity's own window. */
  datatype WindowEnv = WindowEnv(
    origin: string,       // `win.origin`, empty when the browser has none
    location: Location,   // `win.location`
    hash: string,         // `win.location.hash`
    referrer: string)     // `win.document.referrer`

  /** The optional `connect` argument: a request object, a request string,
      or nothing. */
  datatype RequestArg = NoRequest | RequestObject(request: Request) | RequestText(text: string)

  predicate Truthy(s: Option<string>) {
    s.Some? && s.value != ""
  }

  /** The request the redirect host works from: an object as given, a
      non-empty string parsed as trusted, otherwise the `__WA__` fragment
      parameter parsed as untrusted. `Ok(None)` means there is none. */
  function RequestSource(arg: RequestArg, hash: string): (r: Result<Option<Request>>)
    ensures arg.RequestObject? ==> r == Ok(Some(arg.request))
    ensures arg.RequestText? && arg.text != "" ==> r == ParseRequest(arg.text, true)
    ensures !arg.RequestObject? && !(arg.RequestText? && arg.text != "") && r.Ok? && r.value.Some? ==>
              r.value.value.origin.None? && r.value.value.originVerified.None?
  {
    match arg
    case RequestObject(request) => Ok(Some(request))
    case RequestText(text) =>
      if text != "" then ParseRequest(text, true) else FragmentRequest(hash)
    case NoRequest => FragmentRequest(hash)
  }

  function FragmentRequest(hash: string): (r: Result<Option<Request>>)
    ensures r.Ok? && r.value.Some? ==> r.value.value.origin.None? && r.value.value.originVerified.None?
  {
    var param :- GetQueryParam(hash, REQUEST_PARAM);
    if param.None? || param.value == "" then Ok(None) else ParseRequest(param.value, false)
  }

  /** A request the redirect host can connect with. */
  predicate Complete(r: Option<Request>) {
    r.Some? && Truthy(r.value.requestId) && Truthy(r.value.returnUrl)
  }

  /** The client's origin and whether it is verified. */
  datatype Trust = Trust(origin: string, verified: bool)

  /** An explicit request origin is trusted with its own flag; otherwise
      the origin is that of the return URL, verified exactly when a
      referrer is present and has the same origin. */
  function TrustOf(r: Request, parseUrl: string -> Location, referrer: string): (t: Trust)
    requires r.returnUrl.Some?
    ensures Truthy(r.origin) ==> t.origin == r.origin.value && (t.verified <==> r.originVerified == Some(true))
    ensures !Truthy(r.origin) ==>
              t.origin == GetOriginFromUrl(parseUrl, r.returnUrl.value) &&
              (t.verified <==> referrer != "" && GetOriginFromUrl(parseUrl, referrer) == t.origin)
    ensures t.origin != ""
  {
    if Truthy(r.origin) then
      Trust(r.origin.value, r.originVerified == Some(true))
    else
      var origin := GetOriginFromUrl(parseUrl, r.returnUrl.value);
      OriginNotEmpty(parseUrl(r.returnUrl.value));
      var referrerOrigin := if referrer != "" then GetOriginFromUrl(parseUrl, referrer) else "";
      Trust(origin, referrerOrigin == origin)
  }

  /** `getOrigin` never yields the empty string, so an absent referrer
      can never match it. */
  lemma OriginNotEmpty(loc: Location)
    ensures GetOrigin(loc) != ""
  {
    if loc.origin == "" {
      assert |loc.protocol + "//"| >= 2;
    }
  }

  /** The response object a redirect result carries. */
  function ResponseJson(requestId: string, origin: string, code: ResultCode, data: Json): Json
  {
    JObj([Member("requestId", JStr(requestId)), Member("origin", JStr(origin)),
          Member("code", CodeJson(code)), Member("data", data)])
  }

  /** The URL the redirect host navigates to: the return URL, then `#`
      (or `&` when it already has a fragment), then the stringified
      response as the encoded `__WA_RES__` parameter. */
  function ResultUrl(returnUrl: string, response: Json): string
  {
    returnUrl + (if IndexOfChar(returnUrl, '#') == -1 then "#" else "&") +
      RESULT_PARAM + "=" + Encode(Stringify(response))
  }

  /** The result URL is the return URL with one fragment parameter added. */
  lemma ResultUrlAddsParam(returnUrl: string, response: Json)
    ensures ResultUrl(returnUrl, response) == AddFragmentParam(returnUrl, RESULT_PARAM, Stringify(response))
  {
    EncodeUnreserved(RESULT_PARAM);
    FragmentParamText(returnUrl, RESULT_PARAM, Stringify(response));
  }

  /** `addFragmentParam` written out for a name that encodes to itself. */
  lemma FragmentParamText(url: string, param: string, value: string)
    requires Encode(param) == param
    ensures url + (if IndexOfChar(url, '#') == -1 then "#" else "&") + param + "=" + Encode(value) ==
            AddFragmentParam(url, param, value)
  {
    var sep := if IndexOfChar(url, '#') == -1 then "#" else "&";
    assert sep == (if '#' !in url then "#" else "&");
    var e := Encode(value);
    ConcatAssoc(url + sep, param, "=");
    ConcatAssoc(url + sep, param + "=", e);
  }

  /** The result URL starts with the return URL. */
  lemma ResultUrlExtendsReturnUrl(returnUrl: string, response: Json)
    ensures IsPrefix(returnUrl, ResultUrl(returnUrl, response))
  {
    var sep := if IndexOfChar(returnUrl, '#') == -1 then "#" else "&";
    var e := Encode(Stringify(response));
    ConcatAssoc(returnUrl, sep, RESULT_PARAM);
    ConcatAssoc(returnUrl, sep + RESULT_PARAM, "=");
    ConcatAssoc(returnUrl, sep + RESULT_PARAM + "=", e);
    PrefixOfAppend(returnUrl, sep + RESULT_PARAM + "=" + e);
  }

  lemma PrefixOfAppend(a: string, b: string)
    ensures IsPrefix(a, a + b)
  {
    assert (a + b)[..|a|] == a;
  }

  /** The client reads back exactly the response the host sent. */
  lemma ResultUrlCarriesResponse(returnUrl: string, response: Json)
    requires ParseQueryString(FragmentOf(returnUrl)).Some?
    ensures GetQueryParam(FragmentOf(ResultUrl(returnUrl, response)), RESULT_PARAM) == Ok(Some(Stringify(response)))
  {
    ResultUrlAddsParam(returnUrl, response);
    GetAddedFragmentParam(returnUrl, RESULT_PARAM, Stringify(response), RESULT_PARAM);
  }

  /** The part of the return URL before its fragment is kept. */
  lemma ResultUrlKeepsBase(returnUrl: string, response: Json)
    ensures RemoveFragment(ResultUrl(returnUrl, response)) == RemoveFragment(returnUrl)
  {
    ResultUrlAddsParam(returnUrl, response);
    RemoveFragmentOfAdded(returnUrl, RESULT_PARAM, Stringify(response));
  }

  /** One call of the `onResizeComplete` callback of a window host:
      `(allowedHeight, requestedHeight, allowedHeight < requestedHeight)`. */
  datatype WindowResizeReport = WindowResizeReport(allowed: int, requested: int, smaller: bool)

  /** What `resized_` reports in a window host: the window's inner height
      against the container's height, when both a container and a callback
      are set. */
  function WindowResizeReports(hasSizeContainer: bool, hasResizeCallback: bool,
                               scrollHeight: int, innerHeight: int): (rs: seq<WindowResizeReport>)
    ensures |rs| <= 1
    ensures |rs| == 1 <==> hasSizeContainer && hasResizeCallback
    ensures |rs| == 1 ==> rs[0].allowed == innerHeight && rs[0].requested == scrollHeight &&
                          (rs[0].smaller <==> innerHeight < scrollHeight)
  {
    if hasSizeContainer && hasResizeCallback
    then [WindowResizeReport(innerHeight, scrollHeight, innerHeight < scrollHeight)]
    else []
  }

  /** How the redirect host's `connect` ends: refused with an error
      (`taken` is the request whose id and args were already taken when
      only its return URL was refused), or connected with the client's
      trust worked out. */
  datatype Connection =
    | Refused(message: string, taken: Option<Request>)
    | Connected(request: Request, trust: Trust)

  /** The outcome of `connect` for an argument, in a window. */
  function ConnectionOf(arg: RequestArg, win: WindowEnv, parseUrl: string -> Location): (c: Connection)
    ensures var source := RequestSource(arg, win.hash);
            c.Connected? <==>
              source.Ok? && Complete(source.value) && !UnsafeRedirectUrl(source.value.value.returnUrl.value)
    ensures c.Connected? ==>
              RequestSource(arg, win.hash) == Ok(Some(c.request)) &&
              Complete(Some(c.request)) && !UnsafeRedirectUrl(c.request.returnUrl.value) &&
              c.trust == TrustOf(c.request, parseUrl, win.referrer)
    ensures var source := RequestSource(arg, win.hash);
            c.Refused? && c.taken.Some? ==>
              source == Ok(Some(c.taken.value)) && Complete(source.value) &&
              c.message == "The redirect URL is unsafe"
    ensures var source := RequestSource(arg, win.hash);
            c.Refused? && c.taken.None? ==>
              (source.Err? && c.message == source.message) ||
              (source.Ok? && !Complete(source.value) &&
               c.message == "Request must have requestId and returnUrl")
  {
    var source := RequestSource(arg, win.hash);
    if source.Err? then Refused(source.message, None)
    else if !Complete(source.value) then Refused("Request must have requestId and returnUrl", None)
    else
      var r := source.value.value;
      var safe := AssertSafeRedirectUrl(r.returnUrl.value);
      if safe.Err? then Refused(safe.message, Some(r))
      else Connected(r, TrustOf(r, parseUrl, win.referrer))
  }

  class ActivityWindowRedirectHost {
    const win: WindowEnv
    var requestId: Option<string>
    var returnUrl: Option<string>
    var targetOrigin: Option<string>
    var targetOriginVerified: bool
    var args: Json
    var connected: bool
    var accepted: bool
    var hasSizeContainer: bool
    var hasResizeCallback: bool
    var pendingResizes: nat
    ghost var resizeReports: seq<WindowResizeReport>
    /** Every `location.replace`/`location.assign` made. */
    ghost var navigations: seq<string>

    /** A connected host holds a complete request with a safe return URL
        and a known client origin; it is accepted only while connected. */
    ghost predicate Valid()
      reads this
    {
      && (accepted ==> connected)
      && (connected ==>
            Truthy(requestId) && Truthy(returnUrl) && !UnsafeRedirectUrl(returnUrl.value) &&
            targetOrigin.Some?)
    }

    constructor(win: WindowEnv)
      ensures Valid()
      ensures this.win == win
      ensures requestId.None? && returnUrl.None? && targetOrigin.None? && !targetOriginVerified
      ensures args == JNull && !connected && !accepted
      ensures !hasSizeContainer && !hasResizeCallback && pendingResizes == 0
      ensures resizeReports == [] && navigations == []
    {
      this.win := win;
      requestId := None;
      returnUrl := None;
      targetOrigin := None;
      targetOriginVerified := false;
      args := JNull;
      connected := false;
      accepted := false;
      hasSizeContainer := false;
      hasResizeCallback := false;
      pendingResizes := 0;
      resizeReports := [];
      navigations := [];
    }

    /** `connect(opt_request)`. A request without `requestId` or
        `returnUrl` is refused; an unsafe return URL is refused after the
        request id and args are taken. */
    method Connect(arg: RequestArg, parseUrl: string -> Location) returns (st: Status)
      requires Valid()
      modifies this`connected, this`accepted, this`requestId, this`args, this`returnUrl,
               this`targetOrigin, this`targetOriginVerified
      ensures Valid()
      ensures !accepted
      ensures var c := ConnectionOf(arg, win, parseUrl);
              (st.Done? <==> c.Connected?) && (connected <==> c.Connected?) &&
              (c.Refused? ==> st == Thrown(c.message))
      ensures var c := ConnectionOf(arg, win, parseUrl);
              c.Refused? ==>
                returnUrl == old(returnUrl) && targetOrigin == old(targetOrigin) &&
                targetOriginVerified == old(targetOriginVerified) &&
                (c.taken.None? ==> requestId == old(requestId) && args == old(args)) &&
                (c.taken.Some? ==> requestId == c.taken.value.requestId && args == c.taken.value.args)
      ensures var c := ConnectionOf(arg, win, parseUrl);
              c.Connected? ==>
                requestId == c.request.requestId && args == c.request.args &&
                returnUrl == c.request.returnUrl &&
                targetOrigin == Some(c.trust.origin) && targetOriginVerified == c.trust.verified
    {
      var c := ConnectionOf(arg, win, parseUrl);
      st := Establish(c);
    }

    /** Applies the outcome of `connect` to the host's fields. */
    method Establish(c: Connection) returns (st: Status)
      requires Valid()
      requires c.Connected? ==> Complete(Some(c.request)) && !UnsafeRedirectUrl(c.request.returnUrl.value)
      modifies this`connected, this`accepted, this`requestId, this`args, this`returnUrl,
               this`targetOrigin, this`targetOriginVerified
      ensures Valid()
      ensures !accepted
      ensures (st.Done? <==> c.Connected?) && (connected <==> c.Connected?) &&
              (c.Refused? ==> st == Thrown(c.message))
      ensures c.Refused? ==>
                returnUrl == old(returnUrl) && targetOrigin == old(targetOrigin) &&
                targetOriginVerified == old(targetOriginVerified) &&
                (c.taken.None? ==> requestId == old(requestId) && args == old(args)) &&
                (c.taken.Some? ==> requestId == c.taken.value.requestId && args == c.taken.value.args)
      ensures c.Connected? ==>
                requestId == c.request.requestId && args == c.request.args &&
                returnUrl == c.request.returnUrl &&
                targetOrigin == Some(c.trust.origin) && targetOriginVerified == c.trust.verified
    {
      connected := false;
      accepted := false;
      match c
      case Refused(message, taken) =>
        if taken.Some? {
          requestId := taken.value.requestId;
          args := taken.value.args;
        }
        return Thrown(message);
      case Connected(r, t) =>
        requestId := r.requestId;
        args := r.args;
        returnUrl := r.returnUrl;
        targetOrigin := Some(t.origin);
        targetOriginVerified := t.verified;
        connected := true;
        return Done;
    }

    method Disconnect()
      modifies this`connected, this`accepted
      ensures !connected && !accepted
    {
      connected := false;
      accepted := false;
    }

    /** The request this host serves, with its origin and verified flag
        always present. */
    ghost function CurrentRequest(): Request
      reads this
    {
      Request(requestId, returnUrl, args, targetOrigin, Some(targetOriginVerified))
    }

    /** `getRequestString()`: the request, serialized with its trust. */
    method GetRequestString() returns (r: Result<string>)
      ensures r.Ok? <==> connected
      ensures r.Ok? ==> r.value == SerializeRequest(CurrentRequest())
      ensures r.Err? ==> r.message == "not connected"
    {
      if !connected {
        return Err("not connected");
      }
      return Ok(SerializeRequest(Request(requestId, returnUrl, args, targetOrigin, Some(targetOriginVerified))));
    }

    method GetMode() returns (m: Mode)
      ensures m == REDIRECT
    {
      return REDIRECT;
    }

    method GetTargetOrigin() returns (r: Result<string>)
      requires Valid()
      ensures r.Ok? <==> connected
      ensures r.Ok? ==> Some(r.value) == targetOrigin
      ensures r.Err? ==> r.message == "not connected"
    {
      if !connected {
        return Err("not connected");
      }
      return Ok(targetOrigin.value);
    }

    method IsTargetOriginVerified() returns (r: Result<bool>)
      ensures r.Ok? <==> connected
      ensures r.Ok? ==> r.value == targetOriginVerified
      ensures r.Err? ==> r.message == "not connected"
    {
      if !connected {
        return Err("not connected");
      }
      return Ok(targetOriginVerified);
    }

    /** A redirect channel is never secure. */
    method IsSecureChannel() returns (r: bool)
      ensures !r
    {
      return false;
    }

    method Accept() returns (st: Status)
      requires Valid()
      modifies this`accepted
      ensures Valid()
      ensures st.Done? <==> connected
      ensures st.Done? ==> accepted
      ensures st.Thrown? ==> st.message == "not connected" && accepted == old(accepted)
    {
      if !connected {
        return Thrown("not connected");
      }
      accepted := true;
      return Done;
    }

    method GetArgs() returns (r: Result<Json>)
      ensures r.Ok? <==> connected
      ensures r.Ok? ==> r.value == args
      ensures r.Err? ==> r.message == "not connected"
    {
      if !connected {
        return Err("not connected");
      }
      return Ok(args);
    }

    /** `ensureAccepted_()`: throws `not accepted` unless accepted. */
    method EnsureAccepted() returns (st: Status)
      ensures st.Done? <==> accepted
      ensures st.Thrown? ==> st.message == "not accepted"
    {
      if !accepted {
        return Thrown("not accepted");
      }
      return Done;
    }

    /** `ready()`: only `ensureAccepted_()`. */
    method Ready() returns (st: Status)
      ensures st.Done? <==> accepted
      ensures st.Thrown? ==> st.message == "not accepted"
    {
      st := EnsureAccepted();
    }

    /** `message()`: only `ensureAccepted_()`; messaging is not supported. */
    method Message() returns (st: Status)
      ensures st.Done? <==> accepted
      ensures st.Thrown? ==> st.message == "not accepted"
    {
      st := EnsureAccepted();
    }

    /** `onMessage()`: only `ensureAccepted_()`; messaging is not supported. */
    method OnMessage() returns (st: Status)
      ensures st.Done? <==> accepted
      ensures st.Thrown? ==> st.message == "not accepted"
    {
      st := EnsureAccepted();
    }

    /** `messageChannel()`: never supported. */
    method MessageChannel() returns (st: Status)
      ensures st.Thrown?
      ensures st.message == (if accepted then "not supported" else "not accepted")
    {
      if !accepted {
        return Thrown("not accepted");
      }
      return Thrown("not supported");
    }

    method IsMessagingSupported() returns (r: bool)
      ensures !r
    {
      return false;
    }

    method SetSizeContainer()
      modifies this`hasSizeContainer
      ensures hasSizeContainer
    {
      hasSizeContainer := true;
    }

    method OnResizeComplete()
      modifies this`hasResizeCallback
      ensures hasResizeCallback
    {
      hasResizeCallback := true;
    }

    /** `resized()`: schedules `resized_` after 50 ms. */
    method Resized()
      modifies this`pendingResizes
      ensures pendingResizes == old(pendingResizes) + 1
    {
      pendingResizes := pendingResizes + 1;
    }

    /** A scheduled `resized_` fires with the current measurements. */
    method ResizeTimerFired(scrollHeight: int, innerHeight: int)
      requires pendingResizes > 0
      modifies this`pendingResizes, this`resizeReports
      ensures pendingResizes == old(pendingResizes) - 1
      ensures resizeReports ==
                old(resizeReports) + WindowResizeReports(hasSizeContainer, hasResizeCallback, scrollHeight, innerHeight)
    {
      pendingResizes := pendingResizes - 1;
      if hasSizeContainer && hasResizeCallback {
        resizeReports := resizeReports + [WindowResizeReport(innerHeight, scrollHeight, innerHeight < scrollHeight)];
      }
    }

    /** `sendResult_(code, data)`: navigates back to the client once, with
        the response in the return URL's fragment. */
    method SendResult(code: ResultCode, data: Json) returns (st: Status)
      requires Valid()
      modifies this`navigations
      ensures st.Done? <==> (if code == OK then accepted else connected)
      ensures st.Thrown? ==>
                st.message == (if code == OK then "not accepted" else "not connected") &&
                navigations == old(navigations)
      ensures st.Done? ==>
                navigations == old(navigations) +
                  [ResultUrl(returnUrl.value,
                             ResponseJson(requestId.value, GetWindowOrigin(win.origin, win.location), code, data))]
    {
      if code == OK && !accepted {
        return Thrown("not accepted");
      }
      if code != OK && !connected {
        return Thrown("not connected");
      }
      var response := ResponseJson(requestId.value, GetWindowOrigin(win.origin, win.location), code, data);
      var url := ResultUrl(returnUrl.value, response);
      // `location.replace` when the browser has it, else `location.assign`.
      navigations := navigations + [url];
      return Done;
    }

    method Result(data: Json) returns (st: Status)
      requires Valid()
      modifies this`navigations
      ensures st.Done? <==> accepted
      ensures st.Done? ==>
                navigations == old(navigations) +
                  [ResultUrl(returnUrl.value,
                             ResponseJson(requestId.value, GetWindowOrigin(win.origin, win.location), OK, data))]
      ensures st.Thrown? ==> navigations == old(navigations)
    {
      st := SendResult(OK, data);
    }

    method Cancel() returns (st: Status)
      requires Valid()
      modifies this`navigations
      ensures st.Done? <==> connected
      ensures st.Done? ==>
                navigations == old(navigations) +
                  [ResultUrl(returnUrl.value,
                             ResponseJson(requestId.value, GetWindowOrigin(win.origin, win.location), CANCELED, JNull))]
      ensures st.Thrown? ==> navigations == old(navigations)
    {
      st := SendResult(CANCELED, JNull);
    }

    /** `failed(reason)`: the reason travels as `String(reason)`. */
    method Failed(reason: Value) returns (st: Status)
      requires Valid()
      modifies this`navigations
      ensures st.Done? <==> connected
      ensures st.Done? ==>
                navigations == old(navigations) +
                  [ResultUrl(returnUrl.value,
                             ResponseJson(requestId.value, GetWindowOrigin(win.origin, win.location),
                                          FAILED, JStr(ToJsString(reason))))]
      ensures st.Thrown? ==> navigations == old(navigations)
    {
      st := SendResult(FAILED, JStr(ToJsString(reason)));
    }
  }

  /** A request string handed on by a connected redirect host, read back
      as trusted, restores the same client origin and verified flag, and
      the same request id, return URL and args. */
  lemma RequestStringKeepsTrust(requestId: string, returnUrl: string, args: Json, origin: string,
                                verified: bool, parseUrl: string -> Location, referrer: string)
    requires CanonicalArgs(args) && origin != ""
    ensures var s := SerializeRequest(Request(Some(requestId), Some(returnUrl), args, Some(origin), Some(verified)));
            var p := ParseRequest(s, true);
            p.Ok? && p.value.Some? &&
            p.value.value.requestId == Some(requestId) && p.value.value.returnUrl == Some(returnUrl) &&
            p.value.value.args == args &&
            TrustOf(p.value.value, parseUrl, referrer) == Trust(origin, verified)
  {
    ParseSerialized(Request(Some(requestId), Some(returnUrl), args, Some(origin), Some(verified)), true);
  }

  // ---------------------------------------------------------------------
  // The popup host

  /** How the popup host's connect promise settles: with the popup host
      itself, with the redirect host, or rejected with the redirect host's
      deferred error. */
  datatype PopupOutcome = ToPopup | ToRedirect | RedirectFailed(message: string)

  /** A promise resolver called with `x`: only the first call counts. */
  function SettleFirst(o: Option<PopupOutcome>, x: PopupOutcome): (r: Option<PopupOutcome>)
    ensures r.Some?
    ensures o.Some? ==> r == o
    ensures o.None? ==> r == Some(x)
  {
    if o.Some? then o else Some(x)
  }

  /** What the five-second fallback settles with: the deferred redirect
      error when the redirect host failed to connect, else the redirect host. */
  function Fallback(redirectError: Option<string>): (x: PopupOutcome)
    ensures x.RedirectFailed? <==> redirectError.Some?
    ensures x.RedirectFailed? ==> x.message == redirectError.value
  {
    if redirectError.Some? then RedirectFailed(redirectError.value) else ToRedirect
  }

  /** The error the popup host defers from its redirect host's `connect`. */
  function RedirectError(c: Connection): (e: Option<string>)
    ensures e.None? <==> c.Connected?
    ensures c.Refused? ==> e == Some(c.message)
  {
    match c
    case Refused(message, _) => Some(message)
    case Connected(_, _) => None
  }

  /** The popup constructor's precondition: an opener that is not the
      window itself. */
  predicate HasDistinctOpener(self: WindowId, opener: Option<WindowId>) {
    opener.Some? && opener.value != self
  }

  class ActivityWindowPopupHost {
    const win: WindowEnv
    /** The activity's own window and its opener, the messenger's target. */
    const self: WindowId
    const opener: WindowId
    const messenger: Messenger
    const redirectHost: ActivityWindowRedirectHost
    var args: Json
    var connected: bool
    var accepted: bool
    /** Whether `connectedResolver_` is still set: the fallback timer clears
        it, `start` does not. */
    var resolverLive: bool
    /** How `connectedPromise_` settled, if it has. */
    ghost var outcome: Option<PopupOutcome>
    var requestString: Option<string>
    /** The fallback timers scheduled by `connect` and not yet fired, each
        with the redirect error it captured. */
    var timers: seq<Option<string>>
    /** Whether the window `unload` listener is registered. */
    var unloadListening: bool
    /** Calls of `win.close()`. */
    ghost var closeRequests: nat
    var hasSizeContainer: bool
    var hasResizeCallback: bool
    var pendingResizes: nat
    ghost var resizeReports: seq<WindowResizeReport>

    /** Accepted only while connected; a connected host knows its opener
        and the opener's origin; the promise is settled once the resolver
        is gone. */
    ghost predicate Valid()
      reads this, messenger, redirectHost
    {
      && messenger.Valid()
      && redirectHost.Valid()
      && messenger.source == Direct(opener)
      && redirectHost.win == win
      && opener != self
      && (accepted ==> connected)
      && (connected ==> messenger.targetOrigin.Some? && messenger.target.Some?)
      && (unloadListening ==> messenger.targetOrigin.Some? && messenger.target.Some?)
      && (messenger.onCommand ==> messenger.target.Some?)
      && (!resolverLive ==> outcome.Some?)
    }

    constructor(win: WindowEnv, self: WindowId, opener: WindowId)
      requires opener != self
      ensures Valid()
      ensures this.win == win && this.self == self && this.opener == opener
      ensures fresh(messenger) && fresh(redirectHost)
      ensures !connected && !accepted && args == JNull && resolverLive && outcome.None?
      ensures requestString.None? && timers == [] && !unloadListening && closeRequests == 0
      ensures !hasSizeContainer && !hasResizeCallback && pendingResizes == 0 && resizeReports == []
      ensures !messenger.onCommand && messenger.targetOrigin.None? && messenger.outbox == []
      ensures !redirectHost.connected && redirectHost.navigations == []
    {
      this.win := win;
      this.self := self;
      this.opener := opener;
      messenger := new Messenger(Direct(opener), None);
      redirectHost := new ActivityWindowRedirectHost(win);
      args := JNull;
      connected := false;
      accepted := false;
      resolverLive := true;
      outcome := None;
      requestString := None;
      timers := [];
      unloadListening := false;
      closeRequests := 0;
      hasSizeContainer := false;
      hasResizeCallback := false;
      pendingResizes := 0;
      resizeReports := [];
    }

    /** `connect(opt_request)`: connects the redirect host first, keeping
        its request string or deferring its error, then registers the
        handler, sends `connect` to the opener and schedules the fallback. */
    method Connect(arg: RequestArg, parseUrl: string -> Location) returns (st: Status)
      requires Valid()
      modifies this`connected, this`accepted, this`requestString, this`timers,
               redirectHost`connected, redirectHost`accepted, redirectHost`requestId, redirectHost`args,
               redirectHost`returnUrl, redirectHost`targetOrigin, redirectHost`targetOriginVerified,
               messenger`onCommand, messenger`target, messenger`outbox
      ensures Valid()
      ensures !connected && !accepted
      ensures redirectHost.connected <==> RedirectError(ConnectionOf(arg, win, parseUrl)).None?
      ensures redirectHost.connected ==> requestString == Some(SerializeRequest(redirectHost.CurrentRequest()))
      ensures !redirectHost.connected ==> requestString == old(requestString)
      ensures old(messenger.onCommand) ==>
                st == Thrown("already connected") && timers == old(timers) &&
                messenger.outbox == old(messenger.outbox)
      ensures !old(messenger.onCommand) ==>
                st == Done && messenger.onCommand &&
                messenger.outbox == old(messenger.outbox) +
                  [Post(opener, "connect", JNull, OutboundOrigin("connect", messenger.targetOrigin).value, [])] &&
                timers == old(timers) + [RedirectError(ConnectionOf(arg, win, parseUrl))]
    {
      connected := false;
      accepted := false;
      var redirectError := ConnectRedirectHost(arg, parseUrl);
      st := ConnectMessenger(redirectError);
    }

    /** The second step of `connect`: registers the handler, sends
        `connect` to the opener and schedules the fallback timer. */
    method ConnectMessenger(redirectError: Option<string>) returns (st: Status)
      requires Valid()
      modifies this`timers, messenger`onCommand, messenger`target, messenger`outbox
      ensures Valid()
      ensures old(messenger.onCommand) ==>
                st == Thrown("already connected") && timers == old(timers) &&
                messenger.outbox == old(messenger.outbox)
      ensures !old(messenger.onCommand) ==>
                st == Done && messenger.onCommand &&
                messenger.outbox == old(messenger.outbox) +
                  [Post(opener, "connect", JNull, OutboundOrigin("connect", messenger.targetOrigin).value, [])] &&
                timers == old(timers) + [redirectError]
    {
      st := messenger.Connect();
      if st.Thrown? {
        return;
      }
      // `sendConnectCommand()`: the `connect` command with no payload.
      st := messenger.SendCommand("connect", JNull, [], None);
      timers := timers + [redirectError];
    }

    /** The first step of `connect`: the redirect host connects, and either
        its request string is kept or its error is returned for later. */
    method ConnectRedirectHost(arg: RequestArg, parseUrl: string -> Location) returns (redirectError: Option<string>)
      requires Valid()
      modifies this`requestString,
               redirectHost`connected, redirectHost`accepted, redirectHost`requestId, redirectHost`args,
               redirectHost`returnUrl, redirectHost`targetOrigin, redirectHost`targetOriginVerified
      ensures Valid()
      ensures redirectError == RedirectError(ConnectionOf(arg, win, parseUrl))
      ensures redirectHost.connected <==> redirectError.None?
      ensures redirectHost.connected ==> requestString == Some(SerializeRequest(redirectHost.CurrentRequest()))
      ensures !redirectHost.connected ==> requestString == old(requestString)
    {
      var st := redirectHost.Connect(arg, parseUrl);
      if st.Done? {
        var rs := redirectHost.GetRequestString();
        requestString := Some(rs.value);
        return None;
      }
      return Some(st.message);
    }

    /** The oldest fallback timer fires: if the resolver is still set, the
        promise settles with the redirect host or the deferred error (unless
        `start` settled it first) and the resolver is cleared. */
    method FallbackTimerFired()
      requires Valid() && |timers| > 0
      modifies this`timers, this`resolverLive, this`outcome
      ensures Valid()
      ensures timers == old(timers[1..])
      ensures old(resolverLive) ==> !resolverLive && outcome == SettleFirst(old(outcome), Fallback(old(timers[0])))
      ensures !old(resolverLive) ==> !resolverLive && outcome == old(outcome)
    {
      var redirectError := timers[0];
      timers := timers[1..];
      if resolverLive {
        outcome := SettleFirst(outcome, Fallback(redirectError));
        resolverLive := false;
      }
    }

    /** `disconnect()`: also stops listening for `unload` and asks the
        window to close. */
    method Disconnect()
      requires Valid()
      modifies this`connected, this`accepted, this`unloadListening, this`closeRequests,
               messenger`onCommand, messenger`channels, messenger`closed
      ensures Valid()
      ensures !connected && !accepted && !unloadListening && !messenger.onCommand
      ensures TableDropped(old(messenger.onCommand), old(messenger.channels), old(messenger.closed),
                           messenger.channels, messenger.closed)
      ensures closeRequests == old(closeRequests) + 1
    {
      connected := false;
      accepted := false;
      messenger.Disconnect();
      unloadListening := false;
      closeRequests := closeRequests + 1;
    }

    /** `getRequestString()`: what the redirect host produced, if it connected. */
    method GetRequestString() returns (r: Result<Option<string>>)
      ensures r.Ok? <==> connected
      ensures r.Ok? ==> r.value == requestString
      ensures r.Err? ==> r.message == "not connected"
    {
      if !connected {
        return Err("not connected");
      }
      return Ok(requestString);
    }

    method GetMode() returns (m: Mode)
      ensures m == POPUP
    {
      return POPUP;
    }

    /** `getTargetOrigin()`: the origin the messenger learned from `start`. */
    method GetTargetOrigin() returns (r: Result<string>)
      requires Valid()
      ensures r.Ok? <==> connected
      ensures r.Ok? ==> Some(r.value) == messenger.targetOrigin
      ensures r.Err? ==> r.message == "not connected"
    {
      if !connected {
        return Err("not connected");
      }
      r := messenger.GetTargetOrigin();
    }

    /** The origin is always verified by messaging. */
    method IsTargetOriginVerified() returns (r: Result<bool>)
      ensures r.Ok? <==> connected
      ensures r.Ok? ==> r.value
      ensures r.Err? ==> r.message == "not connected"
    {
      if !connected {
        return Err("not connected");
      }
      return Ok(true);
    }

    method IsSecureChannel() returns (r: bool)
      ensures r
    {
      return true;
    }

    method Accept() returns (st: Status)
      requires Valid()
      modifies this`accepted
      ensures Valid()
      ensures st.Done? <==> connected
      ensures st.Done? ==> accepted
      ensures st.Thrown? ==> st.message == "not connected" && accepted == old(accepted)
    {
      if !connected {
        return Thrown("not connected");
      }
      accepted := true;
      return Done;
    }

    method GetArgs() returns (r: Result<Json>)
      ensures r.Ok? <==> connected
      ensures r.Ok? ==> r.value == args
      ensures r.Err? ==> r.message == "not connected"
    {
      if !connected {
        return Err("not connected");
      }
      return Ok(args);
    }

    /** `ready()`: one `ready` command to the opener. */
    method Ready() returns (st: Status)
      requires Valid()
      modifies messenger`target, messenger`outbox
      ensures Valid()
      ensures st.Done? <==> accepted
      ensures st.Thrown? ==> st.message == "not accepted" && messenger.outbox == old(messenger.outbox)
      ensures st.Done? ==>
                messenger.outbox == old(messenger.outbox) +
                  [Post(opener, "ready", JNull, messenger.targetOrigin.value, [])]
    {
      if !accepted {
        return Thrown("not accepted");
      }
      st := messenger.SendCommand("ready", JNull, [], None);
    }

    /** `ensureAccepted_()`: throws `not accepted` unless accepted. */
    method EnsureAccepted() returns (st: Status)
      ensures st.Done? <==> accepted
      ensures st.Thrown? ==> st.message == "not accepted"
    {
      if !accepted {
        return Thrown("not accepted");
      }
      return Done;
    }

    /** `message()`: only `ensureAccepted_()`; messaging is not supported. */
    method Message() returns (st: Status)
      ensures st.Done? <==> accepted
      ensures st.Thrown? ==> st.message == "not accepted"
    {
      st := EnsureAccepted();
    }

    /** `onMessage()`: only `ensureAccepted_()`; messaging is not supported. */
    method OnMessage() returns (st: Status)
      ensures st.Done? <==> accepted
      ensures st.Thrown? ==> st.message == "not accepted"
    {
      st := EnsureAccepted();
    }

    /** `messageChannel()`: never supported. */
    method MessageChannel() returns (st: Status)
      ensures st.Thrown?
      ensures st.message == (if accepted then "not supported" else "not accepted")
    {
      if !accepted {
        return Thrown("not accepted");
      }
      return Thrown("not supported");
    }

    method IsMessagingSupported() returns (r: bool)
      ensures !r
    {
      return false;
    }

    method SetSizeContainer()
      modifies this`hasSizeContainer
      ensures hasSizeContainer
    {
      hasSizeContainer := true;
    }

    method OnResizeComplete()
      modifies this`hasResizeCallback
      ensures hasResizeCallback
    {
      hasResizeCallback := true;
    }

    /** `resized()`: schedules `resized_` after 50 ms. */
    method Resized()
      modifies this`pendingResizes
      ensures pendingResizes == old(pendingResizes) + 1
    {
      pendingResizes := pendingResizes + 1;
    }

    method ResizeTimerFired(scrollHeight: int, innerHeight: int)
      requires pendingResizes > 0
      modifies this`pendingResizes, this`resizeReports
      ensures pendingResizes == old(pendingResizes) - 1
      ensures resizeReports ==
                old(resizeReports) + WindowResizeReports(hasSizeContainer, hasResizeCallback, scrollHeight, innerHeight)
    {
      pendingResizes := pendingResizes - 1;
      if hasSizeContainer && hasResizeCallback {
        resizeReports := resizeReports + [WindowResizeReport(innerHeight, scrollHeight, innerHeight < scrollHeight)];
      }
    }

    /** `sendResult_(code, data)`: one `result` command; the host stays
        connected, waiting for `close`, but no longer checks on unload. */
    method SendResult(code: ResultCode, data: Json) returns (st: Status)
      requires Valid()
      modifies this`unloadListening, messenger`target, messenger`outbox
      ensures Valid()
      ensures st.Done? <==> (if code == OK then accepted else connected)
      ensures st.Thrown? ==>
                st.message == (if code == OK then "not accepted" else "not connected") &&
                messenger.outbox == old(messenger.outbox) && unloadListening == old(unloadListening)
      ensures st.Done? ==>
                !unloadListening &&
                messenger.outbox == old(messenger.outbox) +
                  [Post(opener, "result", ResultPayload(code, data), messenger.targetOrigin.value, [])]
    {
      if code == OK && !accepted {
        return Thrown("not accepted");
      }
      if code != OK && !connected {
        return Thrown("not connected");
      }
      st := messenger.SendCommand("result", ResultPayload(code, data), [], None);
      unloadListening := false;
    }

    method Result(data: Json) returns (st: Status)
      requires Valid()
      modifies this`unloadListening, messenger`target, messenger`outbox
      ensures Valid()
      ensures st.Done? <==> accepted
      ensures st.Done? ==>
                !unloadListening &&
                messenger.outbox == old(messenger.outbox) +
                  [Post(opener, "result", ResultPayload(OK, data), messenger.targetOrigin.value, [])]
      ensures st.Thrown? ==> messenger.outbox == old(messenger.outbox)
    {
      st := SendResult(OK, data);
    }

    method Cancel() returns (st: Status)
      requires Valid()
      modifies this`unloadListening, messenger`target, messenger`outbox
      ensures Valid()
      ensures st.Done? <==> connected
      ensures st.Done? ==>
                !unloadListening &&
                messenger.outbox == old(messenger.outbox) +
                  [Post(opener, "result", ResultPayload(CANCELED, JNull), messenger.targetOrigin.value, [])]
      ensures st.Thrown? ==> messenger.outbox == old(messenger.outbox)
    {
      st := SendResult(CANCELED, JNull);
    }

    /** `failed(reason)`: the reason travels as `String(reason)`. */
    method Failed(reason: Value) returns (st: Status)
      requires Valid()
      modifies this`unloadListening, messenger`target, messenger`outbox
      ensures Valid()
      ensures st.Done? <==> connected
      ensures st.Done? ==>
                !unloadListening &&
                messenger.outbox == old(messenger.outbox) +
                  [Post(opener, "result", ResultPayload(FAILED, JStr(ToJsString(reason))),
                        messenger.targetOrigin.value, [])]
      ensures st.Thrown? ==> messenger.outbox == old(messenger.outbox)
    {
      st := SendResult(FAILED, JStr(ToJsString(reason)));
    }

    /** `unload_()`: the window is going away while the unload listener is
        registered (from `start` until `sendResult_` or `disconnect`, even
        across a second `connect`); asks the client to check on it. */
    method Unload() returns (st: Status)
      requires Valid() && unloadListening
      modifies messenger`target, messenger`outbox
      ensures Valid()
      ensures st == Done
      ensures messenger.outbox == old(messenger.outbox) +
                [Post(opener, "check", JObj([]), messenger.targetOrigin.value, [])]
    {
      st := messenger.SendCommand("check", JObj([]), [], None);
    }

    /** An inbound `message` event while the handler is registered. */
    method ReceiveMessage(data: Json, origin: string, eventSource: Option<WindowId>, ports: seq<Port>)
      returns (st: Status)
      requires Valid() && messenger.onCommand
      modifies this`args, this`connected, this`accepted, this`outcome, this`unloadListening,
               this`closeRequests, messenger
      ensures Valid()
      ensures !HasSentinel(data) ==> st == Done && unchanged(this) && unchanged(messenger)
      ensures connected && !old(connected) ==>
                CommandOf(data) == "start" && messenger.targetOrigin == Some(origin) &&
                args == GetOrNull(data, "payload")
      ensures HasSentinel(data) && CommandOf(data) == "start" &&
              (old(messenger.targetOrigin).None? || old(messenger.targetOrigin) == Some(origin)) ==>
                connected && messenger.targetOrigin == Some(origin) && args == GetOrNull(data, "payload")
      ensures old(messenger.targetOrigin).Some? && old(messenger.targetOrigin) != Some(origin) ==>
                st == Done && unchanged(this) && unchanged(messenger)
    {
      var d := messenger.HandleEvent(data, origin, eventSource, ports, None);
      match d
      case Forward(cmd, payload) =>
        st := HandleCommand(cmd, payload);
      case Failed(message) =>
        st := Thrown(message);
      case _ =>
        st := Done;
    }

    /** `handleCommand_(cmd, payload)`: `start` connects and settles the
        promise with this host (if nothing settled it yet), `close`
        disconnects. */
    method HandleCommand(cmd: string, payload: Json) returns (st: Status)
      requires Valid() && messenger.targetOrigin.Some? && messenger.onCommand
      modifies this`args, this`connected, this`accepted, this`outcome, this`unloadListening,
               this`closeRequests, messenger`onCommand, messenger`channels, messenger`closed
      ensures Valid()
      ensures cmd == "start" ==>
                args == payload && connected && accepted == old(accepted) &&
                (st.Done? <==> resolverLive) &&
                (resolverLive ==> outcome == SettleFirst(old(outcome), ToPopup) && unloadListening) &&
                (!resolverLive ==> outcome == old(outcome) && unloadListening == old(unloadListening))
      ensures cmd == "close" ==> st == Done && !connected && !accepted && !unloadListening && !messenger.onCommand
      ensures cmd != "start" && cmd != "close" ==>
                st == Done && connected == old(connected) && accepted == old(accepted) && args == old(args) &&
                outcome == old(outcome)
    {
      st := Done;
      if cmd == "start" {
        args := payload;
        connected := true;
        if !resolverLive {
          return Thrown("TypeError: connectedResolver_ is not a function");
        }
        outcome := SettleFirst(outcome, ToPopup);
        unloadListening := true;
      } else if cmd == "close" {
        Disconnect();
      }
    }
  }

  /** `new ActivityWindowPopupHost(win)`: throws unless the window has an
      opener other than itself. */
  method NewPopupHost(win: WindowEnv, self: WindowId, opener: Option<WindowId>)
    returns (r: Result<ActivityWindowPopupHost>)
    ensures r.Ok? <==> HasDistinctOpener(self, opener)
    ensures r.Err? ==> r.message == "No window.opener"
    ensures r.Ok? ==> fresh(r.value) && r.value.Valid() && r.value.opener == opener.value &&
                      r.value.win == win && !r.value.connected && r.value.outcome.None?
  {
    if opener.None? || opener.value == self {
      return Err("No window.opener");
    }
    var host := new ActivityWindowPopupHost(win, self, opener.value);
    return Ok(host);
  }
}
