/** The redirect protocol end to end: what a port writes into a URL is
    what the host on the other side reads out of it, and back. */
module Protocol {
  import opened Base
  import opened Json
  import opened ActivityTypes
  import opened Utils
  import opened WindowHost
  import opened WindowPort
  import Percent

  /** The request a popup or redirect port puts in the activity URL is the
      request the redirect host reads from its `__WA__` fragment
      parameter, field for field. */
  lemma PortRequestReachesHost(url: string, requestId: string, args: Json, options: Option<OpenOptions>, href: string)
    requires !(options.Some? && options.value.skipRequestInUrl)
    requires ParseQueryString(FragmentOf(url)).Some?
    ensures FragmentRequest(FragmentOf(OpenUrl(url, requestId, args, options, href))) ==
              Ok(Some(PortRequest(requestId, ReturnUrlOf(options, href), args)))
    ensures Complete(FragmentRequest(FragmentOf(OpenUrl(url, requestId, args, options, href))).value) <==>
              requestId != "" && ReturnUrlOf(options, href) != ""
  {
    var r := PortRequest(requestId, ReturnUrlOf(options, href), args);
    OpenUrlCarriesRequest(url, requestId, args, options, href);
    SerializedNotEmpty(r);
    FragmentRequestText(FragmentOf(OpenUrl(url, requestId, args, options, href)), SerializeRequest(r));
  }

  lemma SerializedNotEmpty(r: Request)
    ensures SerializeRequest(r) != ""
  {
    assert SerializeRequest(r)[0] == '{';
  }

  lemma FragmentRequestText(hash: string, text: string)
    requires GetQueryParam(hash, REQUEST_PARAM) == Ok(Some(text)) && text != ""
    ensures FragmentRequest(hash) == ParseRequest(text, false)
  {
  }

  /** A request read from the URL carries no origin of its own, so the
      host takes the return URL's origin, and vouches for it exactly when
      the referrer has that same origin. */
  lemma PortRequestTrust(requestId: string, returnUrl: string, args: Json, parseUrl: string -> Location,
                         referrer: string)
    ensures var t := TrustOf(PortRequest(requestId, returnUrl, args), parseUrl, referrer);
            && t.origin == GetOriginFromUrl(parseUrl, returnUrl)
            && (t.verified <==> ReferrerOrigin(referrer, parseUrl) == t.origin)
  {
    var t := TrustOf(PortRequest(requestId, returnUrl, args), parseUrl, referrer);
    OriginNotEmpty(parseUrl(returnUrl));
  }

  /** A key held by exactly one member reads as that member's value. */
  lemma LastMemberUnique(ms: seq<Member>, i: int, key: string)
    requires 0 <= i < |ms| && ms[i].key == key
    requires forall k :: 0 <= k < |ms| && k != i ==> ms[k].key != key
    ensures LastMember(ms, key) == Some(ms[i].value)
  {
  }

  /** The four fields of a response read back as they were put in. */
  lemma ResponseFields(requestId: string, origin: string, code: ResultCode, data: Json)
    ensures var response := ResponseJson(requestId, origin, code, data);
            && Get(response, "requestId") == Some(JStr(requestId))
            && Get(response, "origin") == Some(JStr(origin))
            && Get(response, "code") == Some(CodeJson(code))
            && Get(response, "data") == Some(data)
            && !Falsy(response)
  {
    ResponseSenderFields(requestId, origin, code, data);
    ResponseResultFields(requestId, origin, code, data);
  }

  lemma ResponseSenderFields(requestId: string, origin: string, code: ResultCode, data: Json)
    ensures var response := ResponseJson(requestId, origin, code, data);
            && Get(response, "requestId") == Some(JStr(requestId))
            && Get(response, "origin") == Some(JStr(origin))
  {
    var ms := ResponseJson(requestId, origin, code, data).members;
    LastMemberUnique(ms, 0, "requestId");
    LastMemberUnique(ms, 1, "origin");
  }

  lemma ResponseResultFields(requestId: string, origin: string, code: ResultCode, data: Json)
    ensures var response := ResponseJson(requestId, origin, code, data);
            && Get(response, "code") == Some(CodeJson(code))
            && Get(response, "data") == Some(data)
  {
    var ms := ResponseJson(requestId, origin, code, data).members;
    LastMemberUnique(ms, 2, "code");
    LastMemberUnique(ms, 3, "data");
  }

  /** The response the redirect host puts in the result URL is the one
      the intended lookup finds under the same request id. */
  lemma ResponseReachesPort(returnUrl: string, requestId: string, origin: string, code: ResultCode, data: Json)
    requires ParseQueryString(FragmentOf(returnUrl)).Some?
    ensures var response := ResponseJson(requestId, origin, code, data);
            FoundResponse(FragmentOf(ResultUrl(returnUrl, response)), requestId) == Ok(Some(response))
  {
    var response := ResponseJson(requestId, origin, code, data);
    ResultUrlCarriesResponse(returnUrl, response);
    ParseStringify(response);
    ResponseSenderFields(requestId, origin, code, data);
    assert Stringify(response)[0] == '{';
    FoundResponseText(FragmentOf(ResultUrl(returnUrl, response)), Stringify(response), requestId, response);
  }

  lemma FoundResponseText(fragment: string, text: string, requestId: string, response: Json)
    requires GetQueryParam(fragment, RESULT_PARAM) == Ok(Some(text)) && text != ""
    requires Parse(text) == Some(response) && response.JObj?
    requires Get(response, "requestId") == Some(JStr(requestId))
    ensures FoundResponse(fragment, requestId) == Ok(Some(response))
  {
    assert !Falsy(response) && SameRequestId(Get(response, "requestId"), requestId);
  }

  /** The redirect port discovered from the host's result URL carries the
      host's code, data and origin, and calls that origin verified exactly
      when the referrer (the host page) has it. */
  lemma RedirectRoundTrip(returnUrl: string, requestId: string, origin: string, code: ResultCode, data: Json,
                          hash: string, referrer: string, parseUrl: string -> Location)
    requires ParseQueryString(FragmentOf(returnUrl)).Some?
    requires Canonical(code)
    ensures var fragment := FragmentOf(ResultUrl(returnUrl, ResponseJson(requestId, origin, code, data)));
            var d := DiscoverRedirectPort(fragment, requestId, hash, referrer, parseUrl);
            && d.Ok? && d.value.Some?
            && d.value.value.port.code == code
            && d.value.value.port.data == JsonValue(data)
            && d.value.value.port.targetOrigin == origin
            && (d.value.value.port.targetOriginVerified <==> origin == ReferrerOrigin(referrer, parseUrl))
  {
    ResponseReachesPort(returnUrl, requestId, origin, code, data);
    ResponseFields(requestId, origin, code, data);
    CodeWireRoundTrip(code);
  }

  lemma EndsWithAfter(a: string, b: string, suffix: string)
    requires EndsWith(b, suffix)
    ensures EndsWith(a + b, suffix)
  {
    assert (a + b)[|a + b| - |suffix|..] == b[|b| - |suffix|..];
  }

  lemma EndsWithBoth(a: string, suffix: string, c: string)
    requires EndsWith(a, suffix)
    ensures EndsWith(a + c, suffix + c)
  {
    assert (a + c)[|a + c| - |suffix + c|..] == a[|a| - |suffix|..] + c;
  }

  lemma EndsWithTrans(s: string, t: string, u: string)
    requires EndsWith(s, t) && EndsWith(t, u)
    ensures EndsWith(s, u)
  {
    assert s[|s| - |u|..] == s[|s| - |t|..][|t| - |u|..];
  }

  /** The members of an object are written with the last one at the end. */
  lemma {:induction false} MembersEndWithLast(ms: seq<Member>)
    requires |ms| >= 1
    decreases |ms|
    ensures EndsWith(StringifyMembers(ms), StringifyMember(ms[|ms| - 1]))
  {
    if |ms| == 1 {
      assert StringifyMembers(ms) == StringifyMember(ms[0]);
      assert StringifyMember(ms[0])[0..] == StringifyMember(ms[0]);
    } else {
      MembersEndWithLast(ms[1..]);
      assert ms[1..][|ms| - 2] == ms[|ms| - 1];
      EndsWithAfter(StringifyMember(ms[0]) + ",", StringifyMembers(ms[1..]), StringifyMember(ms[|ms| - 1]));
    }
  }

  /** With data `"%"` the stringified response ends in `%"}`. */
  lemma PercentDataText(requestId: string, origin: string, code: ResultCode)
    ensures EndsWith(Stringify(ResponseJson(requestId, origin, code, JStr("%"))), "%\"}")
  {
    var response := ResponseJson(requestId, origin, code, JStr("%"));
    var ms := response.members;
    assert response == JObj(ms);
    MembersEndWithLast(ms);
    var body := StringifyMembers(ms);
    var last := StringifyMember(ms[3]);
    assert Escape("%") == "%";
    assert Quote("%") == "\"%\"";
    EndsWithAfter(Quote("data") + ":", Quote("%"), "%\"");
    EndsWithTrans(body, last, "%\"");
    EndsWithBoth(body, "%\"", "}");
    assert "%\"" + "}" == "%\"}";
    EndsWithAfter("{", body + "}", "%\"}");
    assert Stringify(response) == "{" + (body + "}");
  }

  /** The host sends back data `"%"`: the intended lookup reads the
      response, the written one decodes the `%` a second time and throws. */
  lemma PercentDataBreaksWrittenLookup(returnUrl: string, requestId: string, origin: string, code: ResultCode)
    requires ParseQueryString(FragmentOf(returnUrl)).Some?
    ensures var response := ResponseJson(requestId, origin, code, JStr("%"));
            var fragment := FragmentOf(ResultUrl(returnUrl, response));
            && FoundResponse(fragment, requestId) == Ok(Some(response))
            && FoundResponseAsWritten(fragment, requestId) == Err("URIError: URI malformed")
  {
    var response := ResponseJson(requestId, origin, code, JStr("%"));
    var fragment := FragmentOf(ResultUrl(returnUrl, response));
    ResponseReachesPort(returnUrl, requestId, origin, code, JStr("%"));
    ResultUrlCarriesResponse(returnUrl, response);
    PercentDataText(requestId, origin, code);
    var s := Stringify(response);
    EndsWithSplit(s, "%\"}");
    assert !Percent.IsHex('"');
    FoundResponseAsWrittenThrows(fragment, requestId, s[..|s| - 3], "%\"}");
  }

  lemma EndsWithSplit(s: string, suffix: string)
    requires EndsWith(s, suffix)
    ensures s == s[..|s| - |suffix|] + suffix
  {
  }
}
