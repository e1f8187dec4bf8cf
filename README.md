# web-activities: the activity handshake, modelled in Dafny

web-activities lets one web page (the client, through a *port*) start an
activity implemented by another page (the *host*), shown in an iframe, in a
popup window, or by navigating the whole page there and back. This project
models the core of that protocol and proves properties of it:

- `base.dfy` (`Base`): `Option`, `Result`, `Status` (a JavaScript `throw` is an
  `Err`/`Thrown` value carrying the message), `indexOf` on one character.
- `percent.dfy` (`Percent`): `encodeURIComponent` / `decodeURIComponent` on
  ASCII, with decoding undoing encoding. An escape of 0x80 or above is
  refused rather than decoded as UTF-8.
- `json.dfy` (`Json`): JSON values, `JSON.stringify` and `JSON.parse`, with
  `parse(stringify(v)) == v` proved.
- `utils.dfy` (`Utils`): `getOrigin`, `removeFragment`,
  `parseQueryString`/`getQueryParam`, `addFragmentParam`, `removeQueryParam`
  (the do-while loop, proved against a specification function),
  `parseRequest`/`serializeRequest`, `createAbortError`, `resolveResult`, and
  the redirect URL safety check.
- `activity_types.dfy` (`ActivityTypes`): `ActivityResultCode`,
  `ActivityMode` and the `ActivityResult` constructor with its invariants.
- `messenger.dfy` (`Messaging`): class `Messenger`, the sentinel-tagged
  `postMessage` channel. Its posts go to a ghost `outbox`; the channel table
  is a `map` field.
- `iframe_host.dfy` (`IframeHost`): class `ActivityIframeHost`.
- `window_host.dfy` (`WindowHost`): classes `ActivityWindowRedirectHost` and
  `ActivityWindowPopupHost`, the request source, the trust rules and the
  result URL.
- `window_port.dfy` (`WindowPort`): class `ActivityWindowPort` (target
  check, the URL it opens, `buildFeatures_`, the `window.open` cascade,
  heartbeat, single-shot result) and `discoverRedirectPort` with the
  redirect port.
- `hosts.dfy` (`Hosts`): the mode selection of `ActivityHosts.connectHost`.
- `iframe_port.dfy` (`IframePort`): class `ActivityIframePort` of the
  bundled client in `activities.js`.
- `protocol.dfy` (`Protocol`): the redirect flow end to end. The request a
  port writes into a URL is the one the host reads; the response the host
  writes is the one the port discovers.

Browser effects are modelled as inputs and logs. Posted messages are the
messenger's ghost `outbox`. Navigations, `window.open` calls and `win.close`
requests are ghost sequences. The answers of `window.open` are an
`OpenOracle` parameter. The anchor-element URL parser is a function
parameter `parseUrl`. A timer is a counter or queue of pending firings plus
a `...Fired` method. A promise is a "resolver still live" flag plus the
value it settled with, and the first settlement wins.

## Model

| member | source | states |
|---|---|---|
| Base.IndexOfChar | src/utils.js:92 | `indexOf` of one character: -1 exactly when absent, otherwise the first position holding it |
| Percent.EncodeChar | src/utils.js:144 | an unreserved character is written as itself, any other as a three-character `%XX` escape |
| Percent.DecodeEncode | src/utils.js:113-114 | `decodeURIComponent(encodeURIComponent(s)) == s` for every string |
| Percent.EncodeHasNoDelimiter | src/utils.js:141-145 | encoded text never holds `&`, `=`, `#` or `?`, so it cannot split a query or fragment parameter |
| Percent.EncodeAppend | src/utils.js:144 | encoding distributes over concatenation |
| Percent.EncodeUnreserved | src/activity-window-host.js:574 | a name made of unreserved characters, such as `__WA_RES__`, encodes to itself |
| Percent.DecodeNoPercent | src/utils.js:113-114 | decoding text without `%` succeeds and returns it unchanged |
| Percent.DecodeFailsAtBadPercent | src/activity-window-port.js:395-396 | a `%` not followed by two hex digits makes decoding throw, wherever it occurs |
| Json.OrNull | src/utils.js:194 | `v \|\| null`: a falsy value becomes `null`, any other value is kept |
| Json.LastMember | src/utils.js:190-195 | the member `JSON.parse` keeps for a key is the last one with that key; none exactly when the key is absent |
| Json.NatText | src/activity-window-port.js:278 | the decimal text of a natural number is non-empty and all digits |
| Json.DigitsValueNatText | src/activity-window-port.js:278 | reading back the digits of a natural number gives the number |
| Json.ParseNatText | src/utils.js:190 | a written natural number parses back, stopping where it ends |
| Json.ParseIntText | src/utils.js:190 | a written integer, negative ones included, parses back, stopping where it ends |
| Json.ParseEscaped | src/utils.js:190 | the escaped body of a written string literal, control characters included, parses back to the string |
| Json.RawControlRefused | src/utils.js:190 | a string literal holding a raw control character before its closing quote is a syntax error |
| Json.LeadingZeroRefused | src/utils.js:190 | a number with a leading zero followed by another digit is a syntax error |
| Json.EscapeHasNoControl | src/utils.js:222 | a written string literal holds no raw control character |
| Json.FirstChar | src/utils.js:222 | written JSON is never empty and never starts with `]` |
| Json.ParseStringifyValue | src/utils.js:190-222 | parsing the text of any value followed by a terminator gives the value and the rest |
| Json.ParseStringifyItems | src/utils.js:190-222 | a written non-empty array body parses back item for item |
| Json.ParseStringifyMembers | src/utils.js:190-222 | a written non-empty object body parses back member for member |
| Json.ParseStringify | src/utils.js:190-222 | `JSON.parse(JSON.stringify(v)) == v` for every value |
| Utils.IndexOf | src/utils.js:161 | `s.indexOf(pat, from)`: -1 exactly when `pat` occurs nowhere at or after `from`, otherwise the first such position |
| Utils.GetOrigin | src/utils.js:52-66 | `loc.origin` when present, otherwise a string starting with `protocol + '//'` |
| Utils.GetOriginDropsDefaultPort | src/utils.js:60-61 | an `https:` host ending in `:443` gives `https://` plus the host without the port |
| Utils.GetOriginDropsHttpPort | src/utils.js:62-63 | an `http:` host ending in `:80` gives `http://` plus the host without the port |
| Utils.GetOriginKeepsOtherPorts | src/utils.js:58-65 | a host not ending in `:443` or `:80` is kept as is after `protocol + '//'` |
| Utils.RemoveFragment | src/utils.js:91-97 | the result is a prefix of the URL without `#`, and stops at the first `#` when it is shorter |
| Utils.FragmentOf | src/activity-window-host.js:396 | `location.hash`: empty or starting with `#` |
| Utils.SplitOn | src/utils.js:110 | `split` always gives at least one part |
| Utils.SplitOnAppend | src/utils.js:110 | splitting `a + [c] + b` at `c` is the split of `a` followed by the split of `b` |
| Utils.GetQueryParam | src/utils.js:105-131 | throws exactly when the query does not parse; otherwise the value is present exactly when the key is in the parsed map, and is its value there |
| Utils.ReduceParamsSnoc | src/utils.js:111-119 | the `reduce` over parts plus one more part is the `reduce` over the parts, then that part |
| Utils.EncodedParamHasNoDelimiter | src/utils.js:144 | the appended `key=value` text holds no `#` or `&`, and neither encoded half holds `=` |
| Utils.ParseEncodedParam | src/utils.js:112-114 | the appended `key=value` text parses back to the key and value |
| Utils.AddFragmentParamParses | src/utils.js:141-145 | after `addFragmentParam` the fragment parses to the old map with exactly that key set (an empty key is skipped) |
| Utils.AddFirstFragmentParam | src/utils.js:143 | a URL without `#` gets the parameter as its whole fragment |
| Utils.AddFurtherFragmentParam | src/utils.js:143 | a URL with a fragment gets the parameter as the last `&` part |
| Utils.FragmentOfExtended | src/utils.js:143 | appending `&` and a parameter to a URL with a fragment extends that fragment |
| Utils.GetAddedFragmentParam | src/utils.js:129-145 | `getQueryParam` reads back the value just added, and every other key as before |
| Utils.RemoveFragmentOfAdded | src/utils.js:91-97 | adding a fragment parameter leaves the URL before the fragment alone |
| Utils.RemoveQueryParam | src/utils.js:154-178 | the do-while loop computes `QueryWithout`: every `name=` starting at the beginning or after `?`, `#` or `&` is cut through its `&` |
| Utils.ProgressRemove | src/utils.js:164-171 | cutting a parameter at a boundary keeps the loop invariant, with the scan resuming at the cut |
| Utils.ProgressSkip | src/utils.js:172-174 | stepping over an occurrence that is not at a boundary keeps the loop invariant |
| Utils.ProgressToEnd | src/utils.js:176 | when no occurrence remains after the scan position, the string is the final result |
| Utils.StripSkip | src/utils.js:161-176 | removal copies a stretch where no parameter to remove starts |
| Utils.StripRemove | src/utils.js:165-171 | cutting at a boundary occurrence is one step of the removal |
| Utils.CutAfter | src/utils.js:165-171 | where the scan resumes after a cut lies after the cut point and within the string |
| Utils.StrippedNotLonger | src/utils.js:154-178 | removal never lengthens the string |
| Utils.QueryWithoutKeepsLookAlikes | src/utils.js:163-174 | a query where `name=` never starts at a boundary (such as `_z=` for `z`) comes back unchanged |
| Utils.StrippedLeavesNone | src/utils.js:154-178 | after removal no `name=` starts at a boundary |
| Utils.QueryWithoutRemovesAll | src/utils.js:154-178 | `removeQueryParam` never lengthens the query and leaves no parameter of that name behind |
| Utils.ParseRequest | src/utils.js:186-203 | an empty string gives null; text `JSON.parse` refuses throws a SyntaxError and `null` throws; otherwise a request, which without `trusted` never has `origin` or `originVerified` |
| Utils.RequestOf | src/utils.js:191-201 | an untrusted read never sets the origin fields |
| Utils.LastMemberAppend | src/utils.js:211-222 | the last member for a key in `a + b` is the one in `b` if `b` has the key, otherwise the one in `a` |
| Utils.RequestMembers | src/utils.js:211-221 | `serializeRequest` writes five member groups, the origin ones only when defined |
| Utils.RequestJsonFields | src/utils.js:210-223 | each member of a serialized request reads back as the field it came from; `origin`/`originVerified` are absent when undefined |
| Utils.ParseSerialized | src/utils.js:186-223 | parsing a serialized request gives it back, except that an untrusted reader drops the origin fields and a trusted one drops `''` and `false` |
| Utils.ParseSerializeRequest | src/utils.js:186-223 | a request without origin fields round-trips, trusted or not |
| Utils.ParseSerializeTrustedRequest | src/utils.js:196-201 | a trusted round trip gives the request back exactly when its origin is not `''` and `originVerified` is not `false` |
| Utils.ParseSerializedUntrusted | src/utils.js:196 | an untrusted reader never sees the origin fields, whatever was written |
| Utils.CreateAbortError | src/utils.js:245-267 | the error is an AbortError with code 20, its message `AbortError` plus `: message` when one is given |
| Utils.PlainErrorIsNotAbort | src/utils.js:230-235 | a plain `Error` is never an AbortError |
| Utils.ResolveResult | src/utils.js:280-288 | fulfils exactly when the result is ok, with the result; a rejection carries the result as `activityResult` |
| Utils.ResolveResultByCode | src/utils.js:270-288 | OK fulfils; FAILED rejects with its own error, not an abort; any other code rejects with an AbortError |
| Utils.AssertSafeRedirectUrl | src/activity-window-host.js:410 | accepts exactly the URLs whose scheme is not `javascript:` in any letter case, returning them unchanged |
| ActivityTypes.CodeFromJson | src/activity-types.js:23-27 | reading a code off the wire and writing it back gives the same JSON |
| ActivityTypes.CodeField | src/activity-window-port.js:369 | the code is OK, CANCELED or FAILED exactly when the wire value is `'ok'`, `'canceled'` or `'failed'` |
| ActivityTypes.CodeWireRoundTrip | src/activity-types.js:23-27 | a code written to the wire and read back is the same code |
| ActivityTypes.ModeNamesDistinct | src/activity-types.js:100-104 | the three modes have three different names |
| ActivityTypes.ResultData | src/activity-window-port.js:370-373 | FAILED wraps `data \|\| ''` in an `Error` whose message is empty exactly for absent or falsy data; other codes pass the data on |
| ActivityTypes.NewActivityResult | src/activity-types.js:43-60 | data only for OK, `ok` exactly for OK, an error exactly for FAILED (with `String(data)`), origin, verified and secure flags stored as passed |
| Messaging.Resolve | src/messenger.js:200 | a promise resolver takes effect only on its first call |
| Messaging.InTablePorts | src/messenger.js:91-99 | a port is among the table's ports exactly when some named channel holds it |
| Messaging.OutboundOrigin | src/messenger.js:159-165 | no origin (a throw) exactly for a command other than `connect` while the origin is unknown; a known origin is used as is; `'*'` only for `connect` |
| Messaging.LearnOrigin | src/messenger.js:271-278 | the origin after one inbound message: a known origin never changes; an unknown one becomes the event's origin exactly for a `start` command or a source equal to the target |
| Messaging.LearnAllFirst | src/messenger.js:271-278 | over any sequence of events, a messenger with no origin ends up with the origin of the first `start` or target-window event, and with none exactly when there is no such event |
| Messaging.LearnAllKeeps | src/messenger.js:271-278 | once known, the origin survives any sequence of events |
| Messaging.LookedUpTarget | src/messenger.js:130-139 | a fetched target is kept; nothing is fetched while no handler is registered; a fixed window is fetched as itself |
| Messaging.Messenger.constructor | src/messenger.js:41-69 | no target, no handler, no channel table, nothing posted or closed |
| Messaging.Messenger.Connect | src/messenger.js:75-81 | connecting twice throws `already connected` and keeps the handler |
| Messaging.Messenger.Disconnect | src/messenger.js:86-103 | when connected: clears the handler, closes every port of every channel and drops the table; otherwise changes nothing |
| Messaging.DroppedTableClosesHeld | src/messenger.js:91-99 | after a connected messenger's table is dropped, a port is closed exactly when it was closed before or some channel of the table held it |
| Messaging.Messenger.ClosePorts | src/messenger.js:91-99 | the loop closes exactly the ports held in the table |
| Messaging.Messenger.IsConnected | src/messenger.js:109-111 | connected exactly when an origin is known |
| Messaging.Messenger.GetOptionalTarget | src/messenger.js:130-139 | returns the target as `LookedUpTarget` leaves it |
| Messaging.Messenger.GetTarget | src/messenger.js:118-124 | throws `not connected` exactly when no target can be fetched |
| Messaging.Messenger.GetTargetOrigin | src/messenger.js:146-151 | the known origin, or a `not connected` throw |
| Messaging.Messenger.SendCommand | src/messenger.js:159-171 | posts one message `{sentinel, cmd, payload}` to the target with the outbound origin, or throws before posting anything |
| Messaging.Messenger.CustomMessage | src/messenger.js:177-179 | posts one `msg` command, which needs a known origin |
| Messaging.Messenger.OnCustomMessage | src/messenger.js:185-187 | registers the custom callback |
| Messaging.Messenger.GetChannelObj | src/messenger.js:238-257 | returns the holder for the name, creating an empty one only when absent, and leaves other names alone |
| Messaging.Messenger.StartChannel | src/messenger.js:193-208 | creates `port1` once per name, resolves its promise with it, and sends the waiting `port2` in `cnset` at most once |
| Messaging.Messenger.CreateChannel | src/messenger.js:197-200 | a new channel: `port1` kept, its promise resolved with it, `port2` waiting |
| Messaging.Messenger.SendPort2 | src/messenger.js:202-206 | `port2` travels in one `cnset` post and is then forgotten |
| Messaging.Messenger.AskChannel | src/messenger.js:214-221 | sends `cnget` only while the name has no `port1` |
| Messaging.Messenger.ReceiveChannel | src/messenger.js:228-232 | stores the port as `port1` and resolves the promise, other names untouched |
| Messaging.Messenger.HandleEvent | src/messenger.js:263-285 | an event without the sentinel is ignored; otherwise the origin becomes `LearnOrigin` of the old one, the command, the event origin and whether the source is the target; an event from another origin reaches no handler, and a non-internal command from the known origin is forwarded with its payload |
| Messaging.Messenger.HandleCommand | src/messenger.js:293-308 | `msg`, `cnget` and `cnset` are handled inside and never forwarded; `msg` reaches the custom callback only with a callback and a payload |
| IframeHost.HeightBelow | src/activity-iframe-host.js:253 | `allowedHeight < lastRequestedHeight` compares numbers as numbers and is false for an absent or object height |
| IframeHost.ActivityIframeHost.constructor | src/activity-iframe-host.js:38-82 | a new host is unconnected, unaccepted, with its resolver live and its messenger fixed on the parent with no origin |
| IframeHost.ActivityIframeHost.Connect | src/activity-iframe-host.js:88-94 | resets connected and accepted, registers the handler and sends `connect` |
| IframeHost.ActivityIframeHost.Disconnect | src/activity-iframe-host.js:97-102 | resets connected and accepted, stops listening for resizes, and disconnects the messenger: its handler is cleared and, if it was connected, every channel port is closed and the table dropped; a disconnected messenger keeps its table |
| IframeHost.ActivityIframeHost.GetRequestString | src/activity-iframe-host.js:105-109 | `not connected` before `start`, otherwise null |
| IframeHost.ActivityIframeHost.GetMode | src/activity-iframe-host.js:112-114 | the mode is IFRAME |
| IframeHost.ActivityIframeHost.GetTargetOrigin | src/activity-iframe-host.js:117-120 | `not connected` before `start`, otherwise the messenger's learned origin |
| IframeHost.ActivityIframeHost.IsTargetOriginVerified | src/activity-iframe-host.js:123-127 | `not connected` before `start`, otherwise true |
| IframeHost.ActivityIframeHost.IsSecureChannel | src/activity-iframe-host.js:130-132 | always true |
| IframeHost.ActivityIframeHost.Accept | src/activity-iframe-host.js:135-138 | accepts exactly when connected, otherwise throws `not connected` |
| IframeHost.ActivityIframeHost.GetArgs | src/activity-iframe-host.js:141-144 | `not connected` before `start`, otherwise the `start` payload |
| IframeHost.ActivityIframeHost.Ready | src/activity-iframe-host.js:151-156 | `not accepted` unless accepted; then one `ready` post, one measurement, and the resize listener added |
| IframeHost.ActivityIframeHost.SetSizeContainer | src/activity-iframe-host.js:159-161 | records the size container |
| IframeHost.ActivityIframeHost.OnResizeComplete | src/activity-iframe-host.js:164-166 | records the callback |
| IframeHost.ActivityIframeHost.Resized | src/activity-iframe-host.js:169-171 | schedules one `resized_` |
| IframeHost.ActivityIframeHost.ResizeTimerFired | src/activity-iframe-host.js:170 | the scheduled `resized_` runs with the current height |
| IframeHost.ActivityIframeHost.DoResized | src/activity-iframe-host.js:259-269 | sends `resize` only when the measured height differs from the last requested one, then records it |
| IframeHost.ActivityIframeHost.ResizeEvent | src/activity-iframe-host.js:272-277 | schedules a resize only when the width changed, and records the width |
| IframeHost.ActivityIframeHost.Message | src/activity-iframe-host.js:174-177 | `not accepted` unless accepted; then one `msg` post |
| IframeHost.ActivityIframeHost.OnMessage | src/activity-iframe-host.js:180-183 | `not accepted` unless accepted; then the custom callback is registered |
| IframeHost.ActivityIframeHost.SendResult | src/activity-iframe-host.js:219-231 | OK needs accepted, other codes need connected; exactly one `result` post `{code, data}`, no disconnect |
| IframeHost.ActivityIframeHost.Result | src/activity-iframe-host.js:186-188 | an OK result, only when accepted |
| IframeHost.ActivityIframeHost.Cancel | src/activity-iframe-host.js:191-193 | a CANCELED result with null data, only when connected |
| IframeHost.ActivityIframeHost.Failed | src/activity-iframe-host.js:196-198 | a FAILED result with `String(reason)`, only when connected |
| IframeHost.ActivityIframeHost.ReceiveMessage | src/activity-iframe-host.js:91 | an event without the sentinel changes nothing; a `start` arriving while no origin is known, or from the known origin, connects the host with its payload as args, and the host becomes connected in no other way; an event from another known origin changes nothing |
| IframeHost.ActivityIframeHost.HandleCommand | src/activity-iframe-host.js:238-256 | `start` stores args, connects and clears the resolver; `close` disconnects; `resized` reports `(allowed, lastRequested, allowed < lastRequested)` to the callback |
| WindowHost.RequestSource | src/activity-window-host.js:385-404 | an object is used as is, a non-empty string is parsed trusted, otherwise the `__WA__` fragment parameter is parsed untrusted and has no origin fields |
| WindowHost.FragmentRequest | src/activity-window-host.js:395-403 | a request read from the fragment never carries origin fields |
| WindowHost.TrustOf | src/activity-window-host.js:411-423 | an explicit origin is used with `originVerified \|\| false`; otherwise the return URL's origin, verified exactly when a referrer exists and has that origin |
| WindowHost.OriginNotEmpty | src/utils.js:52-66 | an origin is never empty, so a missing referrer never verifies |
| WindowHost.ResultUrlAddsParam | src/activity-window-host.js:571-574 | the result URL is `addFragmentParam(returnUrl, '__WA_RES__', JSON.stringify(response))` |
| WindowHost.ResultUrlExtendsReturnUrl | src/activity-window-host.js:571-574 | the result URL starts with the return URL |
| WindowHost.ResultUrlCarriesResponse | src/activity-window-host.js:565-574 | `getQueryParam` on the result URL's fragment reads back the stringified response |
| WindowHost.ResultUrlKeepsBase | src/activity-window-host.js:571-574 | the result URL keeps the return URL before its fragment |
| WindowHost.WindowResizeReports | src/activity-window-host.js:591-601 | one report `(innerHeight, scrollHeight, innerHeight < scrollHeight)` exactly when a container and a callback are set |
| WindowHost.ConnectionOf | src/activity-window-host.js:380-426 | connects exactly for a complete request with a safe return URL, with the trust of `TrustOf`; otherwise refuses with the source's error, the missing-field error, or the unsafe-URL error after taking id and args |
| WindowHost.ActivityWindowRedirectHost.constructor | src/activity-window-host.js:339-369 | a new host has no request, no origin, is unconnected and has navigated nowhere |
| WindowHost.ActivityWindowRedirectHost.Connect | src/activity-window-host.js:380-426 | connected exactly as `ConnectionOf` says, storing its request and trust; a refusal throws its message |
| WindowHost.ActivityWindowRedirectHost.Disconnect | src/activity-window-host.js:430-433 | resets connected and accepted |
| WindowHost.ActivityWindowRedirectHost.GetRequestString | src/activity-window-host.js:436-445 | `not connected`, or the serialized request with its origin and verified flag |
| WindowHost.ActivityWindowRedirectHost.GetMode | src/activity-window-host.js:448-450 | the mode is REDIRECT |
| WindowHost.ActivityWindowRedirectHost.GetTargetOrigin | src/activity-window-host.js:453-456 | `not connected`, or the client's origin |
| WindowHost.ActivityWindowRedirectHost.IsTargetOriginVerified | src/activity-window-host.js:459-462 | `not connected`, or the verified flag |
| WindowHost.ActivityWindowRedirectHost.IsSecureChannel | src/activity-window-host.js:465-467 | always false |
| WindowHost.ActivityWindowRedirectHost.Accept | src/activity-window-host.js:470-473 | accepts exactly when connected |
| WindowHost.ActivityWindowRedirectHost.GetArgs | src/activity-window-host.js:476-479 | `not connected`, or the request's args |
| WindowHost.ActivityWindowRedirectHost.EnsureAccepted | src/activity-window-host.js:547-551 | succeeds exactly when accepted, otherwise throws `not accepted` |
| WindowHost.ActivityWindowRedirectHost.Ready | src/activity-window-host.js:482-484 | `not accepted` unless accepted, otherwise no effect |
| WindowHost.ActivityWindowRedirectHost.Message | src/activity-window-host.js:507-510 | `not accepted` unless accepted, otherwise no effect |
| WindowHost.ActivityWindowRedirectHost.OnMessage | src/activity-window-host.js:513-516 | `not accepted` unless accepted, otherwise no effect |
| WindowHost.ActivityWindowRedirectHost.MessageChannel | src/activity-window-host.js:519-522 | always throws: `not accepted`, or `not supported` |
| WindowHost.ActivityWindowRedirectHost.IsMessagingSupported | src/activity-window-host.js:502-504 | always false |
| WindowHost.ActivityWindowRedirectHost.SetSizeContainer | src/activity-window-host.js:487-489 | records the size container |
| WindowHost.ActivityWindowRedirectHost.OnResizeComplete | src/activity-window-host.js:492-494 | records the callback |
| WindowHost.ActivityWindowRedirectHost.Resized | src/activity-window-host.js:497-499 | schedules one `resized_` |
| WindowHost.ActivityWindowRedirectHost.ResizeTimerFired | src/activity-window-host.js:591-601 | the callback gets `(innerHeight, scrollHeight, innerHeight < scrollHeight)` when a container and a callback are set |
| WindowHost.ActivityWindowRedirectHost.SendResult | src/activity-window-host.js:558-588 | OK needs accepted, other codes connected; then exactly one navigation, to the result URL carrying `{requestId, window origin, code, data}` |
| WindowHost.ActivityWindowRedirectHost.Result | src/activity-window-host.js:525-527 | an OK result, only when accepted |
| WindowHost.ActivityWindowRedirectHost.Cancel | src/activity-window-host.js:530-532 | a CANCELED result with null data, only when connected |
| WindowHost.ActivityWindowRedirectHost.Failed | src/activity-window-host.js:535-537 | a FAILED result with `String(reason)`, only when connected |
| WindowHost.RequestStringKeepsTrust | src/activity-window-host.js:109 | the request string a redirect host hands on, read back trusted, restores its id, return URL, args, origin and verified flag |
| WindowHost.SettleFirst | src/activity-window-host.js:120-126 | a settled connect promise stays as it was; an unsettled one takes the value |
| WindowHost.Fallback | src/activity-window-host.js:121-125 | the five-second fallback rejects with the deferred redirect error if there is one, else yields the redirect host |
| WindowHost.RedirectError | src/activity-window-host.js:108-114 | an error is deferred exactly when the redirect host's `connect` was refused, and it is that refusal's message |
| WindowHost.ActivityWindowPopupHost.constructor | src/activity-window-host.js:48-97 | a new host is unconnected, its resolver live, its messenger fixed on the opener, its redirect host fresh |
| WindowHost.ActivityWindowPopupHost.Connect | src/activity-window-host.js:104-131 | connects the redirect host first (keeping its request string or deferring its error), then registers the handler, sends `connect` and schedules one fallback carrying that error |
| WindowHost.ActivityWindowPopupHost.ConnectRedirectHost | src/activity-window-host.js:108-114 | the deferred error is `RedirectError(ConnectionOf(...))`; the request string is kept exactly when the redirect host connected |
| WindowHost.ActivityWindowPopupHost.ConnectMessenger | src/activity-window-host.js:115-128 | `already connected` when the handler is set; otherwise one `connect` post and one fallback timer |
| WindowHost.ActivityWindowPopupHost.FallbackTimerFired | src/activity-window-host.js:119-128 | with the resolver live, the promise settles with `Fallback` unless `start` settled it, and the resolver is cleared |
| WindowHost.ActivityWindowPopupHost.Disconnect | src/activity-window-host.js:134-149 | resets connected and accepted, stops listening for unload, asks the window to close once, and disconnects the messenger: its handler is cleared and, if it was connected, every channel port is closed and the table dropped |
| WindowHost.ActivityWindowPopupHost.GetRequestString | src/activity-window-host.js:152-155 | `not connected`, or the redirect host's request string |
| WindowHost.ActivityWindowPopupHost.GetMode | src/activity-window-host.js:158-160 | the mode is POPUP |
| WindowHost.ActivityWindowPopupHost.GetTargetOrigin | src/activity-window-host.js:163-166 | `not connected`, or the origin learned from `start` |
| WindowHost.ActivityWindowPopupHost.IsTargetOriginVerified | src/activity-window-host.js:169-173 | `not connected`, or true |
| WindowHost.ActivityWindowPopupHost.IsSecureChannel | src/activity-window-host.js:176-178 | always true |
| WindowHost.ActivityWindowPopupHost.Accept | src/activity-window-host.js:181-184 | accepts exactly when connected |
| WindowHost.ActivityWindowPopupHost.GetArgs | src/activity-window-host.js:187-190 | `not connected`, or the `start` payload |
| WindowHost.ActivityWindowPopupHost.Ready | src/activity-window-host.js:193-196 | `not accepted`, or one `ready` post to the opener |
| WindowHost.ActivityWindowPopupHost.EnsureAccepted | src/activity-window-host.js:259-263 | succeeds exactly when accepted, otherwise throws `not accepted` |
| WindowHost.ActivityWindowPopupHost.Message | src/activity-window-host.js:219-222 | `not accepted` unless accepted, otherwise no effect |
| WindowHost.ActivityWindowPopupHost.OnMessage | src/activity-window-host.js:225-228 | `not accepted` unless accepted, otherwise no effect |
| WindowHost.ActivityWindowPopupHost.MessageChannel | src/activity-window-host.js:231-234 | always throws: `not accepted`, or `not supported` |
| WindowHost.ActivityWindowPopupHost.IsMessagingSupported | src/activity-window-host.js:214-216 | always false |
| WindowHost.ActivityWindowPopupHost.SetSizeContainer | src/activity-window-host.js:199-201 | records the size container |
| WindowHost.ActivityWindowPopupHost.OnResizeComplete | src/activity-window-host.js:204-206 | records the callback |
| WindowHost.ActivityWindowPopupHost.Resized | src/activity-window-host.js:209-211 | schedules one `resized_` |
| WindowHost.ActivityWindowPopupHost.ResizeTimerFired | src/activity-window-host.js:306-317 | the callback gets `(innerHeight, scrollHeight, innerHeight < scrollHeight)` when a container and a callback are set |
| WindowHost.ActivityWindowPopupHost.SendResult | src/activity-window-host.js:270-286 | OK needs accepted, other codes connected; exactly one `result` post, and the unload listener is removed |
| WindowHost.ActivityWindowPopupHost.Result | src/activity-window-host.js:237-239 | an OK result, only when accepted |
| WindowHost.ActivityWindowPopupHost.Cancel | src/activity-window-host.js:242-244 | a CANCELED result with null data, only when connected |
| WindowHost.ActivityWindowPopupHost.Failed | src/activity-window-host.js:247-249 | a FAILED result with `String(reason)`, only when connected |
| WindowHost.ActivityWindowPopupHost.Unload | src/activity-window-host.js:320-322 | while the unload listener is registered, connected or not, one `check` post with an empty object to the learned origin |
| WindowHost.ActivityWindowPopupHost.ReceiveMessage | src/activity-window-host.js:115 | an event without the sentinel changes nothing; a `start` arriving while no origin is known, or from the known origin, connects the host with its payload as args, and the host becomes connected in no other way; an event from another known origin changes nothing |
| WindowHost.ActivityWindowPopupHost.HandleCommand | src/activity-window-host.js:293-303 | `start` stores args, connects, settles the promise with the popup host if unsettled and adds the unload listener; `close` disconnects |
| WindowHost.NewPopupHost | src/activity-window-host.js:48-51 | construction succeeds exactly when the window has an opener other than itself, otherwise throws `No window.opener` |
| WindowPort.PortMode | src/activity-window-port.js:94-98 | REDIRECT exactly for `_top`, POPUP otherwise |
| WindowPort.ReturnUrlOf | src/activity-window-port.js:164-166 | the option's non-empty return URL, otherwise the current href without its fragment |
| WindowPort.OpenUrlCarriesRequest | src/activity-window-port.js:162-173 | the opened URL's `__WA__` parameter reads back as `{requestId, returnUrl, args}` with no origin fields, and the URL before the fragment is kept |
| WindowPort.OpenUrlSkipped | src/activity-window-port.js:163 | with `skipRequestInUrl` the URL is opened as given |
| WindowPort.BuildFeatures | src/activity-window-port.js:247-281 | the `for`-`in` loop writes the features in order, separated by commas |
| WindowPort.FeaturesTextSplits | src/activity-window-port.js:273-279 | splitting the features string at commas gives back the entries |
| WindowPort.FeatureListSplits | src/activity-window-port.js:261-272 | the features string holds height, width, resizable, scrollbars and, unless on Edge, left and top |
| WindowPort.PopupCentred | src/activity-window-port.js:249-260 | the size fits the screen: at most 600 without a size option, the option capped at the screen otherwise; the offset centres it to within one pixel |
| WindowPort.Cascade | src/activity-window-port.js:186-225 | the blank window of the IE path, else the given target, else `_top` tried only when nothing was obtained and the target was not `_top` |
| WindowPort.CascadeCalls | src/activity-window-port.js:186-225 | a `_top` target makes exactly one call; the last call is the `_top` retry exactly when the target changed |
| WindowPort.PopupResult | src/activity-window-port.js:337-348 | a connected messenger gives (learned origin, verified, secure); otherwise (origin of the URL, not verified, not secure) |
| WindowPort.PopupResultAsWritten | src/activity-window-port.js:340-348 | the written call puts the mode name `popup` in the origin slot |
| WindowPort.PopupResultAsWrittenMisreports | src/activity-window-port.js:340-348 | without a connection the written result reports origin `popup`, verified, where the intended one reports the URL's origin, unverified |
| WindowPort.ActivityWindowPort.constructor | src/activity-window-port.js:53-91 | stores the target, `args \|\| null` and the options; the resolver is live, no window, no heartbeat, no messenger |
| WindowPort.ActivityWindowPort.GetMode | src/activity-window-port.js:94-98 | the mode of the target |
| WindowPort.ActivityWindowPort.GetTargetWin | src/activity-window-port.js:115-117 | the opened window, if any |
| WindowPort.ActivityWindowPort.Disconnect | src/activity-window-port.js:122-141 | stops the heartbeat, asks the window to close once and drops it, clears the resolver, and disconnects and drops the messenger: the old messenger's handler is cleared, every channel port it held is closed and its table dropped, nothing is posted, and its origin, target and port counter are unchanged |
| WindowPort.ActivityWindowPort.DisconnectWithError | src/activity-window-port.js:325-330 | rejects a still-open promise with the reason (a settled one keeps its outcome), then disconnects as `Disconnect` does: the old messenger's handler is cleared, its channel ports closed and table dropped, nothing posted, its origin, target and port counter unchanged |
| WindowPort.ActivityWindowPort.Open | src/activity-window-port.js:157-241 | makes the calls of `CascadeCalls` with the request URL and features; a window not opened as `_top` gets the heartbeat and a fresh messenger; no window rejects with `failed to open window` |
| WindowPort.ActivityWindowPort.UseWindow | src/activity-window-port.js:228-235 | keeps the window and sets up the popup only for a non-`_top` target; without a window fails with `failed to open window` |
| WindowPort.ActivityWindowPort.OpenWindow | src/activity-window-port.js:176-225 | returns the window and target of `Cascade`, logging the calls of `CascadeCalls` |
| WindowPort.ActivityWindowPort.SetupPopup | src/activity-window-port.js:284-299 | starts the heartbeat and connects a fresh messenger fixed on the window with no origin |
| WindowPort.ActivityWindowPort.Check | src/activity-window-port.js:305-319 | a missing or closed window stops the heartbeat and schedules a cancellation after 3000 ms (or 0 without delay); otherwise nothing changes |
| WindowPort.ActivityWindowPort.HeartbeatFired | src/activity-window-port.js:287-289 | the heartbeat checks with the 3000 ms grace delay |
| WindowPort.ActivityWindowPort.CheckTimerFired | src/activity-window-port.js:376 | the re-check of a `check` command cancels with no grace delay |
| WindowPort.ActivityWindowPort.CancelTimerFired | src/activity-window-port.js:311-317 | the cancellation settles a still-open promise with CANCELED and the intended trust triple; the port ends disconnected either way |
| WindowPort.ActivityWindowPort.DeliverResult | src/activity-window-port.js:337-356 | settles the promise at most once with `PopupResult`, then sends `close` (which throws while no origin is known) and disconnects |
| WindowPort.ActivityWindowPort.HandleCommand | src/activity-window-port.js:363-378 | `connect` answers `start` with the args; `result` delivers code and data (FAILED data wrapped in an Error); `check` schedules a re-check |
| WindowPort.ActivityWindowPort.ReceiveMessage | src/activity-window-port.js:298 | an event without the sentinel, or from an origin other than the known one, changes nothing; a settled promise stays settled; a `result` from the opened window (teaching the origin) or from the known origin settles a live promise with `PopupResult` for that origin |
| WindowPort.NewWindowPort | src/activity-window-port.js:53-60 | construction succeeds exactly for a non-empty target that is `_blank`, `_top` or does not start with `_`; otherwise it throws |
| WindowPort.FoundResponse | src/activity-window-port.js:388-399 | a response is found only when it is truthy and carries the request id |
| WindowPort.FoundResponseAsWritten | src/activity-window-port.js:391-399 | the written lookup, decoding the parameter a second time, also keeps only a response with the request id |
| WindowPort.FoundResponseAsWrittenThrows | src/activity-window-port.js:395-396 | a response text holding a `%` not followed by two hex digits makes the written lookup throw `URIError` |
| WindowPort.DiscoverRedirectPort | src/activity-window-port.js:388-425 | null exactly when no response is found; otherwise the port carries the response's code and origin, verified exactly when it equals the referrer's origin, and `replaceState` is called exactly when removing the parameter changes the hash |
| WindowPort.RedirectPortMode | src/activity-window-port.js:457-459 | the mode is REDIRECT |
| WindowPort.RedirectResult | src/activity-window-port.js:462-469 | the carried code, origin and verified flag, never a secure channel, data only for OK |
| WindowPort.RedirectResultAsWritten | src/activity-window-port.js:463-469 | the written call puts the mode name `redirect` in the origin slot and the verified flag in `secureChannel` |
| WindowPort.RedirectResultAsWrittenMisreports | src/activity-window-port.js:463-469 | an unverified origin is reported by the written code as origin `redirect`, verified |
| WindowPort.AcceptRedirectResult | src/activity-window-port.js:462-473 | fulfils exactly for OK, and settles with the intended result either way |
| Hosts.ChooseHostAsWritten | src/activity-hosts.js:49-60 | iframe host exactly below the top; popup host exactly at the top with an open opener; redirect host otherwise |
| Hosts.ConnectHostAsWritten | src/activity-hosts.js:49-61 | throws `No window.opener` exactly when the written choice is the popup host for a window that is its own opener |
| Hosts.SelfOpenerThrows | src/activity-hosts.js:54-56 | a top-level window that is its own opener makes the written code throw, where the redirect host is meant |
| Hosts.ChooseHost | src/activity-hosts.js:49-60 | iframe host below the top; popup host at the top with an open opener other than the window; redirect host otherwise |
| Hosts.ChooseHostConstructs | src/activity-hosts.js:49-61 | the intended choice never hands the popup constructor a window it refuses, and differs from the written one only there |
| IframePort.NewPortResult | activities.js:43-54 | data only for OK, `ok` exactly for OK, an error exactly for FAILED, with `String(data)` |
| IframePort.FailedResultCarriesMessage | activities.js:619-623 | a FAILED result from a `result` command has null data and an error carrying the text of the command's data |
| IframePort.ActivityIframePort.constructor | activities.js:487-539 | `args \|\| null`; unconnected; the ready and result resolvers live; a messenger with the given origin and no handler |
| IframePort.ActivityIframePort.Connect | activities.js:545-552 | a detached iframe throws `iframe must be in DOM` before anything changes; otherwise registers the handler and sets `src` once |
| IframePort.ActivityIframePort.Disconnect | activities.js:555-558 | unconnected; the messenger's handler is cleared and, if it was connected, its channel ports are closed and its table dropped |
| IframePort.ActivityIframePort.OnResizeRequest | activities.js:583-590 | registers the callback and queues a replay |
| IframePort.ActivityIframePort.ReplayFired | activities.js:585-589 | the replay passes a requested height that is not null or undefined to the callback |
| IframePort.ActivityIframePort.Resized | activities.js:596-602 | sends `resized` with the height only while connected |
| IframePort.ActivityIframePort.HandleCommand | activities.js:609-640 | `connect` connects and sends `start` with the args; the first `result` settles, then sends `close` and disconnects, and later ones do nothing; `ready` resolves once; `resize` records and forwards the height |
| IframePort.ActivityIframePort.SettleResult | activities.js:617-628 | the result is settled before `close` is sent; `close` is then posted once and the port disconnects |
| IframePort.ActivityIframePort.ReceiveMessage | activities.js:261-277 | an event without the sentinel or from another origin changes nothing, and a settled result stays settled; a sentinel event from the iframe's origin reaches `handleCommand_` with its payload: `connect` connects and sends `start` with the args, the first `result` with a payload settles the result from its code and data and then sends `close` and disconnects, `ready` resolves the ready promise, and `resize` records the height and passes it to a registered callback |
| Protocol.PortRequestReachesHost | src/activity-window-port.js:162-173 | the redirect host reading the opened URL's fragment gets `{requestId, returnUrl, args}`, complete exactly when both id and return URL are non-empty |
| Protocol.PortRequestTrust | src/activity-window-host.js:415-423 | such a request is trusted with the return URL's origin, verified exactly when the referrer has that origin |
| Protocol.ResponseFields | src/activity-window-host.js:565-570 | the response object reads back its request id, origin, code and data, and is truthy |
| Protocol.ResponseReachesPort | src/activity-window-host.js:571-574 | the intended lookup on the result URL's fragment finds exactly the response the host sent |
| Protocol.RedirectRoundTrip | src/activity-window-port.js:388-425 | the port discovered from the host's result URL carries the host's code, data and origin, verified exactly when the referrer has that origin |
| Protocol.MembersEndWithLast | src/utils.js:222 | written object members end with the last member |
| Protocol.PercentDataText | src/activity-window-host.js:565-574 | a response with data `"%"` is written ending in `%"}` |
| Protocol.PercentDataBreaksWrittenLookup | src/activity-window-port.js:395-396 | with data `"%"` the intended lookup finds the response and the written one throws `URIError` |

## Left out

- `window.open`, `postMessage`, `MessageChannel`, event listeners,
  `location.replace`/`assign`, `history.replaceState`, `win.close`, the
  anchor-element URL parser and the measured sizes (`scrollHeight`,
  `innerWidth`, `innerHeight`, `offsetHeight`) are inputs (oracles, function
  parameters) or ghost logs.
- Timers have no clock. Each `setTimeout`/`setInterval` is a pending entry
  plus a `...Fired` method. `ActivityIframeHost.ResizeEvent` uses the same
  pattern for the 50 ms delay, and the popup host for the 5 s fallback.
- Promises are a live-resolver flag plus the settled value. What `connect`
  and `open` return is not modelled beyond that value. A settlement handed
  to the promise (a rejected promise included) counts as the settlement.
- `ActivityHosts.connectHost` is modelled as its choice and the popup
  constructor's refusal. The construction of the chosen host and the
  forwarding of the request to its `connect` are the classes' own `Connect`
  methods.
- JSON covers null, booleans, integers, strings, arrays and objects.
  Floating-point numbers and whitespace inside JSON text are out.
- Json.EscapeAt: a `\u` escape naming a lone surrogate (`\ud800` to
  `\udfff`) is refused, because a character here is a Unicode scalar value
  and not a UTF-16 code unit. `JSON.parse` accepts it.
- Utils.RequestOf: a `requestId`, `returnUrl` or `origin` member whose value
  is not a string is read as absent. `originVerified` counts only when it is
  `true`. JavaScript keeps any such truthy value, so a request such as
  `{"requestId":5,"returnUrl":"https://x"}` connects there and is refused
  here, and a trusted `"originVerified":1` is truthy there and false here.
  The request fields are strings and booleans so that the host's trust
  rules and the round trips can be stated on them.
- Utils.ParseRequest: inherits the gap of Utils.RequestOf for members that
  are not strings. It also inherits the JSON simplifications above: text
  with whitespace or a fraction is a syntax error here, and a lone-surrogate
  escape is refused.
- `encodeURIComponent` covers ASCII. Characters outside ASCII pass through
  unencoded (no UTF-8).
- WindowPort.BuildFeatures: `0.9 * screen` is modelled as `9 * screen / 10`
  rounded down, and the Edge and IE user-agent tests are boolean inputs.
- Messaging.Messenger.SendCommand: `sendConnectCommand` and
  `sendStartCommand` are called in the source but not defined there. They
  are modelled as `sendCommand('connect')` and `sendCommand('start', args)`.
- Loose equality (`==`) is modelled only where both sides are strings:
  command names, codes and the request id of a response.
- IframeHost.HeightBelow: a string or array height is compared as false,
  not with JavaScript's numeric coercion.
- WindowPort.DiscoverRedirectPort: a non-string `origin` in a response is
  carried as `''`.
- WindowPort.DiscoverRedirectPort: a response without `data` is carried
  with data `null`, where src/activity-window-port.js:413 passes `undefined`
  on. An OK redirect result then reads `null` rather than `undefined`, and a
  FAILED one has the error text `Error: null` rather than `Error: undefined`.
- ActivityTypes.CodeField: an absent `code` is carried as an unknown code.
- WindowPort.PopupResultAsWritten: the origin string that lands in
  `originVerified` is kept as its truthiness.
- WindowPort.RedirectResultAsWritten: likewise.
- Percent.Decode: an escape of value 0x80 or above is refused (`None`)
  instead of being decoded as UTF-8. A browser-written non-ASCII value of
  `__WA__` or `__WA_RES__` therefore makes Utils.GetQueryParam,
  WindowHost.FragmentRequest and WindowPort.DiscoverRedirectPort throw here,
  while `decodeURIComponent` would decode it. The URIError agreement holds
  only for escapes below 0x80.
- Errors thrown by JavaScript itself, such as a `TypeError` on a null
  payload, are modelled as a throw whose message text is not the browser's.
- The iframe port in `activities.js` talks through an older bundled
  messenger (activities.js:156-279). Here it uses the `src/messenger.js`
  model, whose connect, origin and sentinel rules it relies on. The two
  differ on the channel commands: the bundled messenger has no channel
  table and passes `msg`, `cnget` and `cnset` on to `handleCommand_`, which
  ignores them. The model instead answers `cnget` with a channel and a
  `cnset` post, and routes `msg` to the custom-message handler.
- The popup-port test at test/functional/activity-window-port-test.js:396
  describes another revision, and the model follows the source.
- `assertSafeRedirectUrl` is imported by src/activity-window-host.js:26 but
  not defined in src/utils.js. Utils.AssertSafeRedirectUrl rejects exactly
  the `javascript:` scheme, which is what
  test/functional/activity-window-host-test.js:861-874 asserts.
- `isIeBrowser`, `isEdgeBrowser`, `throwAsync`, `isNodeConnected` and the
  module-level URL parser cache are browser plumbing. They are inputs here.

## Findings

| source | as written | input that shows it | evidently intended | confidence | as-written member | corrected member |
|---|---|---|---|---|---|---|
| src/activity-hosts.js:54 | a top-level window with an open opener gets the popup host, even when the opener is the window itself, and the popup constructor (src/activity-window-host.js:49-51) then throws | `win.top == win`, `win.opener == win` | the redirect host, as test/functional/activity-hosts-test.js:118-125 expects | high, not executed | Hosts.SelfOpenerThrows | Hosts.ChooseHostConstructs |
| src/activity-window-port.js:340-348 | `new ActivityResult(code, data, ActivityMode.POPUP, origin, isConnected, isConnected)` passes six arguments to a five-parameter constructor, so `origin` is `'popup'` and `originVerified` is the origin string | a popup closed before connecting: the result reads origin `popup`, verified | origin of the URL, not verified, not secure, as test/functional/activity-window-port-test.js:512-522 asserts | high, not executed | WindowPort.PopupResultAsWrittenMisreports | WindowPort.PopupResult |
| src/activity-window-port.js:463-469 | the redirect port's `acceptResult` makes the same shift: `origin` is `'redirect'`, `originVerified` the origin string, `secureChannel` the verified flag | a response from `https://example-sp.com` whose referrer does not match: reported as origin `redirect`, verified | the carried origin with its verified flag, never secure | high, not executed | WindowPort.RedirectResultAsWrittenMisreports | WindowPort.AcceptRedirectResult |
| src/activity-window-port.js:395-396 | the `__WA_RES__` value, already decoded by `getQueryParam` (src/utils.js:113-114), is decoded a second time | a host result whose data is the string `"%"` | read the response as the host wrote it | medium, not executed | Protocol.PercentDataBreaksWrittenLookup | Protocol.ResponseReachesPort |
