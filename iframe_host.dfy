/** `ActivityIframeHost`: the activity side of an iframe activity. It talks
    to its parent window through a `Messenger`, is connected once the
    client's `start` arrives, must be accepted before it may return a
    successful result, and reports its content height to the client. */
module IframeHost {
  import opened Base
  import opened Json
  import opened ActivityTypes
  import opened Messaging

  /** The payload of a `resize` command. */
  function ResizePayload(height: int): Json
  {
    JObj([Member("height", JNum(height))])
  }

  /** `allowedHeight < lastRequestedHeight` for the value read off a
      `resized` payload: `undefined` and objects compare as NaN (never
      smaller), `null` as 0 and booleans as 0 or 1. */
  function HeightBelow(allowed: Option<Json>, last: int): (r: bool)
    ensures allowed.Some? && allowed.value.JNum? ==> (r <==> allowed.value.n < last)
    ensures allowed.None? || (allowed.Some? && allowed.value.JObj?) ==> !r
  {
    match allowed
    case Some(JNum(n)) => n < last
    case Some(JNull) => 0 < last
    case Some(JBool(b)) => (if b then 1 else 0) < last
    case _ => false
  }

  /** One call of the `onResizeComplete` callback. */
  datatype ResizeReport = ResizeReport(allowed: Option<Json>, lastRequested: int, smaller: bool)

  class ActivityIframeHost {
    /** The parent window, the messenger's fixed target. */
    const parent: WindowId
    const messenger: Messenger
    var args: Json
    var connected: bool
    var accepted: bool
    /** Whether `connectedResolver_` is still set. */
    var resolverLive: bool
    /** Whether the connect promise was resolved with this host. */
    ghost var connectResolved: bool
    var hasSizeContainer: bool
    var hasResizeCallback: bool
    var lastMeasuredWidth: int
    var lastRequestedHeight: int
    /** Whether the window `resize` listener is registered. */
    var resizeListening: bool
    /** Calls of `resized_` scheduled by `resized()` and not yet run. */
    var pendingResizes: nat
    ghost var resizeReports: seq<ResizeReport>
    ghost var customMessages: seq<Json>

    /** The host's gating invariant: accepted only while connected, and a
        connected host knows its target and the target's origin, so every
        send it makes after the gate succeeds. */
    ghost predicate Valid()
      reads this, messenger
    {
      && messenger.Valid()
      && messenger.source == Direct(parent)
      && (accepted ==> connected)
      && (connected ==> messenger.targetOrigin.Some? && messenger.target.Some?)
      && (messenger.onCommand ==> messenger.target.Some?)
      && (resolverLive <==> !connectResolved)
    }

    constructor(parent: WindowId)
      ensures Valid()
      ensures this.parent == parent && fresh(messenger)
      ensures !connected && !accepted && resolverLive && !connectResolved && args == JNull
      ensures lastMeasuredWidth == 0 && lastRequestedHeight == 0
      ensures !hasSizeContainer && !hasResizeCallback && !resizeListening && pendingResizes == 0
      ensures !messenger.onCommand && messenger.targetOrigin.None? && messenger.outbox == []
    {
      this.parent := parent;
      messenger := new Messenger(Direct(parent), None);
      args := JNull;
      connected := false;
      accepted := false;
      resolverLive := true;
      connectResolved := false;
      hasSizeContainer := false;
      hasResizeCallback := false;
      lastMeasuredWidth := 0;
      lastRequestedHeight := 0;
      resizeListening := false;
      pendingResizes := 0;
      resizeReports := [];
      customMessages := [];
    }

    /** `connect()`: resets the gates, registers the handler and sends
        `connect` to the parent with origin `'*'` until one is known. */
    method Connect() returns (st: Status)
      requires Valid()
      modifies this`connected, this`accepted, messenger`onCommand, messenger`target, messenger`outbox
      ensures Valid()
      ensures !connected && !accepted
      ensures old(messenger.onCommand) ==>
                st == Thrown("already connected") && messenger.outbox == old(messenger.outbox)
      ensures !old(messenger.onCommand) ==>
                st == Done && messenger.onCommand && messenger.target == Some(parent) &&
                messenger.outbox == old(messenger.outbox) +
                  [Post(parent, "connect", JNull, OutboundOrigin("connect", messenger.targetOrigin).value, [])]
    {
      connected := false;
      accepted := false;
      st := messenger.Connect();
      if st.Thrown? {
        return;
      }
      st := messenger.SendCommand("connect", JNull, [], None);
    }

    /** `disconnect()`. */
    method Disconnect()
      requires Valid()
      modifies this`connected, this`accepted, this`resizeListening,
               messenger`onCommand, messenger`channels, messenger`closed
      ensures Valid()
      ensures !connected && !accepted && !resizeListening && !messenger.onCommand
      ensures TableDropped(old(messenger.onCommand), old(messenger.channels), old(messenger.closed),
                           messenger.channels, messenger.closed)
    {
      connected := false;
      accepted := false;
      messenger.Disconnect();
      resizeListening := false;
    }

    /** `ensureConnected_()` followed by `getRequestString()`: never a
        request string for iframes. */
    method GetRequestString() returns (r: Result<Option<string>>)
      ensures r.Ok? <==> connected
      ensures r.Ok? ==> r.value.None?
      ensures r.Err? ==> r.message == "not connected"
    {
      if !connected {
        return Err("not connected");
      }
      return Ok(None);
    }

    method GetMode() returns (m: Mode)
      ensures m == IFRAME
    {
      return IFRAME;
    }

    /** `getTargetOrigin()`: the origin the messenger learned. */
    method GetTargetOrigin() returns (r: Result<string>)
      requires Valid()
      ensures r.Ok? <==> connected
      ensures r.Ok? ==> Some(r.value) == messenger.targetOrigin
      ensures r.Err? ==> r.message == "not connected"
    {
      if !connected {
        return Err("not connected");
      }
      r := messenger.GetTargetOrigin();
    }

    /** `isTargetOriginVerified()`: always true once connected. */
    method IsTargetOriginVerified() returns (r: Result<bool>)
      ensures r.Ok? <==> connected
      ensures r.Ok? ==> r.value
      ensures r.Err? ==> r.message == "not connected"
    {
      if !connected {
        return Err("not connected");
      }
      return Ok(true);
    }

    method IsSecureChannel() returns (r: bool)
      ensures r
    {
      return true;
    }

    /** `accept()`. */
    method Accept() returns (st: Status)
      requires Valid()
      modifies this`accepted
      ensures Valid()
      ensures st.Done? <==> old(connected)
      ensures st.Done? ==> accepted
      ensures st.Thrown? ==> st.message == "not connected" && accepted == old(accepted)
    {
      if !connected {
        return Thrown("not connected");
      }
      accepted := true;
      return Done;
    }

    /** `getArgs()`: the `start` payload. */
    method GetArgs() returns (r: Result<Json>)
      ensures r.Ok? <==> connected
      ensures r.Ok? ==> r.value == args
      ensures r.Err? ==> r.message == "not connected"
    {
      if !connected {
        return Err("not connected");
      }
      return Ok(args);
    }

    /** `ready()`: tells the client the iframe is ready, measures once and
        starts listening for window resizes. */
    method Ready(scrollHeight: int) returns (st: Status)
      requires Valid()
      modifies this`lastRequestedHeight, this`resizeListening, messenger`target, messenger`outbox
      ensures Valid()
      ensures st.Done? <==> accepted
      ensures !accepted ==>
                st == Thrown("not accepted") && messenger.outbox == old(messenger.outbox) &&
                resizeListening == old(resizeListening) && lastRequestedHeight == old(lastRequestedHeight)
      ensures accepted ==>
                resizeListening && messenger.target == old(messenger.target) &&
                var ready := Post(messenger.target.value, "ready", JNull, messenger.targetOrigin.value, []);
                messenger.outbox == old(messenger.outbox) + [ready] + ResizePosts(old(lastRequestedHeight), scrollHeight)
    {
      if !accepted {
        return Thrown("not accepted");
      }
      st := messenger.SendCommand("ready", JNull, [], None);
      st := DoResized(scrollHeight);
      resizeListening := true;
    }

    /** The `resize` posts a measurement causes. */
    ghost function ResizePosts(last: int, scrollHeight: int): seq<Post>
      reads this, messenger
    {
      if hasSizeContainer && scrollHeight != last && messenger.target.Some? && messenger.targetOrigin.Some?
      then [Post(messenger.target.value, "resize", ResizePayload(scrollHeight), messenger.targetOrigin.value, [])]
      else []
    }

    method SetSizeContainer()
      modifies this`hasSizeContainer
      ensures hasSizeContainer
    {
      hasSizeContainer := true;
    }

    method OnResizeComplete()
      modifies this`hasResizeCallback
      ensures hasResizeCallback
    {
      hasResizeCallback := true;
    }

    /** `resized()`: schedules `resized_` after 50 ms. */
    method Resized()
      modifies this`pendingResizes
      ensures pendingResizes == old(pendingResizes) + 1
    {
      pendingResizes := pendingResizes + 1;
    }

    /** A scheduled `resized_` fires, with the container's current height. */
    method ResizeTimerFired(scrollHeight: int) returns (st: Status)
      requires Valid() && pendingResizes > 0
      modifies this`pendingResizes, this`lastRequestedHeight, messenger`target, messenger`outbox
      ensures Valid()
      ensures pendingResizes == old(pendingResizes) - 1
      ensures hasSizeContainer ==> lastRequestedHeight == scrollHeight
      ensures !hasSizeContainer ==> lastRequestedHeight == old(lastRequestedHeight)
      ensures connected ==>
                st == Done && messenger.outbox == old(messenger.outbox) + ResizePosts(old(lastRequestedHeight), scrollHeight)
    {
      pendingResizes := pendingResizes - 1;
      st := DoResized(scrollHeight);
    }

    /** `resized_()`: asks for a new height only when the measured one
        differs from the last one asked for. */
    method DoResized(scrollHeight: int) returns (st: Status)
      requires Valid()
      modifies this`lastRequestedHeight, messenger`target, messenger`outbox
      ensures Valid()
      ensures hasSizeContainer ==> lastRequestedHeight == scrollHeight
      ensures !hasSizeContainer ==> lastRequestedHeight == old(lastRequestedHeight)
      ensures !hasSizeContainer || scrollHeight == old(lastRequestedHeight) ==>
                st == Done && messenger.outbox == old(messenger.outbox)
      ensures st.Done? ==> messenger.outbox == old(messenger.outbox) + ResizePosts(old(lastRequestedHeight), scrollHeight)
      ensures st.Thrown? ==> messenger.outbox == old(messenger.outbox)
      ensures connected ==> st == Done
      ensures old(messenger.target).Some? ==> messenger.target == old(messenger.target)
    {
      st := Done;
      if hasSizeContainer && scrollHeight != lastRequestedHeight {
        lastRequestedHeight := scrollHeight;
        st := messenger.SendCommand("resize", ResizePayload(lastRequestedHeight), [], None);
      }
    }

    /** `resizeEvent_()`: a window `resize` event with the new inner width. */
    method ResizeEvent(width: int)
      requires resizeListening
      modifies this`lastMeasuredWidth, this`pendingResizes
      ensures lastMeasuredWidth == width
      ensures pendingResizes == old(pendingResizes) + (if width != old(lastMeasuredWidth) then 1 else 0)
    {
      if lastMeasuredWidth != width {
        lastMeasuredWidth := width;
        Resized();
      }
    }

    /** `message(payload)`. */
    method Message(payload: Json) returns (st: Status)
      requires Valid()
      modifies messenger`target, messenger`outbox
      ensures Valid()
      ensures st.Done? <==> accepted
      ensures !accepted ==> st == Thrown("not accepted") && messenger.outbox == old(messenger.outbox)
      ensures accepted ==>
                messenger.outbox == old(messenger.outbox) +
                  [Post(messenger.target.value, "msg", OrNull(payload), messenger.targetOrigin.value, [])]
    {
      if !accepted {
        return Thrown("not accepted");
      }
      st := messenger.CustomMessage(payload, None);
    }

    /** `onMessage(callback)`. */
    method OnMessage() returns (st: Status)
      modifies messenger`onCustomMessage
      ensures st.Done? <==> accepted
      ensures st.Thrown? ==> st.message == "not accepted" && messenger.onCustomMessage == old(messenger.onCustomMessage)
      ensures st.Done? ==> messenger.onCustomMessage
    {
      if !accepted {
        return Thrown("not accepted");
      }
      messenger.OnCustomMessage();
      return Done;
    }

    /** `sendResult_(code, data)`: a successful result needs the activity
        accepted, a cancel or failure only connected; one `result` command
        is sent and the host stays connected, waiting for `close`. */
    method SendResult(code: ResultCode, data: Json) returns (st: Status)
      requires Valid()
      modifies messenger`target, messenger`outbox
      ensures Valid()
      ensures st.Done? <==> (if code == OK then accepted else connected)
      ensures st.Thrown? ==>
                st.message == (if code == OK then "not accepted" else "not connected") &&
                messenger.outbox == old(messenger.outbox)
      ensures st.Done? ==>
                messenger.outbox == old(messenger.outbox) +
                  [Post(messenger.target.value, "result", ResultPayload(code, data), messenger.targetOrigin.value, [])]
    {
      if code == OK && !accepted {
        return Thrown("not accepted");
      }
      if code != OK && !connected {
        return Thrown("not connected");
      }
      st := messenger.SendCommand("result", ResultPayload(code, data), [], None);
    }

    /** `result(data)`. */
    method Result(data: Json) returns (st: Status)
      requires Valid()
      modifies messenger`target, messenger`outbox
      ensures Valid()
      ensures st.Done? <==> accepted
      ensures st.Done? ==>
                messenger.outbox == old(messenger.outbox) +
                  [Post(messenger.target.value, "result", ResultPayload(OK, data), messenger.targetOrigin.value, [])]
      ensures st.Thrown? ==> messenger.outbox == old(messenger.outbox)
    {
      st := SendResult(OK, data);
    }

    /** `cancel()`. */
    method Cancel() returns (st: Status)
      requires Valid()
      modifies messenger`target, messenger`outbox
      ensures Valid()
      ensures st.Done? <==> connected
      ensures st.Done? ==>
                messenger.outbox == old(messenger.outbox) +
                  [Post(messenger.target.value, "result", ResultPayload(CANCELED, JNull), messenger.targetOrigin.value, [])]
      ensures st.Thrown? ==> messenger.outbox == old(messenger.outbox)
    {
      st := SendResult(CANCELED, JNull);
    }

    /** `failed(reason)`: the reason travels as `String(reason)`. */
    method Failed(reason: Value) returns (st: Status)
      requires Valid()
      modifies messenger`target, messenger`outbox
      ensures Valid()
      ensures st.Done? <==> connected
      ensures st.Done? ==>
                messenger.outbox == old(messenger.outbox) +
                  [Post(messenger.target.value, "result", ResultPayload(FAILED, JStr(ToJsString(reason))),
                        messenger.targetOrigin.value, [])]
      ensures st.Thrown? ==> messenger.outbox == old(messenger.outbox)
    {
      st := SendResult(FAILED, JStr(ToJsString(reason)));
    }

    /** An inbound `message` event while the handler is registered: the
        messenger filters it and this host handles what it forwards. */
    method ReceiveMessage(data: Json, origin: string, eventSource: Option<WindowId>, ports: seq<Port>)
      returns (st: Status)
      requires Valid() && messenger.onCommand
      modifies this, messenger
      ensures Valid()
      ensures !HasSentinel(data) ==> st == Done && unchanged(this) && unchanged(messenger)
      ensures connected && !old(connected) ==>
                CommandOf(data) == "start" && messenger.targetOrigin == Some(origin) &&
                args == GetOrNull(data, "payload")
      ensures HasSentinel(data) && CommandOf(data) == "start" &&
              (old(messenger.targetOrigin).None? || old(messenger.targetOrigin) == Some(origin)) ==>
                connected && messenger.targetOrigin == Some(origin) && args == GetOrNull(data, "payload")
      ensures old(messenger.targetOrigin).Some? && old(messenger.targetOrigin) != Some(origin) ==>
                st == Done && unchanged(this) && unchanged(messenger)
    {
      var d := messenger.HandleEvent(data, origin, eventSource, ports, None);
      match d
      case Forward(cmd, payload) =>
        st := HandleCommand(cmd, payload);
      case Custom(payload) =>
        customMessages := customMessages + [payload];
        st := Done;
      case Failed(message) =>
        st := Thrown(message);
      case _ =>
        st := Done;
    }

    /** `handleCommand_(cmd, payload)`. */
    method HandleCommand(cmd: string, payload: Json) returns (st: Status)
      requires Valid() && messenger.targetOrigin.Some? && messenger.onCommand
      modifies this`args, this`connected, this`accepted, this`resolverLive, this`connectResolved,
               this`resizeListening, this`resizeReports,
               messenger`onCommand, messenger`channels, messenger`closed
      ensures Valid()
      ensures cmd == "start" ==>
                args == payload && connected && accepted == old(accepted) && !resolverLive && connectResolved &&
                (st.Done? <==> old(resolverLive))
      ensures cmd == "close" ==> st == Done && !connected && !accepted && !messenger.onCommand
      ensures cmd == "resized" && payload != JNull ==>
                st == Done &&
                resizeReports == old(resizeReports) +
                  (if hasResizeCallback then
                     var allowed := Get(payload, "height");
                     [ResizeReport(allowed, lastRequestedHeight, HeightBelow(allowed, lastRequestedHeight))]
                   else [])
      ensures cmd == "resized" && payload == JNull ==> st.Thrown? && resizeReports == old(resizeReports)
      ensures cmd != "start" && cmd != "close" ==>
                connected == old(connected) && accepted == old(accepted) && args == old(args)
      ensures cmd != "start" && cmd != "close" && cmd != "resized" ==> st == Done
    {
      st := Done;
      if cmd == "start" {
        args := payload;
        connected := true;
        if !resolverLive {
          return Thrown("TypeError: connectedResolver_ is not a function");
        }
        connectResolved := true;
        resolverLive := false;
      } else if cmd == "close" {
        Disconnect();
      } else if cmd == "resized" {
        if payload == JNull {
          return Thrown("TypeError: payload is null");
        }
        var allowed := Get(payload, "height");
        if hasResizeCallback {
          resizeReports := resizeReports +
            [ResizeReport(allowed, lastRequestedHeight, HeightBelow(allowed, lastRequestedHeight))];
        }
      }
    }
  }
}
