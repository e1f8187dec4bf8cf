/** `ActivityIframePort`: the client side of an activity shown in an
    iframe. It connects a messenger to the iframe's window, answers the
    host's `connect` with `start`, and settles its ready and result
    promises at most once each. The result record of this copy of the
    client is the two-argument `ActivityResult(code, data)`. */
module IframePort {
  import opened Base
  import opened Json
  import opened ActivityTypes
  import opened Messaging
  import opened Utils

  const DOM_ERROR: string := "iframe must be in DOM"

  /** The result record built by `new ActivityResult(code, data)` in this
      copy of the client: no origin fields. */
  datatype PortResult = PortResult(code: ResultCode, data: Value, ok: bool, error: Option<ErrorValue>)

  /** The two-argument constructor: data only for OK, `ok` exactly for OK,
      an error exactly for FAILED. */
  function NewPortResult(code: ResultCode, data: Value): (r: PortResult)
    ensures r.code == code
    ensures r.ok <==> code == OK
    ensures code == OK ==> r.data == data
    ensures code != OK ==> r.data == NullValue
    ensures r.error.Some? <==> code == FAILED
    ensures code == FAILED ==> r.error == Some(PlainError(ToJsString(data)))
  {
    PortResult(code, if code == OK then data else NullValue, code == OK,
               if code == FAILED then Some(PlainError(ToJsString(data))) else None)
  }

  /** A FAILED result built from a `result` command carries the text of
      the command's data in its error, and never the data itself. */
  lemma FailedResultCarriesMessage(data: Option<Json>)
    ensures var r := NewPortResult(FAILED, ResultData(FAILED, data));
            && r.data == NullValue && !r.ok && r.error.Some?
            && (data.Some? && !Falsy(data.value) && JsonText(data.value) != "" ==>
                  r.error.value.message == "Error: " + JsonText(data.value))
            && (data.None? || Falsy(data.value) ==> r.error.value.message == "Error")
  {
  }

  function HeightPayload(height: int): Json
  {
    JObj([Member("height", JNum(height))])
  }

  class ActivityIframePort {
    const url: string
    const targetOrigin: string
    /** `opt_args || null`. */
    const args: Json
    /** Fetches its target from the iframe's `contentWindow`, with the
        given origin known from the start. */
    const messenger: Messenger

    var connected: bool
    /** Whether the connect promise resolved. */
    ghost var connectResolved: bool
    var readyLive: bool
    ghost var readyResolved: bool
    var resultLive: bool
    ghost var result: Option<PortResult>
    /** Whether an `onResizeRequest` callback is registered. */
    var hasResizeCallback: bool
    /** `requestedHeight_`: `None` is `null` before any request, and an
        absent height is `Some` of nothing, kept as `undefined`. */
    var requestedHeight: Option<Option<Json>>
    /** The heights passed to the resize callback, in order. */
    ghost var resizeCalls: seq<Option<Json>>
    /** Pending replays of the requested height to a new callback. */
    var pendingReplays: nat
    /** The values assigned to the iframe's `src`. */
    ghost var srcLog: seq<string>

    /** The messenger keeps the origin it was built with; a live resolver
        means its promise has not settled. */
    ghost predicate Valid()
      reads this, messenger
    {
      && messenger.Valid()
      && messenger.source == Callback
      && messenger.targetOrigin == Some(targetOrigin)
      && CanonicalArgs(args)
      && (resultLive <==> result.None?)
      && (readyLive <==> !readyResolved)
    }

    constructor(url: string, origin: string, args: Json)
      ensures Valid()
      ensures this.url == url && targetOrigin == origin && this.args == OrNull(args)
      ensures fresh(messenger) && !messenger.onCommand && messenger.outbox == []
      ensures !connected && !connectResolved && readyLive && resultLive
      ensures !hasResizeCallback && requestedHeight.None? && resizeCalls == [] && pendingReplays == 0 && srcLog == []
    {
      this.url := url;
      targetOrigin := origin;
      this.args := OrNull(args);
      messenger := new Messenger(Callback, Some(origin));
      connected := false;
      connectResolved := false;
      readyLive := true;
      readyResolved := false;
      resultLive := true;
      result := None;
      hasResizeCallback := false;
      requestedHeight := None;
      resizeCalls := [];
      pendingReplays := 0;
      srcLog := [];
    }

    /** `connect()`: refuses a detached iframe before touching anything,
        otherwise connects the messenger and loads the URL. */
    method Connect(inDom: bool) returns (st: Status)
      requires Valid()
      modifies this`srcLog, messenger`onCommand
      ensures Valid()
      ensures !inDom ==> st == Thrown(DOM_ERROR) && srcLog == old(srcLog) && messenger.onCommand == old(messenger.onCommand)
      ensures inDom && old(messenger.onCommand) ==> st == Thrown("already connected") && srcLog == old(srcLog)
      ensures inDom && !old(messenger.onCommand) ==> st == Done && messenger.onCommand && srcLog == old(srcLog) + [url]
    {
      if !inDom {
        return Thrown(DOM_ERROR);
      }
      st := messenger.Connect();
      if st.Thrown? {
        return st;
      }
      srcLog := srcLog + [url];
    }

    /** `disconnect()`. */
    method Disconnect()
      requires Valid()
      modifies this`connected, messenger`onCommand, messenger`channels, messenger`closed
      ensures Valid()
      ensures !connected && !messenger.onCommand
      ensures TableDropped(old(messenger.onCommand), old(messenger.channels), old(messenger.closed),
                           messenger.channels, messenger.closed)
    {
      connected := false;
      messenger.Disconnect();
    }

    /** `onResizeRequest(callback)`: registers the callback and queues a
        replay of a height already requested. */
    method OnResizeRequest()
      modifies this`hasResizeCallback, this`pendingReplays
      ensures hasResizeCallback && pendingReplays == old(pendingReplays) + 1
    {
      hasResizeCallback := true;
      pendingReplays := pendingReplays + 1;
    }

    /** The queued replay runs: a requested height that is neither `null`
        nor `undefined` goes to the callback. */
    method ReplayFired()
      requires pendingReplays > 0
      modifies this`pendingReplays, this`resizeCalls
      ensures pendingReplays == old(pendingReplays) - 1
      ensures resizeCalls == old(resizeCalls) +
                (if requestedHeight.Some? && requestedHeight.value.Some? && requestedHeight.value.value != JNull
                 then [requestedHeight.value] else [])
    {
      pendingReplays := pendingReplays - 1;
      if requestedHeight.Some? && requestedHeight.value.Some? && requestedHeight.value.value != JNull {
        resizeCalls := resizeCalls + [requestedHeight.value];
      }
    }

    /** `resized()`: reports the iframe's height, only while connected. */
    method Resized(offsetHeight: int, contentWindow: Option<WindowId>) returns (st: Status)
      requires Valid()
      modifies messenger`target, messenger`outbox
      ensures Valid()
      ensures !connected ==> st == Done && messenger.outbox == old(messenger.outbox)
      ensures connected && st.Done? ==>
                messenger.target.Some? &&
                messenger.outbox == old(messenger.outbox) +
                  [Post(messenger.target.value, "resized", HeightPayload(offsetHeight), targetOrigin, [])]
      ensures st.Thrown? ==> messenger.outbox == old(messenger.outbox)
    {
      if !connected {
        return Done;
      }
      st := messenger.SendCommand("resized", HeightPayload(offsetHeight), [], contentWindow);
    }

    /** `handleCommand_(cmd, payload)`. A thrown error is returned. */
    method HandleCommand(cmd: string, payload: Json, contentWindow: Option<WindowId>) returns (st: Status)
      requires Valid()
      modifies this`connected, this`connectResolved, this`readyLive, this`readyResolved, this`resultLive,
               this`result, this`requestedHeight, this`resizeCalls,
               messenger`target, messenger`outbox, messenger`onCommand, messenger`channels, messenger`closed
      ensures Valid()
      ensures old(result).Some? ==> result == old(result)
      ensures old(readyResolved) ==> readyResolved
      ensures cmd == "connect" ==>
                connected && result == old(result) &&
                (st.Done? <==> messenger.target.Some?) &&
                (connectResolved <==> old(connectResolved) || st.Done?) &&
                (st.Done? ==>
                   messenger.outbox == old(messenger.outbox) + [Post(messenger.target.value, "start", args, targetOrigin, [])])
      ensures cmd == "result" && !old(resultLive) ==>
                st == Done && result == old(result) && messenger.outbox == old(messenger.outbox) &&
                connected == old(connected)
      ensures cmd == "result" && old(resultLive) && payload == JNull ==> st.Thrown? && result == old(result)
      ensures cmd == "result" && old(resultLive) && payload != JNull ==>
                var code := CodeField(Get(payload, "code"));
                && result == Some(NewPortResult(code, ResultData(code, Get(payload, "data"))))
                && (st.Done? <==> messenger.target.Some?)
                && (st.Done? ==>
                      messenger.outbox == old(messenger.outbox) + [Post(messenger.target.value, "close", JNull, targetOrigin, [])] &&
                      !connected && !messenger.onCommand)
                && (st.Thrown? ==> messenger.outbox == old(messenger.outbox))
      ensures cmd == "ready" ==> st == Done && readyResolved && !readyLive && result == old(result)
      ensures cmd == "resize" && payload == JNull ==> st.Thrown? && resizeCalls == old(resizeCalls)
      ensures cmd == "resize" && payload != JNull ==>
                st == Done && requestedHeight == Some(Get(payload, "height")) &&
                resizeCalls == old(resizeCalls) + (if hasResizeCallback then [Get(payload, "height")] else [])
      ensures cmd !in {"connect", "result", "ready", "resize"} ==>
                st == Done && result == old(result) && messenger.outbox == old(messenger.outbox)
    {
      st := Done;
      if cmd == "connect" {
        connected := true;
        st := messenger.SendCommand("start", args, [], contentWindow);
        if st.Thrown? {
          return st;
        }
        connectResolved := true;
      } else if cmd == "result" {
        if resultLive {
          st := SettleResult(payload, contentWindow);
        }
      } else if cmd == "ready" {
        if readyLive {
          readyResolved := true;
          readyLive := false;
        }
      } else if cmd == "resize" {
        if payload == JNull {
          return Thrown("TypeError: payload is null");
        }
        requestedHeight := Some(Get(payload, "height"));
        if hasResizeCallback {
          resizeCalls := resizeCalls + [Get(payload, "height")];
        }
      }
    }

    /** The first `result` command: settle the result, then send `close`
        and disconnect. */
    method SettleResult(payload: Json, contentWindow: Option<WindowId>) returns (st: Status)
      requires Valid() && resultLive
      modifies this`connected, this`resultLive, this`result,
               messenger`target, messenger`outbox, messenger`onCommand, messenger`channels, messenger`closed
      ensures Valid()
      ensures payload == JNull ==> st.Thrown? && result == old(result) && messenger.outbox == old(messenger.outbox)
      ensures payload != JNull ==>
                var code := CodeField(Get(payload, "code"));
                && result == Some(NewPortResult(code, ResultData(code, Get(payload, "data"))))
                && (st.Done? <==> messenger.target.Some?)
                && (st.Done? ==>
                      messenger.outbox == old(messenger.outbox) + [Post(messenger.target.value, "close", JNull, targetOrigin, [])] &&
                      !connected && !messenger.onCommand)
                && (st.Thrown? ==> messenger.outbox == old(messenger.outbox))
    {
      if payload == JNull {
        return Thrown("TypeError: payload is null");
      }
      var code := CodeField(Get(payload, "code"));
      result := Some(NewPortResult(code, ResultData(code, Get(payload, "data"))));
      resultLive := false;
      st := messenger.SendCommand("close", JNull, [], contentWindow);
      if st.Thrown? {
        return st;
      }
      Disconnect();
    }

    /** A `message` event reaching the messenger's listener, which is
        registered while it is connected. */
    method ReceiveMessage(data: Json, origin: string, eventSource: Option<WindowId>, ports: seq<Port>,
                          contentWindow: Option<WindowId>) returns (st: Status)
      requires Valid() && messenger.onCommand
      modifies this`connected, this`connectResolved, this`readyLive, this`readyResolved, this`resultLive,
               this`result, this`requestedHeight, this`resizeCalls, messenger
      ensures Valid()
      ensures old(result).Some? ==> result == old(result)
      ensures origin != targetOrigin ==> st == Done && unchanged(this) && messenger.outbox == old(messenger.outbox)
      ensures !HasSentinel(data) ==> st == Done && unchanged(this) && unchanged(messenger)
      ensures HasSentinel(data) && origin == targetOrigin && CommandOf(data) == "connect" ==>
                connected && result == old(result) &&
                (st.Done? <==> messenger.target.Some?) &&
                (connectResolved <==> old(connectResolved) || st.Done?) &&
                (st.Done? ==>
                   messenger.outbox == old(messenger.outbox) + [Post(messenger.target.value, "start", args, targetOrigin, [])])
      ensures HasSentinel(data) && origin == targetOrigin && CommandOf(data) == "result" && old(resultLive) ==>
                var payload := GetOrNull(data, "payload");
                var code := CodeField(Get(payload, "code"));
                && (payload == JNull ==> st.Thrown? && result == old(result))
                && (payload != JNull ==>
                      && result == Some(NewPortResult(code, ResultData(code, Get(payload, "data"))))
                      && (st.Done? <==> messenger.target.Some?)
                      && (st.Done? ==>
                            messenger.outbox == old(messenger.outbox) + [Post(messenger.target.value, "close", JNull, targetOrigin, [])] &&
                            !connected && !messenger.onCommand))
      ensures HasSentinel(data) && origin == targetOrigin && CommandOf(data) == "result" && !old(resultLive) ==>
                st == Done && result == old(result) && messenger.outbox == old(messenger.outbox) && connected == old(connected)
      ensures HasSentinel(data) && origin == targetOrigin && CommandOf(data) == "ready" ==>
                st == Done && readyResolved && !readyLive && result == old(result)
      ensures HasSentinel(data) && origin == targetOrigin && CommandOf(data) == "resize" ==>
                var payload := GetOrNull(data, "payload");
                && (payload == JNull ==> st.Thrown? && resizeCalls == old(resizeCalls))
                && (payload != JNull ==>
                      st == Done && requestedHeight == Some(Get(payload, "height")) &&
                      resizeCalls == old(resizeCalls) + (if hasResizeCallback then [Get(payload, "height")] else []))
    {
      var d := messenger.HandleEvent(data, origin, eventSource, ports, contentWindow);
      match d
      case Forward(cmd, payload) =>
        st := HandleCommand(cmd, payload, contentWindow);
      case Failed(message) =>
        st := Thrown(message);
      case _ =>
        st := Done;
    }
  }
}
