/** The messenger shared by hosts and ports: it posts `{sentinel, cmd,
    payload}` messages to one target window, learns the target's origin
    once, filters inbound messages and keeps a table of named message
    channels.

    Browser effects are explicit: every `postMessage` is appended to the
    ghost `outbox`, every closed `MessagePort` is added to `closed`, and the
    window a target callback returns is passed in as `callbackTarget`. */
module Messaging {
  import opened Base
  import opened Json
  import ActivityTypes

  const SENTINEL: string := "__ACTIVITIES__"

  /** Window identities and message ports are opaque handles. */
  type WindowId = nat
  type Port = nat

  /** The `targetOrCallback` constructor argument. */
  datatype TargetSource = Direct(window: WindowId) | Callback

  /** One `target.postMessage(message, targetOrigin, transfer)` call. */
  datatype Post = Post(target: WindowId, cmd: string, payload: Json, targetOrigin: string, transfer: seq<Port>)

  /** The state of a channel promise: pending, or resolved with a port
      (`undefined` when a `cnset` arrived without one). */
  datatype Settled = Pending | ResolvedWith(port: Option<Port>)

  /** Calling a promise resolver: only the first call takes effect. */
  function Resolve(s: Settled, p: Option<Port>): (r: Settled)
    ensures r.ResolvedWith?
    ensures s.ResolvedWith? ==> r == s
    ensures s.Pending? ==> r.port == p
  {
    if s.Pending? then ResolvedWith(p) else s
  }

  /** `ChannelHolderDef`: the two ends of a channel and its promise. */
  datatype Holder = Holder(port1: Option<Port>, port2: Option<Port>, promise: Settled)

  const EmptyHolder: Holder := Holder(None, None, Pending)

  function HolderPorts(h: Holder): set<Port>
  {
    (if h.port1.Some? then {h.port1.value} else {}) + (if h.port2.Some? then {h.port2.value} else {})
  }

  /** The ports held for the channel names in `names`. */
  ghost function TablePorts(m: map<string, Holder>, names: set<string>): set<Port>
    decreases names
  {
    if names == {} then {}
    else
      var n :| n in names;
      (if n in m then HolderPorts(m[n]) else {}) + TablePorts(m, names - {n})
  }

  /** A port is in the table's ports exactly when some named channel holds it. */
  lemma {:induction false} InTablePorts(m: map<string, Holder>, names: set<string>, p: Port)
    ensures p in TablePorts(m, names) <==> exists n :: n in names && n in m && p in HolderPorts(m[n])
    decreases names
  {
    if names != {} {
      var n :| n in names && TablePorts(m, names) ==
        (if n in m then HolderPorts(m[n]) else {}) + TablePorts(m, names - {n});
      InTablePorts(m, names - {n}, p);
      if exists n' :: n' in names && n' in m && p in HolderPorts(m[n']) {
        var n' :| n' in names && n' in m && p in HolderPorts(m[n']);
        if n' != n {
          assert n' in names - {n};
        }
      }
    }
  }

  lemma TablePortsNone(m: map<string, Holder>)
    ensures TablePorts(m, {}) == {}
  {
  }

  lemma TablePortsAdd(m: map<string, Holder>, names: set<string>, n: string)
    requires n in m && n !in names
    ensures TablePorts(m, names + {n}) == TablePorts(m, names) + HolderPorts(m[n])
  {
    var lhs := TablePorts(m, names + {n});
    var rhs := TablePorts(m, names) + HolderPorts(m[n]);
    forall p ensures p in lhs <==> p in rhs {
      InTablePorts(m, names + {n}, p);
      InTablePorts(m, names, p);
      if p in lhs {
        var n' :| n' in names + {n} && n' in m && p in HolderPorts(m[n']);
        if n' != n {
          assert n' in names;
        }
      }
    }
  }

  /**
   * What a disconnect does to a messenger's channel table: a connected messenger
   * drops its table and closes every port held in it; a disconnected one is left as it was.
   */
  ghost predicate TableDropped(wasOn: bool, before: Option<map<string, Holder>>, closedBefore: set<Port>,
                               after: Option<map<string, Holder>>, closedAfter: set<Port>)
  {
    if !wasOn then after == before && closedAfter == closedBefore
    else after.None? &&
         closedAfter == closedBefore + (if before.Some? then TablePorts(before.value, before.value.Keys) else {})
  }

  /** After a connected messenger is dropped, every port any of its channels held is closed,
      ports closed earlier stay closed, and no other port is closed. */
  lemma DroppedTableClosesHeld(before: map<string, Holder>, closedBefore: set<Port>,
                               after: Option<map<string, Holder>>, closedAfter: set<Port>, p: Port)
    requires TableDropped(true, Some(before), closedBefore, after, closedAfter)
    ensures after.None?
    ensures p in closedAfter <==> p in closedBefore || exists n :: n in before && p in HolderPorts(before[n])
  {
    InTablePorts(before, before.Keys, p);
  }

  /** What an owner must do with an inbound message the messenger accepted. */
  datatype Delivery =
    | Ignored                             // filtered out: no sentinel, or a foreign origin
    | Handled                             // a channel or custom-message command, done inside
    | Custom(payload: Json)               // for the `onCustomMessage` callback
    | Forward(cmd: string, payload: Json) // for the owner's `onCommand` callback
    | Failed(message: string)             // the handler threw

  /** `!data || data['sentinel'] != SENTINEL`, negated. */
  predicate HasSentinel(data: Json) {
    !Falsy(data) && Get(data, "sentinel") == Some(JStr(SENTINEL))
  }

  /** `data['cmd']`; a command that is not a string is one no handler knows. */
  function CommandOf(data: Json): string
  {
    match Get(data, "cmd")
    case Some(JStr(c)) => c
    case _ => ""
  }

  /** The commands the messenger consumes itself. */
  predicate InternalCommand(cmd: string) {
    cmd == "msg" || cmd == "cnget" || cmd == "cnset"
  }

  /** The origin `sendCommand` posts to: the learned one, or `'*'` for a
      `connect` sent before any origin is known. `None` means it throws. */
  function OutboundOrigin(cmd: string, known: Option<string>): (o: Option<string>)
    ensures o.None? <==> cmd != "connect" && known.None?
    ensures known.Some? ==> o == known
    ensures o == Some("*") ==> cmd == "connect" || known == Some("*")
  {
    if cmd == "connect" then Some(if known.Some? then known.value else "*") else known
  }

  /** The origin after an inbound message: a known origin never changes; an
      unknown one is learned from a `start` command or from an event whose
      source is the target window. */
  function LearnOrigin(known: Option<string>, cmd: string, origin: string, sourceIsTarget: bool): (r: Option<string>)
    ensures known.Some? ==> r == known
    ensures known.None? ==> (r == Some(origin) <==> cmd == "start" || sourceIsTarget)
    ensures known.None? ==> (r.None? <==> cmd != "start" && !sourceIsTarget)
  {
    if known.Some? then known
    else if cmd == "start" || sourceIsTarget then Some(origin)
    else None
  }

  /** One sentinel-tagged inbound event, as far as origin learning sees it. */
  datatype Inbound = Inbound(cmd: string, origin: string, sourceIsTarget: bool)

  predicate Teaches(e: Inbound) {
    e.cmd == "start" || e.sourceIsTarget
  }

  /** The origin after a sequence of inbound events, one `LearnOrigin` each. */
  function LearnAll(known: Option<string>, events: seq<Inbound>): Option<string>
    decreases |events|
  {
    if events == [] then known
    else LearnAll(LearnOrigin(known, events[0].cmd, events[0].origin, events[0].sourceIsTarget), events[1..])
  }

  /** Starting with no origin, the messenger ends up with the origin of the
      first event that is a `start` or comes from the target window, and with
      none exactly when no event does. */
  lemma {:induction false} LearnAllFirst(events: seq<Inbound>)
    ensures LearnAll(None, events).None? <==> forall i :: 0 <= i < |events| ==> !Teaches(events[i])
    ensures LearnAll(None, events).Some? ==>
              exists i :: 0 <= i < |events| && Teaches(events[i]) &&
                (forall j :: 0 <= j < i ==> !Teaches(events[j])) &&
                LearnAll(None, events) == Some(events[i].origin)
    decreases |events|
  {
    if events != [] {
      var e := events[0];
      if Teaches(e) {
        LearnAllKeeps(Some(e.origin), events[1..]);
        assert LearnAll(None, events) == Some(e.origin);
      } else {
        LearnAllFirst(events[1..]);
        assert LearnAll(None, events) == LearnAll(None, events[1..]);
        forall i | 0 <= i < |events| - 1
          ensures events[1..][i] == events[i + 1]
        {
        }
        if LearnAll(None, events).Some? {
          var k :| 0 <= k < |events[1..]| && Teaches(events[1..][k]) &&
                   (forall j :: 0 <= j < k ==> !Teaches(events[1..][j])) &&
                   LearnAll(None, events[1..]) == Some(events[1..][k].origin);
          assert Teaches(events[k + 1]);
          assert forall j :: 0 <= j < k + 1 ==> !Teaches(events[j]) by {
            forall j | 0 <= j < k + 1
              ensures !Teaches(events[j])
            {
              if j > 0 {
                assert events[j] == events[1..][j - 1];
              }
            }
          }
        } else {
          forall i | 0 <= i < |events|
            ensures !Teaches(events[i])
          {
            if i > 0 {
              assert events[i] == events[1..][i - 1];
            }
          }
        }
      }
    }
  }

  /** Once an origin is known, no sequence of events changes it. */
  lemma {:induction false} LearnAllKeeps(known: Option<string>, events: seq<Inbound>)
    requires known.Some?
    ensures LearnAll(known, events) == known
    decreases |events|
  {
    if events != [] {
      LearnAllKeeps(known, events[1..]);
    }
  }

  /** `payload['name']` as the channel name `startChannel` uses (`|| ''`). */
  function StartName(name: Option<Json>): string
  {
    if name.None? || Falsy(name.value) then "" else ActivityTypes.JsonText(name.value)
  }

  /** `payload['name']` as a property key (an absent name is `"undefined"`). */
  function ReceiveName(name: Option<Json>): string
  {
    if name.None? then "undefined" else ActivityTypes.JsonText(name.value)
  }

  function NamePayload(name: string): Json
  {
    JObj([Member("name", JStr(name))])
  }

  /** The `target_` that `getOptionalTarget_` leaves behind: it is fetched
      only while connected and not yet known. */
  function LookedUpTarget(onCommand: bool, target: Option<WindowId>, source: TargetSource,
                          callbackTarget: Option<WindowId>): (t: Option<WindowId>)
    ensures target.Some? ==> t == target
    ensures !onCommand ==> t == target
    ensures onCommand && target.None? && source.Direct? ==> t == Some(source.window)
  {
    if onCommand && target.None? then
      match source
      case Direct(w) => Some(w)
      case Callback => callbackTarget
    else target
  }

  class Messenger {
    const source: TargetSource
    var targetOrigin: Option<string>
    var target: Option<WindowId>
    /** Whether an `onCommand` handler is registered (and the message
        listener with it). */
    var onCommand: bool
    var onCustomMessage: bool
    var channels: Option<map<string, Holder>>
    /** Next handle for a port of a new `MessageChannel`. */
    var nextPort: Port
    ghost var outbox: seq<Post>
    ghost var closed: set<Port>

    /** A target fetched from a fixed window is that window, and a channel
        that has a `port1` has its promise resolved. */
    ghost predicate Valid()
      reads this
    {
      && (source.Direct? && target.Some? ==> target.value == source.window)
      && (channels.Some? ==>
            forall n :: n in channels.value && channels.value[n].port1.Some? ==>
              channels.value[n].promise.ResolvedWith?)
    }

    constructor(source: TargetSource, targetOrigin: Option<string>)
      ensures this.source == source && this.targetOrigin == targetOrigin
      ensures target.None? && !onCommand && !onCustomMessage && channels.None?
      ensures outbox == [] && closed == {}
      ensures Valid()
    {
      this.source := source;
      this.targetOrigin := targetOrigin;
      target := None;
      onCommand := false;
      onCustomMessage := false;
      channels := None;
      nextPort := 0;
      outbox := [];
      closed := {};
    }

    /** `connect(onCommand)`. */
    method Connect() returns (st: Status)
      modifies this`onCommand
      ensures old(onCommand) ==> st == Thrown("already connected") && onCommand
      ensures !old(onCommand) ==> st == Done && onCommand
    {
      if onCommand {
        return Thrown("already connected");
      }
      onCommand := true;
      return Done;
    }

    /** `disconnect()`: closes every port of every channel and drops the table. */
    method Disconnect()
      modifies this`onCommand, this`channels, this`closed
      requires Valid()
      ensures Valid()
      ensures !onCommand
      ensures old(onCommand) && old(channels).Some? ==>
                channels.None? && closed == old(closed) + TablePorts(old(channels).value, old(channels).value.Keys)
      ensures old(onCommand) && old(channels).None? ==> channels.None? && closed == old(closed)
      ensures !old(onCommand) ==> channels == old(channels) && closed == old(closed)
      ensures TableDropped(old(onCommand), old(channels), old(closed), channels, closed)
    {
      if onCommand {
        onCommand := false;
        if channels.Some? {
          ClosePorts(channels.value);
          channels := None;
        }
      }
    }

    /** Closes every port of every channel in `m`, one channel at a time. */
    method ClosePorts(m: map<string, Holder>)
      modifies this`closed
      ensures closed == old(closed) + TablePorts(m, m.Keys)
    {
      var todo := m.Keys;
      ghost var done: set<string> := {};
      TablePortsNone(m);
      while todo != {}
        invariant todo + done == m.Keys && todo !! done
        invariant closed == old(closed) + TablePorts(m, done)
        decreases todo
      {
        var k :| k in todo;
        // `closePort` swallows any error from `close()`.
        assert closed + HolderPorts(m[k]) == old(closed) + TablePorts(m, done + {k}) by {
          TablePortsAdd(m, done, k);
        }
        closed := closed + HolderPorts(m[k]);
        todo := todo - {k};
        done := done + {k};
      }
    }

    /** `isConnected()`: an origin is known. */
    method IsConnected() returns (r: bool)
      ensures r <==> targetOrigin.Some?
    {
      return targetOrigin.Some?;
    }

    /** `getOptionalTarget_()`. */
    method GetOptionalTarget(callbackTarget: Option<WindowId>) returns (t: Option<WindowId>)
      modifies this`target
      ensures target == LookedUpTarget(onCommand, old(target), source, callbackTarget)
      ensures t == target
    {
      if onCommand && target.None? {
        match source
        case Direct(w) => target := Some(w);
        case Callback => target := callbackTarget;
      }
      return target;
    }

    /** `getTarget()`. */
    method GetTarget(callbackTarget: Option<WindowId>) returns (r: Result<WindowId>)
      modifies this`target
      ensures target == LookedUpTarget(onCommand, old(target), source, callbackTarget)
      ensures r.Ok? <==> target.Some?
      ensures r.Ok? ==> r.value == target.value
      ensures r.Err? ==> r.message == "not connected"
    {
      var t := GetOptionalTarget(callbackTarget);
      if t.None? {
        return Err("not connected");
      }
      return Ok(t.value);
    }

    /** `getTargetOrigin()`. */
    method GetTargetOrigin() returns (r: Result<string>)
      ensures r.Ok? <==> targetOrigin.Some?
      ensures r.Ok? ==> r.value == targetOrigin.value
      ensures r.Err? ==> r.message == "not connected"
    {
      if targetOrigin.None? {
        return Err("not connected");
      }
      return Ok(targetOrigin.value);
    }

    /** `sendCommand(cmd, payload, transfer)`: looks the target up, then
        picks the origin; either step may throw, and then nothing is posted. */
    method SendCommand(cmd: string, payload: Json, transfer: seq<Port>, callbackTarget: Option<WindowId>)
      returns (st: Status)
      modifies this`target, this`outbox
      ensures target == LookedUpTarget(onCommand, old(target), source, callbackTarget)
      ensures st.Done? <==> target.Some? && OutboundOrigin(cmd, targetOrigin).Some?
      ensures st.Done? ==>
                outbox == old(outbox) + [Post(target.value, cmd, OrNull(payload),
                                              OutboundOrigin(cmd, targetOrigin).value, transfer)]
      ensures st.Thrown? ==> outbox == old(outbox) && st.message == "not connected"
    {
      var t := GetTarget(callbackTarget);
      if t.Err? {
        return Thrown(t.message);
      }
      var origin: string;
      if cmd == "connect" {
        origin := if targetOrigin.Some? then targetOrigin.value else "*";
      } else {
        var o := GetTargetOrigin();
        if o.Err? {
          return Thrown(o.message);
        }
        origin := o.value;
      }
      outbox := outbox + [Post(t.value, cmd, OrNull(payload), origin, transfer)];
      return Done;
    }

    /** `customMessage(payload)`. */
    method CustomMessage(payload: Json, callbackTarget: Option<WindowId>) returns (st: Status)
      modifies this`target, this`outbox
      ensures target == LookedUpTarget(onCommand, old(target), source, callbackTarget)
      ensures st.Done? <==> target.Some? && targetOrigin.Some?
      ensures st.Done? ==>
                outbox == old(outbox) + [Post(target.value, "msg", OrNull(payload), targetOrigin.value, [])]
      ensures st.Thrown? ==> outbox == old(outbox)
    {
      st := SendCommand("msg", payload, [], callbackTarget);
    }

    /** `onCustomMessage(callback)`. */
    method OnCustomMessage()
      modifies this`onCustomMessage
      ensures onCustomMessage
    {
      onCustomMessage := true;
    }

    /** `getChannelObj_(name)`: the holder for `name`, created empty if absent. */
    method GetChannelObj(name: string) returns (h: Holder)
      modifies this`channels
      requires Valid()
      ensures Valid()
      ensures channels.Some? && name in channels.value
      ensures h == channels.value[name]
      ensures old(channels).Some? && name in old(channels).value ==> channels == old(channels)
      ensures !(old(channels).Some? && name in old(channels).value) ==>
                h == EmptyHolder &&
                channels.value == (if old(channels).Some? then old(channels).value else map[])[name := EmptyHolder]
    {
      if channels.None? {
        channels := Some(map[]);
      }
      if name !in channels.value {
        channels := Some(channels.value[name := EmptyHolder]);
      }
      return channels.value[name];
    }

    /** `startChannel(name)`: creates the channel once, resolves the promise
        with `port1` and sends `port2` in a `cnset` once. */
    method StartChannel(name: string, callbackTarget: Option<WindowId>) returns (st: Status)
      modifies this`channels, this`nextPort, this`target, this`outbox
      requires Valid()
      ensures Valid()
      ensures old(target).Some? ==> target == old(target)
      ensures channels.Some? && name in channels.value
      ensures forall n :: n != name && old(channels).Some? && n in old(channels).value ==>
                n in channels.value && channels.value[n] == old(channels).value[n]
      ensures var h := channels.value[name];
              h.port1.Some? && h.promise.ResolvedWith?
      ensures var old_h := OldHolder(old(channels), name);
              old_h.port1.Some? ==> channels.value[name].port1 == old_h.port1 && nextPort == old(nextPort)
      ensures var old_h := OldHolder(old(channels), name);
              old_h.port1.Some? && old_h.port2.None? ==> st == Done && outbox == old(outbox)
      ensures var h := channels.value[name];
              st.Done? ==> h.port2.None?
      ensures var old_h := OldHolder(old(channels), name);
              old_h.port1.None? ==>
                channels.value[name].port1 == Some(old(nextPort)) && nextPort == old(nextPort) + 2 &&
                (st.Done? ==> target.Some? && targetOrigin.Some? &&
                              outbox == old(outbox) + [Post(target.value, "cnset", NamePayload(name),
                                                            targetOrigin.value, [old(nextPort) + 1])])
      ensures st.Thrown? ==> outbox == old(outbox)
    {
      var h := GetChannelObj(name);
      if h.port1.None? {
        h := CreateChannel(name);
      }
      if h.port2.Some? {
        st := SendPort2(name, h, callbackTarget);
      } else {
        st := Done;
      }
    }

    /** Sends the waiting `port2` of `name` in a `cnset` and forgets it. */
    method SendPort2(name: string, h: Holder, callbackTarget: Option<WindowId>) returns (st: Status)
      modifies this`channels, this`target, this`outbox
      requires Valid() && channels.Some? && name in channels.value && channels.value[name] == h
      requires h.port1.Some? && h.port2.Some?
      ensures Valid()
      ensures old(target).Some? ==> target == old(target)
      ensures st.Done? ==>
                channels == Some(old(channels).value[name := h.(port2 := None)]) &&
                target.Some? && targetOrigin.Some? &&
                outbox == old(outbox) + [Post(target.value, "cnset", NamePayload(name), targetOrigin.value, [h.port2.value])]
      ensures st.Thrown? ==> channels == old(channels) && outbox == old(outbox)
    {
      st := SendCommand("cnset", NamePayload(name), [h.port2.value], callbackTarget);
      if st.Thrown? {
        return;
      }
      channels := Some(channels.value[name := h.(port2 := None)]);
    }

    /** A new `MessageChannel` for `name`: `port1` kept, its promise
        resolved, `port2` waiting to be sent. */
    method CreateChannel(name: string) returns (h: Holder)
      modifies this`channels, this`nextPort
      requires Valid() && channels.Some? && name in channels.value
      ensures Valid()
      ensures h == Holder(Some(old(nextPort)), Some(old(nextPort) + 1),
                          Resolve(old(channels).value[name].promise, Some(old(nextPort))))
      ensures channels == Some(old(channels).value[name := h])
      ensures nextPort == old(nextPort) + 2
    {
      var p1, p2 := nextPort, nextPort + 1;
      nextPort := nextPort + 2;
      h := Holder(Some(p1), Some(p2), Resolve(channels.value[name].promise, Some(p1)));
      channels := Some(channels.value[name := h]);
    }

    /** `askChannel(name)`: asks the peer for the channel while it has no `port1`. */
    method AskChannel(name: string, callbackTarget: Option<WindowId>) returns (st: Status)
      modifies this`channels, this`target, this`outbox
      requires Valid()
      ensures Valid()
      ensures old(target).Some? ==> target == old(target)
      ensures channels.Some? && name in channels.value
      ensures channels.value[name] == OldHolder(old(channels), name)
      ensures forall n :: n != name && old(channels).Some? && n in old(channels).value ==>
                n in channels.value && channels.value[n] == old(channels).value[n]
      ensures OldHolder(old(channels), name).port1.Some? ==> st == Done && outbox == old(outbox)
      ensures OldHolder(old(channels), name).port1.None? && st.Done? ==>
                target.Some? && targetOrigin.Some? &&
                outbox == old(outbox) + [Post(target.value, "cnget", NamePayload(name), targetOrigin.value, [])]
      ensures st.Thrown? ==> outbox == old(outbox)
    {
      var h := GetChannelObj(name);
      st := Done;
      if h.port1.None? {
        st := SendCommand("cnget", NamePayload(name), [], callbackTarget);
      }
    }

    /** `receiveChannel_(name, port)`: stores the port and resolves the promise. */
    method ReceiveChannel(name: string, port: Option<Port>)
      modifies this`channels
      requires Valid()
      ensures Valid()
      ensures channels.Some? && name in channels.value
      ensures var old_h := OldHolder(old(channels), name);
              channels.value[name] == old_h.(port1 := port, promise := Resolve(old_h.promise, port))
      ensures forall n :: n != name && old(channels).Some? && n in old(channels).value ==>
                n in channels.value && channels.value[n] == old(channels).value[n]
    {
      var h := GetChannelObj(name);
      channels := Some(channels.value[name := h.(port1 := port, promise := Resolve(h.promise, port))]);
    }

    /** `handleEvent_(event)`: an inbound message with its origin, its source
        window and the ports it transfers. The listener is registered only
        while connected. */
    method HandleEvent(data: Json, origin: string, eventSource: Option<WindowId>, ports: seq<Port>,
                       callbackTarget: Option<WindowId>) returns (d: Delivery)
      requires onCommand
      modifies this`targetOrigin, this`target, this`channels, this`nextPort, this`outbox
      requires Valid()
      ensures Valid()
      ensures old(target).Some? ==> target == old(target)
      ensures !HasSentinel(data) ==> d == Ignored && unchanged(this)
      ensures old(targetOrigin).Some? ==> targetOrigin == old(targetOrigin)
      ensures old(targetOrigin).None? && targetOrigin.Some? ==> targetOrigin == Some(origin)
      ensures HasSentinel(data) ==>
                targetOrigin == LearnOrigin(old(targetOrigin), CommandOf(data), origin,
                  eventSource.Some? && LookedUpTarget(onCommand, old(target), source, callbackTarget) == eventSource)
      ensures d != Ignored ==> HasSentinel(data) && targetOrigin == Some(origin)
      ensures HasSentinel(data) && targetOrigin != Some(origin) ==> d == Ignored
      ensures old(targetOrigin).Some? && old(targetOrigin) != Some(origin) ==> d == Ignored && unchanged(this)
      ensures d.Forward? ==> d.cmd == CommandOf(data) && !InternalCommand(d.cmd) &&
                             d.payload == GetOrNull(data, "payload") && outbox == old(outbox)
      ensures d.Custom? ==> CommandOf(data) == "msg" && onCustomMessage && d.payload != JNull
      ensures HasSentinel(data) && targetOrigin == Some(origin) && !InternalCommand(CommandOf(data)) ==>
                d == Forward(CommandOf(data), GetOrNull(data, "payload"))
    {
      if !HasSentinel(data) {
        return Ignored;
      }
      var cmd := CommandOf(data);
      var payload := GetOrNull(data, "payload");
      if targetOrigin.None? && cmd == "start" {
        targetOrigin := Some(origin);
      }
      if targetOrigin.None? && eventSource.Some? {
        var t := GetOptionalTarget(callbackTarget);
        if t == eventSource {
          targetOrigin := Some(origin);
        }
      }
      if targetOrigin != Some(origin) {
        return Ignored;
      }
      d := HandleCommand(cmd, payload, ports, callbackTarget);
    }

    /** `handleCommand_(cmd, payload, event)`. */
    method HandleCommand(cmd: string, payload: Json, ports: seq<Port>, callbackTarget: Option<WindowId>)
      returns (d: Delivery)
      modifies this`channels, this`nextPort, this`target, this`outbox
      requires Valid()
      ensures Valid()
      ensures old(target).Some? ==> target == old(target)
      ensures d != Ignored
      ensures !InternalCommand(cmd) ==> d == Forward(cmd, payload) && unchanged(this)
      ensures cmd == "msg" ==> unchanged(this) &&
                               d == (if onCustomMessage && payload != JNull then Custom(payload) else Handled)
      ensures (cmd == "cnget" || cmd == "cnset") && payload == JNull ==> d.Failed? && unchanged(this)
      ensures cmd == "cnset" && payload != JNull ==>
                d == Handled && outbox == old(outbox) && channels.Some? &&
                var name := ReceiveName(Get(payload, "name"));
                name in channels.value &&
                channels.value[name].port1 == (if |ports| > 0 then Some(ports[0]) else None)
      ensures cmd == "cnget" && payload != JNull ==>
                (d == Handled || d.Failed?) && channels.Some? &&
                var name := StartName(Get(payload, "name"));
                name in channels.value && channels.value[name].port1.Some?
    {
      if cmd == "msg" {
        if onCustomMessage && payload != JNull {
          return Custom(payload);
        }
        return Handled;
      } else if cmd == "cnget" {
        if payload == JNull {
          return Failed("TypeError: payload is null");
        }
        var st := StartChannel(StartName(Get(payload, "name")), callbackTarget);
        if st.Thrown? {
          return Failed(st.message);
        }
        return Handled;
      } else if cmd == "cnset" {
        if payload == JNull {
          return Failed("TypeError: payload is null");
        }
        ReceiveChannel(ReceiveName(Get(payload, "name")), if |ports| > 0 then Some(ports[0]) else None);
        return Handled;
      }
      return Forward(cmd, payload);
    }
  }

  /** The holder a name had before a call (an absent one reads as empty). */
  function OldHolder(channels: Option<map<string, Holder>>, name: string): Holder
  {
    if channels.Some? && name in channels.value then channels.value[name] else EmptyHolder
  }
}
