/**
 * The browser push-channel client (`WebSocketService`): connection lifecycle
 * with three readiness flags, exponential reconnect backoff capped at five
 * attempts, a type+timestamp de-duplication cache, room-subscription
 * bookkeeping with a fallback timer, a listener registry and the message
 * router.
 *
 * The socket is a ready-state slot plus an outbox of the frames the client
 * hands to it; listener invocations are recorded in `calls`. Browser events
 * (open, close, error, an arriving message) and timer expiries are methods
 * the environment calls; a timer that the source never cancels sits in
 * `timers` until fired, the two timers with handles are fields of their own.
 */
module WebSocketClient {
  import Basics
  import opened JsValues

  function Type(m: JsValue): JsValue {
    Prop(m, "type")
  }

  // ---------------------------------------------------------------- constants

  const MaxReconnectAttempts: nat := 5
  const ReconnectInterval: nat := 3000
  const CacheTimeout: nat := 5000
  const AuthDelay: nat := 100
  const SubscriptionTimeoutDelay: nat := 3000
  const ManualReconnectDelay: nat := 1000
  /** Close code 1000: normal closure (section 7.4.1 of RFC 6455). */
  const NormalClosure: int := 1000
  const TargetRooms: seq<string> := ["dashboard", "alerts", "urgent_alerts", "device_monitoring"]

  /** `getWebSocketUrl`: the page's protocol picks ws or wss; the port is fixed. */
  function WebSocketUrl(pageProtocol: string, hostname: string): (url: string)
    ensures Basics.StartsWith(url, if pageProtocol == "https:" then "wss://" else "ws://")
    ensures |url| > 16 && url[|url| - 16..] == ":9099/ws/redfish"
  {
    (if pageProtocol == "https:" then "wss:" else "ws:") + "//" + hostname + ":9099/ws/redfish"
  }

  function Pow2(k: nat): (r: nat)
    ensures r >= 1
  {
    if k == 0 then 1 else 2 * Pow2(k - 1)
  }

  /** The delay armed by a reconnect scheduled after `attempts` earlier ones. */
  function ReconnectDelay(attempts: nat): nat {
    ReconnectInterval * Pow2(attempts)
  }

  /** Each further attempt waits twice as long as the one before. */
  lemma DelayDoubles(attempts: nat)
    ensures ReconnectDelay(attempts + 1) == 2 * ReconnectDelay(attempts)
  {
    assert Pow2(attempts + 1) == 2 * Pow2(attempts);
  }

  /** The five delays before the cap: 3, 6, 12, 24 and 48 seconds. */
  lemma BackoffSchedule()
    ensures ReconnectDelay(0) == 3000 && ReconnectDelay(1) == 6000 && ReconnectDelay(2) == 12000
    ensures ReconnectDelay(3) == 24000 && ReconnectDelay(4) == 48000
  {
    DelayDoubles(0);
    DelayDoubles(1);
    DelayDoubles(2);
    DelayDoubles(3);
  }

  // ---------------------------------------------------------------- frames, timers, calls

  datatype ReadyState = Connecting | Open | Closing | Closed
  /** `this.ws`: no socket, or one in the given ready state. */
  datatype Socket = NoSocket | Socket(state: ReadyState)

  /** A frame handed to the socket: a serialised message, or a close request. */
  datatype Frame = Message(payload: JsValue) | CloseRequest(code: int)

  /** What a timer that the source never cancels does when it fires. */
  datatype Job = MarkAuthenticated | ForceSubscribed | ManualConnect | ExpireKey(key: string)
  datatype Timer = Timer(job: Job, delay: nat)

  type Callback = nat
  /** A listener invocation: which callback, for which event, with which data. */
  datatype Call = Call(callback: Callback, event: string, data: JsValue)

  datatype ConnectionState = ConnectionState(connected: bool, authenticated: bool, roomsSubscribed: bool)

  predicate AllSet(cs: ConnectionState) {
    cs.connected && cs.authenticated && cs.roomsSubscribed
  }

  const Ping: JsValue := JObj(map["type" := JStr("ping")])

  function JoinRoom(room: string): JsValue {
    JObj(map["type" := JStr("join_room"), "room" := JStr(room)])
  }

  /** The join requests for `rooms`, in order. */
  function JoinFrames(rooms: seq<string>): (r: seq<Frame>)
    ensures |r| == |rooms|
    ensures forall i :: 0 <= i < |rooms| ==> r[i] == Message(JoinRoom(rooms[i]))
  {
    if rooms == [] then [] else JoinFrames(rooms[..|rooms| - 1]) + [Message(JoinRoom(rooms[|rooms| - 1]))]
  }

  /** One invocation per registered callback, in registration order. */
  function CallsTo(cbs: seq<Callback>, event: string, data: JsValue): (r: seq<Call>)
    ensures |r| == |cbs|
    ensures forall i :: 0 <= i < |cbs| ==> r[i] == Call(cbs[i], event, data)
  {
    if cbs == [] then [] else CallsTo(cbs[..|cbs| - 1], event, data) + [Call(cbs[|cbs| - 1], event, data)]
  }

  /** `Array.prototype.indexOf`: the first position of `cb`, or -1. */
  function IndexOf(cbs: seq<Callback>, cb: Callback): (r: int)
    ensures -1 <= r < |cbs|
    ensures r == -1 <==> cb !in cbs
    ensures r >= 0 ==> cbs[r] == cb && cb !in cbs[..r]
  {
    if cbs == [] then -1
    else if cbs[0] == cb then 0
    else
      var k := IndexOf(cbs[1..], cb);
      assert cbs[1..][..(if k >= 0 then k else 0)] == cbs[1..(if k >= 0 then k else 0) + 1];
      if k == -1 then -1 else k + 1
  }

  /** `off`'s effect on one listener array: the first identical callback is spliced out. */
  function RemoveFirst(cbs: seq<Callback>, cb: Callback): (r: seq<Callback>)
    ensures cb !in cbs ==> r == cbs
    ensures cb in cbs ==> |r| == |cbs| - 1 && multiset(r) == multiset(cbs) - multiset{cb}
    ensures cb in cbs ==> exists i :: 0 <= i < |cbs| && cbs[i] == cb && cb !in cbs[..i] && r == cbs[..i] + cbs[i + 1..]
  {
    var i := IndexOf(cbs, cb);
    if i > -1 then
      assert cbs == cbs[..i] + [cbs[i]] + cbs[i + 1..];
      cbs[..i] + cbs[i + 1..]
    else cbs
  }

  // ---------------------------------------------------------------- payloads

  const ConnectedPayload: JsValue :=
    JObj(map["status" := JStr("connected"), "is_connected" := JBool(true), "is_ready" := JBool(false)])
  const DisconnectedPayload: JsValue :=
    JObj(map["status" := JStr("disconnected"), "is_connected" := JBool(false), "is_ready" := JBool(false)])
  const ClosedReason: JsValue := JObj(map["reason" := JStr("connection_closed")])

  function ErrorPayload(error: JsValue): JsValue {
    JObj(map["status" := JStr("error"), "error" := error, "is_connected" := JBool(false), "is_ready" := JBool(false)])
  }

  function ErrorReason(error: JsValue): JsValue {
    JObj(map["reason" := JStr("connection_error"), "error" := error])
  }

  /** The `ready` payload with a copy of the connection state. */
  function ReadyPayload(cs: ConnectionState): JsValue {
    JObj(map["status" := JStr("ready"), "is_connected" := JBool(true), "is_ready" := JBool(true),
             "connectionState" := JObj(map["connected" := JBool(cs.connected),
                                           "authenticated" := JBool(cs.authenticated),
                                           "roomsSubscribed" := JBool(cs.roomsSubscribed)])])
  }

  // ---------------------------------------------------------------- de-duplication and routing

  /** The four message types that are de-duplicated on type and timestamp. */
  predicate Deduplicated(t: JsValue) {
    t == JStr("monitoring_started") || t == JStr("monitoring_completed") ||
    t == JStr("monitor_task") || t == JStr("new_notice")
  }

  /** `${message.type}_${message.timestamp}` for a de-duplicated type, nothing otherwise. */
  function DedupKey(m: JsValue): (r: Basics.Option<string>)
    ensures r.Some? <==> Deduplicated(Type(m))
    ensures r.Some? ==> r.value == Type(m).s + "_" + Text(Prop(m, "timestamp"))
  {
    if Deduplicated(Type(m)) then Basics.Some(Type(m).s + "_" + Text(Prop(m, "timestamp"))) else Basics.None
  }

  /** Messages of two different de-duplicated types never share a cache key. */
  lemma KeysSeparateTypes(m1: JsValue, m2: JsValue)
    requires Deduplicated(Type(m1)) && Deduplicated(Type(m2)) && Type(m1) != Type(m2)
    ensures DedupKey(m1) != DedupKey(m2)
  {
    TaggedKeysDiffer(Type(m1).s, Type(m2).s, Text(Prop(m1, "timestamp")), Text(Prop(m2, "timestamp")));
  }

  /** Two different type names of the de-duplicated four, each followed by `_`, start two different keys. */
  lemma TaggedKeysDiffer(t1: string, t2: string, x1: string, x2: string)
    requires Deduplicated(JStr(t1)) && Deduplicated(JStr(t2)) && t1 != t2
    ensures t1 + "_" + x1 != t2 + "_" + x2
  {
    var k1, k2 := t1 + "_" + x1, t2 + "_" + x2;
    assert k1[..|t1| + 1] == t1 + "_" && k2[..|t2| + 1] == t2 + "_";
    if t1 == "new_notice" || t2 == "new_notice" {
      assert k1[0] != k2[0];
    } else if t1 == "monitor_task" || t2 == "monitor_task" {
      assert k1[7] != k2[7];
    } else {
      assert k1[11] != k2[11];
    }
  }

  /** An event handed to `emitEvent`. */
  datatype Emission = Emission(event: string, data: JsValue)

  /**
   * `handleMessage` for every type but 'room' (whose room bookkeeping is
   * state), as the emission it makes: nothing when the handler emits nothing
   * or throws (null or undefined message, manual result without data).
   */
  function Routed(m: JsValue): Basics.Option<Emission> {
    if m == JNull || m == JUndefined then Basics.None
    else
      var t := Type(m);
      if !t.JStr? then Basics.Some(Emission("message", m))
      else match t.s
        case "new_alert" => Basics.Some(Emission("new_alert", Or(Prop(m, "alert"), m)))
        case "device_status_change" => Basics.Some(Emission("device_status_change", m))
        case "monitoring_started" => Basics.Some(Emission("monitoring_started", m))
        case "monitoring_completed" => Basics.Some(Emission("monitoring_completed", m))
        case "dashboard_update" => Basics.Some(Emission("dashboard_update", m))
        case "health_status_silent_update" =>
          var data := Prop(m, "data");
          if Truthy(data) && Truthy(Prop(data, "device_id")) then
            Basics.Some(Emission("health_status_silent_update", SilentUpdate(data)))
          else Basics.None
        case "urgent_alert_notification" => Basics.Some(Emission("urgent_alert", Or(Prop(m, "alert"), m)))
        case "system_notification" => Basics.Some(Emission("system_notification", m))
        case "monitoring_progress" => Basics.Some(Emission("monitoring_progress", m))
        case "new_notice" => Basics.Some(Emission("new_notice", m))
        case "connection" => Basics.Some(Emission("connection_message", m))
        case "room" => Basics.Some(Emission("room_message", m))
        case "initial_status" => Basics.Some(Emission("initial_status", Prop(m, "data")))
        case "monitor_task" => Basics.Some(Emission("monitor_task", m))
        case "manual_monitor_result" =>
          var data := Prop(m, "data");
          if data == JNull || data == JUndefined then Basics.None
          else Basics.Some(Emission("manual_monitor_result", data))
        case "urgency_recalculation_completed" => Basics.Some(Emission("urgency_recalculation_completed", m))
        case "alert_statistics_update" => Basics.Some(Emission("alert_statistics_update", Or(Prop(m, "statistics"), m)))
        case "device_health_summary" => Basics.Some(Emission("device_health_summary", Or(Prop(m, "devices"), m)))
        case "dashboard_statistics" => Basics.Some(Emission("dashboard_statistics", Or(Prop(m, "statistics"), m)))
        case "monitoring_task_status" => Basics.Some(Emission("monitoring_task_status", m))
        case _ => Basics.Some(Emission("message", m))
  }

  function SilentUpdate(data: JsValue): JsValue {
    JObj(map["device_id" := Prop(data, "device_id"), "hostname" := Prop(data, "hostname"),
             "old_health_status" := Prop(data, "old_health_status"),
             "new_health_status" := Prop(data, "new_health_status"), "silent" := JBool(true)])
  }

  /** The message types the router knows, in the order of its switch. */
  const RoutedTypes: set<string> := {
    "new_alert", "device_status_change", "monitoring_started", "monitoring_completed",
    "dashboard_update", "health_status_silent_update", "urgent_alert_notification",
    "system_notification", "monitoring_progress", "new_notice", "connection", "room",
    "initial_status", "monitor_task", "manual_monitor_result", "urgency_recalculation_completed",
    "alert_statistics_update", "device_health_summary", "dashboard_statistics", "monitoring_task_status"}

  /** The event a known type is re-emitted under: its own name, except two renamings. */
  function EventName(t: string): string {
    if t == "urgent_alert_notification" then "urgent_alert"
    else if t == "connection" then "connection_message"
    else if t == "room" then "room_message"
    else t
  }

  /** Every known type is re-emitted under its event name. */
  lemma KnownTypesKeepTheirName(m: JsValue)
    requires m != JNull && m != JUndefined
    requires Type(m).JStr? && Type(m).s in RoutedTypes && Routed(m).Some?
    ensures Routed(m).value.event == EventName(Type(m).s)
  {
  }

  /** A message whose type the router does not know goes out whole as 'message'. */
  lemma UnknownTypesGoOutWhole(m: JsValue)
    requires m != JNull && m != JUndefined
    requires !(Type(m).JStr? && Type(m).s in RoutedTypes)
    ensures Routed(m) == Basics.Some(Emission("message", m))
  {
  }

  /** Only the silent health update and the manual monitor result can emit nothing. */
  lemma RouterAlwaysEmits(m: JsValue)
    requires m != JNull && m != JUndefined
    requires Type(m) != JStr("health_status_silent_update") && Type(m) != JStr("manual_monitor_result")
    ensures Routed(m).Some?
  {
  }

  /** A silent update needs a truthy `data.device_id` and carries `silent: true`. */
  lemma SilentUpdateRule(m: JsValue)
    requires m != JNull && m != JUndefined && Type(m) == JStr("health_status_silent_update")
    ensures Routed(m).Some? <==> Truthy(Prop(m, "data")) && Truthy(Prop(Prop(m, "data"), "device_id"))
    ensures Routed(m).Some? ==> Prop(Routed(m).value.data, "silent") == JBool(true)
  {
  }

  // ---------------------------------------------------------------- the service

  class WebSocketService {
    var socket: Socket
    /** The pending reconnect timer's delay, if one is armed. */
    var reconnectTimer: Basics.Option<nat>
    var reconnectAttempts: nat
    var listeners: map<string, seq<Callback>>
    var isConnecting: bool
    var shouldReconnect: bool
    /** Keys of de-duplicated messages still within their five seconds. */
    var messageCache: set<string>
    var connectionState: ConnectionState
    var joinedRooms: set<JsValue>
    /** Whether the three-second subscription fallback is armed. */
    var subscriptionTimeout: bool
    /** Timers without a handle, in the order they were armed. */
    var timers: seq<Timer>
    var outbox: seq<Frame>
    var calls: seq<Call>

    /** The reconnect counter never exceeds the cap. */
    ghost predicate Valid()
      reads this`reconnectAttempts
    {
      reconnectAttempts <= MaxReconnectAttempts
    }

    function Listeners(event: string): seq<Callback>
      reads this`listeners
    {
      if event in listeners then listeners[event] else []
    }

    /** What `emitEvent(event, data)` adds to the call log. */
    function Deliveries(event: string, data: JsValue): seq<Call>
      reads this`listeners
    {
      CallsTo(Listeners(event), event, data)
    }

    /** What `checkReadyState` adds to the call log in the current state. */
    function ReadyCalls(): seq<Call>
      reads this`connectionState, this`listeners
    {
      if AllSet(connectionState) then Deliveries("ready", ReadyPayload(connectionState)) else []
    }

    /** `isConnected`. */
    predicate IsConnected()
      reads this`socket
    {
      socket == Socket(Open)
    }

    /** `isReady`: the three flags and an open socket. */
    predicate IsReady()
      reads this`connectionState, this`socket
    {
      AllSet(connectionState) && IsConnected()
    }

    /** `getReadyState`: the socket's ready-state number, CLOSED (3) without a socket. */
    function GetReadyState(): (r: nat)
      reads this`socket
      ensures r <= 3
      ensures r == 1 <==> IsConnected()
    {
      match socket
      case NoSocket => 3
      case Socket(s) => match s
        case Connecting => 0
        case Open => 1
        case Closing => 2
        case Closed => 3
    }

    constructor ()
      ensures Valid()
      ensures socket == NoSocket && reconnectTimer == Basics.None && reconnectAttempts == 0
      ensures listeners == map[] && !isConnecting && shouldReconnect && messageCache == {}
      ensures connectionState == ConnectionState(false, false, false) && joinedRooms == {}
      ensures !subscriptionTimeout && timers == [] && outbox == [] && calls == []
    {
      socket := NoSocket;
      reconnectTimer := Basics.None;
      reconnectAttempts := 0;
      listeners := map[];
      isConnecting := false;
      shouldReconnect := true;
      messageCache := {};
      connectionState := ConnectionState(false, false, false);
      joinedRooms := {};
      subscriptionTimeout := false;
      timers := [];
      outbox := [];
      calls := [];
    }

    // ------------------------------------------------------------ listeners

    /** `on`: the callback is appended to the event's array, created if missing. */
    method On(event: string, callback: Callback)
      modifies this`listeners
      ensures listeners == old(listeners)[event := old(Listeners(event)) + [callback]]
    {
      listeners := listeners[event := Listeners(event) + [callback]];
    }

    /** `off`: the first identical callback is removed; an unknown event or callback changes nothing. */
    method Off(event: string, callback: Callback)
      modifies this`listeners
      ensures event !in old(listeners) ==> listeners == old(listeners)
      ensures event in old(listeners) ==> listeners == old(listeners)[event := RemoveFirst(old(listeners)[event], callback)]
      ensures callback !in old(Listeners(event)) ==> listeners == old(listeners)
    {
      if event in listeners {
        var callbacks := listeners[event];
        var index := IndexOf(callbacks, callback);
        if index > -1 {
          listeners := listeners[event := RemoveFirst(callbacks, callback)];
        }
      }
    }

    /**
     * `emitEvent`: every callback registered for the event is invoked in
     * registration order; a callback that throws is caught and the rest
     * still run, so each one appears in the log.
     */
    method EmitEvent(event: string, data: JsValue)
      modifies this`calls
      ensures calls == old(calls) + Deliveries(event, data)
    {
      if event in listeners {
        var callbacks := listeners[event];
        var i := 0;
        while i < |callbacks|
          invariant 0 <= i <= |callbacks|
          invariant calls == old(calls) + CallsTo(callbacks[..i], event, data)
        {
          assert callbacks[..i + 1][..i] == callbacks[..i];
          calls := calls + [Call(callbacks[i], event, data)];
          i := i + 1;
        }
        assert callbacks[..i] == callbacks;
      }
    }

    // ------------------------------------------------------------ sending and readiness

    /** `send`: only an open socket takes the message. */
    method Send(message: JsValue) returns (ok: bool)
      modifies this`outbox
      ensures ok == IsConnected()
      ensures outbox == old(outbox) + (if ok then [Message(message)] else [])
    {
      ok := socket == Socket(Open);
      if ok {
        outbox := outbox + [Message(message)];
      }
    }

    /** `checkReadyState`: 'ready' goes out exactly when all three flags are set, each time it is called. */
    method CheckReadyState()
      modifies this`calls
      ensures calls == old(calls) + old(ReadyCalls())
    {
      if AllSet(connectionState) {
        EmitEvent("ready", ReadyPayload(connectionState));
      }
    }

    /**
     * `ws.close(code)` on the current socket: a connecting or open socket
     * starts closing, and only an open one sends the close frame (a
     * connecting one abandons its handshake).
     */
    method RequestClose(code: int)
      modifies this`socket, this`outbox
      ensures old(socket) in {Socket(Connecting), Socket(Open)} ==> socket == Socket(Closing)
      ensures old(socket) !in {Socket(Connecting), Socket(Open)} ==> socket == old(socket)
      ensures outbox == old(outbox) + (if old(socket) == Socket(Open) then [CloseRequest(code)] else [])
    {
      if socket == Socket(Open) {
        outbox := outbox + [CloseRequest(code)];
      }
      if socket == Socket(Connecting) || socket == Socket(Open) {
        socket := Socket(Closing);
      }
    }

    // ------------------------------------------------------------ reconnecting

    /**
     * `scheduleReconnect`: below the cap one timer is armed with delay
     * 3000·2^attempts (replacing any earlier one) and the counter goes up by
     * one; at the cap nothing changes.
     */
    method ScheduleReconnect()
      requires Valid()
      modifies this`reconnectTimer, this`reconnectAttempts
      ensures Valid()
      ensures old(reconnectAttempts) >= MaxReconnectAttempts ==>
                reconnectAttempts == old(reconnectAttempts) && reconnectTimer == old(reconnectTimer)
      ensures old(reconnectAttempts) < MaxReconnectAttempts ==>
                reconnectAttempts == old(reconnectAttempts) + 1 &&
                reconnectTimer == Basics.Some(ReconnectDelay(old(reconnectAttempts)))
    {
      if reconnectAttempts >= MaxReconnectAttempts {
        return;
      }
      var delay := ReconnectDelay(reconnectAttempts);
      reconnectTimer := Basics.Some(delay);
      reconnectAttempts := reconnectAttempts + 1;
    }

    /**
     * `connect`: a no-op while connecting or open; otherwise a new socket
     * starts connecting, or, when creating it throws, a reconnect is
     * scheduled.
     */
    method Connect(creationFails: bool)
      requires Valid()
      modifies this`isConnecting, this`socket, this`reconnectTimer, this`reconnectAttempts
      ensures Valid()
      ensures old(isConnecting) || old(IsConnected()) ==>
                isConnecting == old(isConnecting) && socket == old(socket) &&
                reconnectAttempts == old(reconnectAttempts) && reconnectTimer == old(reconnectTimer)
      ensures !old(isConnecting) && !old(IsConnected()) && !creationFails ==>
                isConnecting && socket == Socket(Connecting) &&
                reconnectAttempts == old(reconnectAttempts) && reconnectTimer == old(reconnectTimer)
      ensures !old(isConnecting) && !old(IsConnected()) && creationFails ==>
                !isConnecting && socket == old(socket)
      ensures !old(isConnecting) && !old(IsConnected()) && creationFails && old(reconnectAttempts) < MaxReconnectAttempts ==>
                reconnectAttempts == old(reconnectAttempts) + 1 &&
                reconnectTimer == Basics.Some(ReconnectDelay(old(reconnectAttempts)))
      ensures !old(isConnecting) && !old(IsConnected()) && creationFails && old(reconnectAttempts) >= MaxReconnectAttempts ==>
                reconnectAttempts == old(reconnectAttempts) && reconnectTimer == old(reconnectTimer)
    {
      if isConnecting || IsConnected() {
        return;
      }
      isConnecting := true;
      if creationFails {
        isConnecting := false;
        ScheduleReconnect();
      } else {
        socket := Socket(Connecting);
      }
    }

    /**
     * `manualReconnect`: the counter is reset, reconnecting re-enabled, the
     * socket closed with 1000, the reconnect timer cleared and a connect
     * armed for one second later.
     */
    method ManualReconnect()
      modifies this`reconnectAttempts, this`shouldReconnect, this`socket, this`outbox, this`reconnectTimer, this`timers
      ensures reconnectAttempts == 0 && shouldReconnect && reconnectTimer == Basics.None
      ensures Valid()
      ensures old(socket) in {Socket(Connecting), Socket(Open)} ==> socket == Socket(Closing)
      ensures old(socket) !in {Socket(Connecting), Socket(Open)} ==> socket == old(socket)
      ensures outbox == old(outbox) + (if old(socket) == Socket(Open) then [CloseRequest(NormalClosure)] else [])
      ensures timers == old(timers) + [Timer(ManualConnect, ManualReconnectDelay)]
    {
      reconnectAttempts := 0;
      shouldReconnect := true;
      if socket.Socket? {
        RequestClose(NormalClosure);
      }
      reconnectTimer := Basics.None;
      timers := timers + [Timer(ManualConnect, ManualReconnectDelay)];
    }

    /** `disconnect`: reconnecting is disabled, the timer cleared, the socket closed with 1000 and dropped. */
    method Disconnect()
      modifies this`shouldReconnect, this`reconnectTimer, this`socket, this`outbox
      ensures !shouldReconnect && reconnectTimer == Basics.None && socket == NoSocket
      ensures outbox == old(outbox) + (if old(socket) == Socket(Open) then [CloseRequest(NormalClosure)] else [])
    {
      shouldReconnect := false;
      reconnectTimer := Basics.None;
      if socket.Socket? {
        RequestClose(NormalClosure);
        socket := NoSocket;
      }
    }

    // ------------------------------------------------------------ handshake

    /**
     * `authenticate`: with a token a ping is sent and, if it went out, a
     * 100 ms timer will set `authenticated`; without a token, or when the
     * ping could not be sent, `authenticated` is set at once. Either way
     * `checkReadyState` runs once the flag is set.
     */
    method Authenticate(hasToken: bool)
      modifies this`outbox, this`timers, this`connectionState, this`calls
      ensures hasToken && old(IsConnected()) ==>
                outbox == old(outbox) + [Message(Ping)] &&
                timers == old(timers) + [Timer(MarkAuthenticated, AuthDelay)] &&
                connectionState == old(connectionState) && calls == old(calls)
      ensures !(hasToken && old(IsConnected())) ==>
                outbox == old(outbox) && timers == old(timers) &&
                connectionState == old(connectionState).(authenticated := true) &&
                calls == old(calls) + ReadyCalls()
    {
      if hasToken {
        var authResult := Send(Ping);
        if authResult {
          timers := timers + [Timer(MarkAuthenticated, AuthDelay)];
        } else {
          connectionState := connectionState.(authenticated := true);
          CheckReadyState();
        }
      } else {
        connectionState := connectionState.(authenticated := true);
        CheckReadyState();
      }
    }

    /**
     * `subscribeToRooms`: the joined set and the flag are reset, one
     * join_room per target room is sent, the three-second fallback is
     * (re-)armed, and when no request went out a 100 ms timer will force the
     * flag.
     */
    method SubscribeToRooms()
      modifies this`joinedRooms, this`connectionState, this`subscriptionTimeout, this`outbox, this`timers
      ensures joinedRooms == {} && subscriptionTimeout
      ensures connectionState == old(connectionState).(roomsSubscribed := false)
      ensures outbox == old(outbox) + (if old(IsConnected()) then JoinFrames(TargetRooms) else [])
      ensures timers == old(timers) + (if old(IsConnected()) then [] else [Timer(ForceSubscribed, AuthDelay)])
    {
      joinedRooms := {};
      connectionState := connectionState.(roomsSubscribed := false);
      subscriptionTimeout := false;
      var subscribedCount := 0;
      var i := 0;
      while i < |TargetRooms|
        invariant 0 <= i <= |TargetRooms|
        invariant socket == old(socket)
        invariant outbox == old(outbox) + (if IsConnected() then JoinFrames(TargetRooms[..i]) else [])
        invariant subscribedCount == if IsConnected() then i else 0
        invariant joinedRooms == {} && !subscriptionTimeout && timers == old(timers)
        invariant connectionState == old(connectionState).(roomsSubscribed := false)
      {
        assert TargetRooms[..i + 1][..i] == TargetRooms[..i];
        var result := Send(JoinRoom(TargetRooms[i]));
        if result {
          subscribedCount := subscribedCount + 1;
        }
        i := i + 1;
      }
      assert TargetRooms[..i] == TargetRooms;
      subscriptionTimeout := true;
      if subscribedCount == 0 {
        timers := timers + [Timer(ForceSubscribed, AuthDelay)];
      }
    }

    // ------------------------------------------------------------ socket events

    /**
     * The socket's open event (`onOpen`): the counter is reset, `connected`
     * set and the other two flags cleared before authenticating and
     * subscribing; then 'connection' goes out. Without a socket the handler
     * throws on its first line and nothing changes.
     */
    method OnOpen(hasToken: bool)
      requires Valid()
      modifies this`socket, this`isConnecting, this`reconnectAttempts, this`connectionState
      modifies this`outbox, this`timers, this`calls, this`joinedRooms, this`subscriptionTimeout
      ensures Valid()
      ensures old(socket) == NoSocket ==>
                socket == old(socket) && isConnecting == old(isConnecting) && reconnectAttempts == old(reconnectAttempts) &&
                connectionState == old(connectionState) && joinedRooms == old(joinedRooms) &&
                subscriptionTimeout == old(subscriptionTimeout) && outbox == old(outbox) && timers == old(timers) && calls == old(calls)
      ensures old(socket) != NoSocket ==>
                socket == Socket(Open) && !isConnecting && reconnectAttempts == 0 &&
                connectionState == ConnectionState(true, !hasToken, false) &&
                joinedRooms == {} && subscriptionTimeout
      ensures old(socket) != NoSocket ==>
                outbox == old(outbox) + (if hasToken then [Message(Ping)] else []) + JoinFrames(TargetRooms)
      ensures old(socket) != NoSocket ==>
                timers == old(timers) + (if hasToken then [Timer(MarkAuthenticated, AuthDelay)] else [])
      ensures old(socket) != NoSocket ==> calls == old(calls) + old(Deliveries("connection", ConnectedPayload))
      ensures reconnectTimer == old(reconnectTimer) && listeners == old(listeners)
      ensures shouldReconnect == old(shouldReconnect) && messageCache == old(messageCache)
    {
      if socket == NoSocket {
        return;
      }
      Opened(hasToken);
    }

    /** `onOpen` once its first line has found a socket. */
    method Opened(hasToken: bool)
      modifies this`socket, this`isConnecting, this`reconnectAttempts, this`connectionState
      modifies this`outbox, this`timers, this`calls, this`joinedRooms, this`subscriptionTimeout
      ensures socket == Socket(Open) && !isConnecting && reconnectAttempts == 0
      ensures connectionState == ConnectionState(true, !hasToken, false) && joinedRooms == {} && subscriptionTimeout
      ensures outbox == old(outbox) + (if hasToken then [Message(Ping)] else []) + JoinFrames(TargetRooms)
      ensures timers == old(timers) + (if hasToken then [Timer(MarkAuthenticated, AuthDelay)] else [])
      ensures calls == old(calls) + old(Deliveries("connection", ConnectedPayload))
    {
      socket := Socket(Open);
      isConnecting := false;
      reconnectAttempts := 0;
      connectionState := ConnectionState(true, false, false);
      AuthenticateAndSubscribe(hasToken);
      EmitEvent("connection", ConnectedPayload);
    }

    /** The two handshake steps of `onOpen` on a socket that has just opened. */
    method AuthenticateAndSubscribe(hasToken: bool)
      requires IsConnected() && connectionState == ConnectionState(true, false, false)
      modifies this`outbox, this`timers, this`connectionState, this`calls, this`joinedRooms, this`subscriptionTimeout
      ensures connectionState == ConnectionState(true, !hasToken, false)
      ensures joinedRooms == {} && subscriptionTimeout && calls == old(calls)
      ensures outbox == old(outbox) + (if hasToken then [Message(Ping)] else []) + JoinFrames(TargetRooms)
      ensures timers == old(timers) + (if hasToken then [Timer(MarkAuthenticated, AuthDelay)] else [])
    {
      assert !AllSet(connectionState.(authenticated := true));
      Authenticate(hasToken);
      ghost var sent := outbox;
      SubscribeToRooms();
      assert outbox == sent + JoinFrames(TargetRooms);
    }

    /** The connection-state reset shared by `onClose` and `onError`. */
    method ResetConnection()
      modifies this`isConnecting, this`connectionState, this`joinedRooms, this`subscriptionTimeout
      ensures !isConnecting && connectionState == ConnectionState(false, false, false)
      ensures joinedRooms == {} && !subscriptionTimeout
    {
      isConnecting := false;
      connectionState := ConnectionState(false, false, false);
      joinedRooms := {};
      subscriptionTimeout := false;
    }

    /**
     * The socket's close event (`onClose`): all flags cleared, rooms
     * forgotten, the fallback cancelled, 'connection' and 'not_ready' sent,
     * and a reconnect scheduled only when reconnecting is enabled and the
     * code is not 1000.
     */
    method OnClose(code: int)
      requires Valid()
      modifies this`socket, this`isConnecting, this`connectionState, this`joinedRooms, this`subscriptionTimeout
      modifies this`calls, this`reconnectTimer, this`reconnectAttempts
      ensures Valid()
      ensures socket == (if old(socket) == NoSocket then NoSocket else Socket(Closed))
      ensures !isConnecting && connectionState == ConnectionState(false, false, false)
      ensures joinedRooms == {} && !subscriptionTimeout
      ensures calls == old(calls) + old(Deliveries("connection", DisconnectedPayload)) + old(Deliveries("not_ready", ClosedReason))
      ensures old(shouldReconnect) && code != NormalClosure && old(reconnectAttempts) < MaxReconnectAttempts ==>
                reconnectAttempts == old(reconnectAttempts) + 1 &&
                reconnectTimer == Basics.Some(ReconnectDelay(old(reconnectAttempts)))
      ensures !(old(shouldReconnect) && code != NormalClosure && old(reconnectAttempts) < MaxReconnectAttempts) ==>
                reconnectAttempts == old(reconnectAttempts) && reconnectTimer == old(reconnectTimer)
    {
      if socket != NoSocket {
        socket := Socket(Closed);
      }
      ResetConnection();
      EmitEvent("connection", DisconnectedPayload);
      EmitEvent("not_ready", ClosedReason);
      if shouldReconnect && code != NormalClosure {
        ScheduleReconnect();
      }
    }

    /** The socket's error event (`onError`): the same reset and notifications as a close, never a reconnect. */
    method OnError(error: JsValue)
      modifies this`isConnecting, this`connectionState, this`joinedRooms, this`subscriptionTimeout, this`calls
      ensures !isConnecting && connectionState == ConnectionState(false, false, false)
      ensures joinedRooms == {} && !subscriptionTimeout
      ensures calls == old(calls) + old(Deliveries("connection", ErrorPayload(error))) + old(Deliveries("not_ready", ErrorReason(error)))
    {
      ResetConnection();
      EmitEvent("connection", ErrorPayload(error));
      EmitEvent("not_ready", ErrorReason(error));
    }

    // ------------------------------------------------------------ messages

    /**
     * `isDuplicateMessage`: a de-duplicated type whose key is cached is a
     * duplicate; otherwise its key is cached and a five-second timer will
     * drop it. Other types never touch the cache.
     */
    method IsDuplicateMessage(message: JsValue) returns (duplicate: bool)
      modifies this`messageCache, this`timers
      ensures duplicate <==> DedupKey(message).Some? && DedupKey(message).value in old(messageCache)
      ensures DedupKey(message).Some? && !duplicate ==>
                messageCache == old(messageCache) + {DedupKey(message).value} &&
                timers == old(timers) + [Timer(ExpireKey(DedupKey(message).value), CacheTimeout)]
      ensures DedupKey(message).None? || duplicate ==> messageCache == old(messageCache) && timers == old(timers)
    {
      var key := DedupKey(message);
      if key.None? {
        return false;
      }
      if key.value in messageCache {
        return true;
      }
      messageCache := messageCache + {key.value};
      timers := timers + [Timer(ExpireKey(key.value), CacheTimeout)];
      return false;
    }

    /**
     * `handleRoomMessage`: 'joined' adds the room and, once as many rooms
     * are joined as there are targets, sets the flag, cancels the fallback
     * and checks readiness; 'left' only removes the room. 'room_message'
     * goes out in every case.
     */
    method HandleRoomMessage(message: JsValue)
      modifies this`joinedRooms, this`connectionState, this`subscriptionTimeout, this`calls
      ensures var action, room := Prop(message, "action"), Prop(message, "room");
        joinedRooms == (if action == JStr("joined") then old(joinedRooms) + {room}
                        else if action == JStr("left") then old(joinedRooms) - {room}
                        else old(joinedRooms))
      ensures var full := Prop(message, "action") == JStr("joined") && |joinedRooms| >= |TargetRooms|;
        connectionState == (if full then old(connectionState).(roomsSubscribed := true) else old(connectionState)) &&
        subscriptionTimeout == (if full then false else old(subscriptionTimeout))
      ensures var full := Prop(message, "action") == JStr("joined") && |joinedRooms| >= |TargetRooms|;
        calls == old(calls) + (if full then ReadyCalls() else []) + old(Deliveries("room_message", message))
    {
      var action := Prop(message, "action");
      if action == JStr("joined") {
        joinedRooms := joinedRooms + {Prop(message, "room")};
        if |joinedRooms| >= |TargetRooms| {
          connectionState := connectionState.(roomsSubscribed := true);
          subscriptionTimeout := false;
          CheckReadyState();
        }
      } else if action == JStr("left") {
        joinedRooms := joinedRooms - {Prop(message, "room")};
      }
      EmitEvent("room_message", message);
    }

    /** `handleMessage`: room messages update the room bookkeeping; every other type is routed. */
    method HandleMessage(message: JsValue)
      modifies this`joinedRooms, this`connectionState, this`subscriptionTimeout, this`calls
      ensures (message != JNull && message != JUndefined && Type(message) == JStr("room")) ||
              (joinedRooms == old(joinedRooms) && connectionState == old(connectionState) &&
               subscriptionTimeout == old(subscriptionTimeout) &&
               calls == old(calls) + (match Routed(message)
                                      case None => []
                                      case Some(e) => old(Deliveries(e.event, e.data))))
    {
      if message == JNull || message == JUndefined {
        return;
      }
      if Type(message) == JStr("room") {
        HandleRoomMessage(message);
        return;
      }
      var routed := Routed(message);
      if routed.Some? {
        EmitEvent(routed.value.event, routed.value.data);
      }
    }

    /**
     * The socket's message event (`onMessage`); `parsed` is the outcome of
     * JSON.parse (None when it throws). A duplicate is dropped before
     * routing; a null message throws in the duplicate check and is dropped.
     */
    method OnMessage(parsed: Basics.Option<JsValue>)
      modifies this`messageCache, this`timers, this`joinedRooms, this`connectionState, this`subscriptionTimeout, this`calls
      ensures parsed.None? || parsed.value == JNull ==>
                messageCache == old(messageCache) && timers == old(timers) && calls == old(calls) &&
                joinedRooms == old(joinedRooms) && connectionState == old(connectionState)
      ensures parsed.Some? && parsed.value != JNull && DedupKey(parsed.value).Some? &&
              DedupKey(parsed.value).value in old(messageCache) ==>
                messageCache == old(messageCache) && timers == old(timers) && calls == old(calls) &&
                joinedRooms == old(joinedRooms) && connectionState == old(connectionState)
      ensures parsed.Some? && parsed.value != JNull && Type(parsed.value) != JStr("room") &&
              !(DedupKey(parsed.value).Some? && DedupKey(parsed.value).value in old(messageCache)) ==>
                calls == old(calls) + (match Routed(parsed.value)
                                       case None => []
                                       case Some(e) => old(Deliveries(e.event, e.data)))
      ensures parsed.Some? && parsed.value != JNull && DedupKey(parsed.value).None? ==>
                messageCache == old(messageCache) && timers == old(timers)
    {
      if parsed.None? || parsed.value == JNull {
        return;
      }
      var message := parsed.value;
      var duplicate := IsDuplicateMessage(message);
      if duplicate {
        return;
      }
      HandleMessage(message);
    }

    // ------------------------------------------------------------ timers

    /** The reconnect timer fires: it is spent and `connect` runs. */
    method FireReconnectTimer(creationFails: bool)
      requires Valid() && reconnectTimer.Some?
      modifies this`isConnecting, this`socket, this`reconnectTimer, this`reconnectAttempts
      ensures Valid()
      ensures old(isConnecting) || old(IsConnected()) ==>
                reconnectTimer == Basics.None && socket == old(socket) && isConnecting == old(isConnecting)
      ensures !old(isConnecting) && !old(IsConnected()) && !creationFails ==>
                isConnecting && socket == Socket(Connecting) && reconnectTimer == Basics.None
    {
      reconnectTimer := Basics.None;
      Connect(creationFails);
    }

    /** The three-second subscription fallback fires: the flag is forced only if still unset. */
    method FireSubscriptionTimeout()
      requires subscriptionTimeout
      modifies this`subscriptionTimeout, this`connectionState, this`calls
      ensures !subscriptionTimeout
      ensures connectionState == old(connectionState).(roomsSubscribed := true)
      ensures calls == old(calls) + (if old(connectionState).roomsSubscribed then [] else ReadyCalls())
    {
      subscriptionTimeout := false;
      if !connectionState.roomsSubscribed {
        connectionState := connectionState.(roomsSubscribed := true);
        CheckReadyState();
      }
    }

    /** One of the timers without a handle fires and is spent. */
    method FireTimer(i: nat, creationFails: bool)
      requires Valid() && i < |timers|
      modifies this`timers, this`connectionState, this`calls, this`messageCache
      modifies this`isConnecting, this`socket, this`reconnectTimer, this`reconnectAttempts
      ensures Valid()
      ensures timers == old(timers[..i] + timers[i + 1..])
      ensures old(timers[i].job) == MarkAuthenticated ==>
                connectionState == old(connectionState).(authenticated := true) && calls == old(calls) + ReadyCalls()
      ensures old(timers[i].job) == ForceSubscribed ==>
                connectionState == old(connectionState).(roomsSubscribed := true) && calls == old(calls) + ReadyCalls()
      ensures old(timers[i].job).ExpireKey? ==>
                messageCache == old(messageCache) - {old(timers[i].job).key} && calls == old(calls)
      ensures old(timers[i].job) == ManualConnect && !old(isConnecting) && !old(IsConnected()) && !creationFails ==>
                isConnecting && socket == Socket(Connecting)
      ensures old(timers[i].job) != ManualConnect ==>
                socket == old(socket) && isConnecting == old(isConnecting) &&
                reconnectTimer == old(reconnectTimer) && reconnectAttempts == old(reconnectAttempts)
      ensures old(timers[i].job) != ManualConnect && !old(timers[i].job).ExpireKey? ==> messageCache == old(messageCache)
    {
      var t := timers[i];
      timers := timers[..i] + timers[i + 1..];
      match t.job
      case MarkAuthenticated =>
        connectionState := connectionState.(authenticated := true);
        CheckReadyState();
      case ForceSubscribed =>
        connectionState := connectionState.(roomsSubscribed := true);
        CheckReadyState();
      case ManualConnect =>
        Connect(creationFails);
      case ExpireKey(key) =>
        messageCache := messageCache - {key};
    }
  }

  // ---------------------------------------------------------------- scenarios

  /** The server's confirmation that `room` was joined. */
  function Joined(room: string): JsValue {
    JObj(map["type" := JStr("room"), "action" := JStr("joined"), "room" := JStr(room)])
  }

  /**
   * The handshake on a socket that opens with a token: a ping and the four
   * join requests go out, and the client is ready once the authentication
   * timer has fired and the four rooms are confirmed.
   */
  method HandshakeScenario(service: WebSocketService)
    requires service.Valid() && service.socket == Socket(Connecting)
    modifies service
    ensures service.IsReady()
    ensures service.outbox == old(service.outbox) + [Message(Ping)] + JoinFrames(TargetRooms)
  {
    service.OnOpen(true);
    service.FireTimer(|service.timers| - 1, false);
    ConfirmTargetRooms(service);
  }

  /** Confirming the four target rooms on an open, authenticated connection makes the client ready. */
  method ConfirmTargetRooms(service: WebSocketService)
    requires service.socket == Socket(Open) && service.joinedRooms == {}
    requires service.connectionState.connected && service.connectionState.authenticated
    modifies service
    ensures service.IsReady() && service.outbox == old(service.outbox)
  {
    ConfirmRoom(service, "dashboard");
    ConfirmRoom(service, "alerts");
    assert service.joinedRooms == {JStr("dashboard"), JStr("alerts")};
    ConfirmRoom(service, "urgent_alerts");
    assert service.joinedRooms == {JStr("dashboard"), JStr("alerts"), JStr("urgent_alerts")};
    ConfirmRoom(service, "device_monitoring");
    assert |service.joinedRooms| == 4;
  }

  /** One confirmation adds its room; the one that completes the targets sets the subscription flag. */
  method ConfirmRoom(service: WebSocketService, room: string)
    modifies service`joinedRooms, service`connectionState, service`subscriptionTimeout, service`calls
    ensures service.joinedRooms == old(service.joinedRooms) + {JStr(room)}
    ensures service.connectionState.connected == old(service.connectionState.connected)
    ensures service.connectionState.authenticated == old(service.connectionState.authenticated)
    ensures |service.joinedRooms| >= |TargetRooms| ==> service.connectionState.roomsSubscribed
  {
    assert Prop(Joined(room), "action") == JStr("joined") && Prop(Joined(room), "room") == JStr(room);
    service.HandleRoomMessage(Joined(room));
  }
}
