/**
 * The real-time channel service: a registry of message handlers and
 * connection listeners, the inbound filter (battle scope, own echo), dispatch,
 * the outgoing envelope, and the connection state driven by socket events.
 * The socket itself is abstract: events arrive as calls, frames leave as values.
 */
module Channel {
  import opened Wrappers
  import opened Types

  /** A registered callback, identified by reference in the source. */
  type CallbackId = nat

  /** No callback appears twice, as in a JavaScript `Set`. */
  predicate Unique(r: seq<CallbackId>) {
    forall i, j :: 0 <= i < j < |r| ==> r[i] != r[j]
  }

  /** `Set.add`: a new member goes to the end; an existing one keeps its place. */
  function AddOnce(r: seq<CallbackId>, h: CallbackId): (r': seq<CallbackId>)
    ensures forall x :: x in r' <==> x in r || x == h
    ensures Unique(r) ==> Unique(r')
    ensures |r'| <= |r| + 1
    ensures |r'| >= |r| && r'[..|r|] == r
    ensures h in r ==> |r'| == |r|
    ensures h !in r ==> |r'| == |r| + 1 && r'[|r|] == h
  {
    if h in r then r else r + [h]
  }

  /** `r'` is `r` with the entry at some position holding `h` cut out, the rest in order. */
  predicate CutOnce(r: seq<CallbackId>, h: CallbackId, r': seq<CallbackId>) {
    exists i :: 0 <= i < |r| && r[i] == h && r' == r[..i] + r[i + 1..]
  }

  lemma TailUnique(r: seq<CallbackId>)
    requires r != []
    ensures Unique(r) ==> Unique(r[1..]) && r[0] !in r[1..]
  {
    if Unique(r) {
      forall i, j | 0 <= i < j < |r[1..]|
        ensures r[1..][i] != r[1..][j]
      {
        assert r[1..][i] == r[i + 1] && r[1..][j] == r[j + 1];
      }
      forall k | 0 <= k < |r[1..]|
        ensures r[1..][k] != r[0]
      {
        assert r[1..][k] == r[k + 1];
      }
    }
  }

  /** Cutting `h` out of the tail cuts it out of the whole when the head is kept. */
  lemma CutBehindHead(r: seq<CallbackId>, h: CallbackId, rest: seq<CallbackId>)
    requires r != [] && CutOnce(r[1..], h, rest)
    ensures CutOnce(r, h, [r[0]] + rest)
  {
    var j :| 0 <= j < |r[1..]| && r[1..][j] == h && rest == r[1..][..j] + r[1..][j + 1..];
    assert r[..j + 1] == [r[0]] + r[1..][..j];
    assert r[j + 2..] == r[1..][j + 1..];
    assert [r[0]] + rest == r[..j + 1] + r[j + 2..];
  }

  /** Putting a new callback in front of a duplicate-free registry keeps it duplicate-free. */
  lemma ConsUnique(x: CallbackId, rest: seq<CallbackId>)
    ensures Unique(rest) && x !in rest ==> Unique([x] + rest)
  {
    if Unique(rest) && x !in rest {
      forall i, j | 0 <= i < j < |[x] + rest|
        ensures ([x] + rest)[i] != ([x] + rest)[j]
      {
        assert ([x] + rest)[j] == rest[j - 1];
        if i > 0 {
          assert ([x] + rest)[i] == rest[i - 1];
        }
      }
    }
  }

  /** The registry `Remove` builds from the head and the tail's result. */
  function StepResult(r: seq<CallbackId>, h: CallbackId, rest: seq<CallbackId>): seq<CallbackId>
    requires r != []
  {
    if r[0] == h then rest else [r[0]] + rest
  }

  /** One step of `Remove`: what holds of the tail's result carries over to the whole. */
  lemma RemoveStep(r: seq<CallbackId>, h: CallbackId, rest: seq<CallbackId>)
    requires r != []
    requires forall x :: x in rest <==> x in r[1..] && x != h
    requires Unique(r[1..]) ==> Unique(rest)
    requires |rest| <= |r[1..]|
    requires h !in r[1..] ==> rest == r[1..]
    requires Unique(r[1..]) && h in r[1..] ==> CutOnce(r[1..], h, rest)
    ensures forall x :: x in StepResult(r, h, rest) <==> x in r && x != h
    ensures Unique(r) ==> Unique(StepResult(r, h, rest))
    ensures |StepResult(r, h, rest)| <= |r|
    ensures h !in r ==> StepResult(r, h, rest) == r
    ensures Unique(r) && h in r ==> CutOnce(r, h, StepResult(r, h, rest))
  {
    assert r == [r[0]] + r[1..];
    TailUnique(r);
    ConsUnique(r[0], rest);
    if Unique(r) && h in r {
      if r[0] == h {
        assert r[..0] + r[1..] == r[1..];
      } else {
        CutBehindHead(r, h, rest);
      }
    }
  }

  /** `Set.delete`: the member is gone, the others keep their order. */
  function Remove(r: seq<CallbackId>, h: CallbackId): (r': seq<CallbackId>)
    ensures forall x :: x in r' <==> x in r && x != h
    ensures Unique(r) ==> Unique(r')
    ensures |r'| <= |r|
    ensures h !in r ==> r' == r
    ensures Unique(r) && h in r ==> CutOnce(r, h, r')
    decreases |r|
  {
    if r == [] then []
    else
      var rest := Remove(r[1..], h);
      RemoveStep(r, h, rest);
      StepResult(r, h, rest)
  }

  lemma {:induction false} RemoveAbsent(r: seq<CallbackId>, h: CallbackId)
    requires h !in r
    ensures Remove(r, h) == r
    decreases |r|
  {
    if r != [] {
      assert r[1..] + [] == r[1..];
      RemoveAbsent(r[1..], h);
      assert [r[0]] + r[1..] == r;
    }
  }

  lemma {:induction false} RemoveLast(r: seq<CallbackId>, h: CallbackId)
    ensures Remove(r + [h], h) == Remove(r, h)
    decreases |r|
  {
    if r == [] {
      assert ([] + [h])[1..] == [];
    } else {
      assert (r + [h])[1..] == r[1..] + [h];
      RemoveLast(r[1..], h);
    }
  }

  /** Subscribing a new handler and calling the returned unsubscribe restores the registry. */
  lemma SubscribeUnsubscribe(r: seq<CallbackId>, h: CallbackId)
    requires h !in r
    ensures Remove(AddOnce(r, h), h) == r
  {
    RemoveLast(r, h);
    RemoveAbsent(r, h);
  }

  /** The settlement of the promise returned by `connect`: the first outcome wins. */
  datatype Promise = Pending | Resolved | Rejected(reason: string)

  function Settle(p: Promise, outcome: Promise): (r: Promise)
    requires outcome != Pending
    ensures p != Pending ==> r == p
    ensures p == Pending ==> r == outcome
    ensures r != Pending
  {
    if p.Pending? then outcome else p
  }

  const ConnectFailed := "Failed to connect to voting server"
  const ConnectTimedOut := "Connection timeout"
  /** Stands for whatever `getUserId` rejects with (a throwing store write or a failed fingerprint load). */
  const UserIdUnavailable := "getUserId rejected"

  /**
   * The service's fields. `heartbeatTracked` is the interval the service holds
   * a handle to; `heartbeatsLeaked` counts intervals started while another was
   * held, which nothing stops any more.
   */
  datatype Service = Service(
    hasSocket: bool,
    connected: bool,
    handlers: seq<CallbackId>,
    listeners: seq<CallbackId>,
    currentBattleId: Option<string>,
    userId: string,
    heartbeatTracked: bool,
    heartbeatsLeaked: nat,
    promise: Option<Promise>)

  const InitialService := Service(false, false, [], [], None, "", false, 0, None)

  /** The number of heartbeat intervals still running. */
  function RunningHeartbeats(s: Service): nat {
    s.heartbeatsLeaked + (if s.heartbeatTracked then 1 else 0)
  }

  /** The wire envelope. `battleId` is absent when the sender had no scope. */
  datatype Envelope = Envelope(message: Message, battleId: Option<string>, userId: string, timestamp: int)

  /** An inbound frame: a parsed envelope, or text that is not valid JSON. */
  datatype Frame = Parsed(envelope: Envelope) | Garbled

  /** JavaScript truthiness of an optional string. */
  predicate Truthy(id: Option<string>) {
    id.Some? && id.value != ""
  }

  /** The scope filter: a scoped envelope passes only when its scope is the current one. */
  predicate InScope(s: Service, env: Envelope) {
    !(Truthy(env.battleId) && env.battleId != s.currentBattleId)
  }

  predicate Accepts(s: Service, env: Envelope) {
    InScope(s, env) && env.userId != s.userId
  }

  /** The handlers reached by one envelope and those of them that threw. */
  datatype Dispatch = Dispatch(delivered: seq<CallbackId>, failed: seq<CallbackId>)

  function FailedAmong(hs: seq<CallbackId>, throwing: set<CallbackId>): (r: seq<CallbackId>)
    ensures forall x :: x in r <==> x in hs && x in throwing
    decreases |hs|
  {
    if hs == [] then []
    else
      assert forall x :: x in hs[1..] ==> x in hs;
      (if hs[0] in throwing then [hs[0]] else []) + FailedAmong(hs[1..], throwing)
  }

  /**
   * `handleIncomingMessage`: a filtered envelope reaches nobody; an accepted
   * one reaches every handler in registration order, each call isolated so
   * that a throwing handler stops nobody else.
   */
  function HandleIncoming(s: Service, env: Envelope, throwing: set<CallbackId>): (r: Dispatch)
    ensures !Accepts(s, env) ==> r.delivered == [] && r.failed == []
    ensures Accepts(s, env) ==> r.delivered == s.handlers
    ensures forall h :: h in r.failed <==> h in r.delivered && h in throwing
  {
    if Accepts(s, env) then Dispatch(s.handlers, FailedAmong(s.handlers, throwing)) else Dispatch([], [])
  }

  /** Which handlers fail never changes which handlers are called. */
  lemma FailuresIsolated(s: Service, env: Envelope, t1: set<CallbackId>, t2: set<CallbackId>)
    ensures HandleIncoming(s, env, t1).delivered == HandleIncoming(s, env, t2).delivered
  {
  }

  /** `onmessage`: a garbled frame is logged and dropped. */
  function OnFrame(s: Service, f: Frame, throwing: set<CallbackId>): (r: Dispatch)
    ensures f.Garbled? ==> r == Dispatch([], [])
    ensures f.Parsed? ==> r == HandleIncoming(s, f.envelope, throwing)
  {
    match f
    case Garbled => Dispatch([], [])
    case Parsed(env) => HandleIncoming(s, env, throwing)
  }

  /** The envelope `send` builds for a message at time `now`. */
  function Outgoing(s: Service, m: Message, now: int): (r: Envelope)
    ensures r.message == m && r.userId == s.userId && r.timestamp == now
    ensures Truthy(r.battleId) == Truthy(s.currentBattleId)
    ensures r.battleId.Some? ==> r.battleId == s.currentBattleId
  {
    Envelope(m, if Truthy(s.currentBattleId) then s.currentBattleId else None, s.userId, now)
  }

  /**
   * `send`: nothing leaves without a connected socket; otherwise the envelope
   * is transmitted, unless the socket throws, which is caught.
   */
  function Send(s: Service, m: Message, now: int, transmits: bool): (r: Option<Envelope>)
    ensures r.Some? <==> s.connected && s.hasSocket && transmits
    ensures r.Some? ==> r.value == Outgoing(s, m, now)
  {
    if !s.connected || !s.hasSocket then None
    else if transmits then Some(Outgoing(s, m, now))
    else None
  }

  /** A client never accepts its own envelope. */
  lemma OwnEchoDropped(s: Service, m: Message, now: int)
    ensures !Accepts(s, Outgoing(s, m, now))
  {
  }

  /**
   * Scope isolation between two clients: an envelope sent under a scope is
   * accepted by another user exactly when that user is in the same scope.
   */
  lemma ScopedDelivery(sender: Service, receiver: Service, m: Message, now: int)
    requires Truthy(sender.currentBattleId) && sender.userId != receiver.userId
    ensures Accepts(receiver, Outgoing(sender, m, now)) <==>
      receiver.currentBattleId == sender.currentBattleId
  {
  }

  /** An unscoped envelope is accepted by every other user, whatever their scope. */
  lemma UnscopedBroadcast(sender: Service, receiver: Service, m: Message, now: int)
    requires !Truthy(sender.currentBattleId)
    ensures Accepts(receiver, Outgoing(sender, m, now)) <==> sender.userId != receiver.userId
  {
  }

  /** A connection listener and the state it was told. */
  datatype Signal = Signal(listener: CallbackId, connected: bool)

  function Notify(listeners: seq<CallbackId>, connected: bool): (r: seq<Signal>)
    ensures |r| == |listeners|
    ensures forall i :: 0 <= i < |r| ==> r[i] == Signal(listeners[i], connected)
    decreases |listeners|
  {
    if listeners == [] then [] else [Signal(listeners[0], connected)] + Notify(listeners[1..], connected)
  }

  /** A service after an event, with the listener calls the event made. */
  datatype Stepped = Stepped(service: Service, signals: seq<Signal>)

  /**
   * `connect`: when no user id is held yet, await `getUserId` (`resolved`,
   * `None` when it rejects); then open a socket and return a pending promise.
   * The await sits outside the promise's `try`, so a rejection makes `connect`
   * reject without opening a socket.
   */
  function Connect(s: Service, resolved: Option<string>): (r: Service)
    ensures s.userId != "" ==> r.userId == s.userId
    ensures s.userId == "" && resolved.Some? ==> r.userId == resolved.value
    ensures s.userId != "" || resolved.Some? ==> r.hasSocket && r.promise == Some(Pending)
    ensures s.userId == "" && resolved.None? ==>
      r.promise == Some(Rejected(UserIdUnavailable)) && r.hasSocket == s.hasSocket && r.userId == s.userId
    ensures r.(userId := s.userId, hasSocket := s.hasSocket, promise := s.promise) == s
  {
    if s.userId != "" then s.(hasSocket := true, promise := Some(Pending))
    else
      match resolved
      case None => s.(promise := Some(Rejected(UserIdUnavailable)))
      case Some(id) => s.(userId := id, hasSocket := true, promise := Some(Pending))
  }

  function SettleConnect(p: Option<Promise>, outcome: Promise): Option<Promise>
    requires outcome != Pending
  {
    match p
    case None => None
    case Some(q) => Some(Settle(q, outcome))
  }

  /** `onopen`: connected, listeners told, a heartbeat started, the promise resolved. */
  function Opened(s: Service): (r: Stepped)
    ensures r.service.connected && r.signals == Notify(s.listeners, true)
    ensures RunningHeartbeats(r.service) == RunningHeartbeats(s) + 1
    ensures s.promise == Some(Pending) ==> r.service.promise == Some(Resolved)
    ensures s.promise != Some(Pending) ==> r.service.promise == s.promise
    ensures r.service.(connected := s.connected, heartbeatTracked := s.heartbeatTracked,
                       heartbeatsLeaked := s.heartbeatsLeaked, promise := s.promise) == s
  {
    var started := s.(heartbeatTracked := true,
                      heartbeatsLeaked := if s.heartbeatTracked then s.heartbeatsLeaked + 1 else s.heartbeatsLeaked);
    Stepped(started.(connected := true, promise := SettleConnect(s.promise, Resolved)), Notify(s.listeners, true))
  }

  /** `onclose`: disconnected, listeners told, the held heartbeat stopped. */
  function Closed(s: Service): (r: Stepped)
    ensures !r.service.connected && r.signals == Notify(s.listeners, false)
    ensures RunningHeartbeats(r.service) == s.heartbeatsLeaked
    ensures r.service.promise == s.promise
    ensures r.service.(connected := s.connected, heartbeatTracked := s.heartbeatTracked) == s
  {
    Stepped(s.(connected := false, heartbeatTracked := false), Notify(s.listeners, false))
  }

  /** `onerror`: disconnected, listeners told, the promise rejected; the heartbeat keeps running. */
  function Errored(s: Service): (r: Stepped)
    ensures !r.service.connected && r.signals == Notify(s.listeners, false)
    ensures RunningHeartbeats(r.service) == RunningHeartbeats(s)
    ensures s.promise == Some(Pending) ==> r.service.promise == Some(Rejected(ConnectFailed))
    ensures s.promise != Some(Pending) ==> r.service.promise == s.promise
    ensures r.service.(connected := s.connected, promise := s.promise) == s
  {
    Stepped(s.(connected := false, promise := SettleConnect(s.promise, Rejected(ConnectFailed))),
            Notify(s.listeners, false))
  }

  /** The connect timeout: rejects only while not connected. */
  function TimedOut(s: Service): (r: Service)
    ensures s.connected ==> r == s
    ensures !s.connected && s.promise == Some(Pending) ==> r.promise == Some(Rejected(ConnectTimedOut))
    ensures s.promise != Some(Pending) ==> r.promise == s.promise
    ensures r.(promise := s.promise) == s
  {
    if s.connected then s else s.(promise := SettleConnect(s.promise, Rejected(ConnectTimedOut)))
  }

  /** The socket events that drive the connection state. */
  datatype SocketEvent = Open | Close | Error | Timeout

  /** The service after a sequence of socket events, in order. */
  function RunEvents(s: Service, events: seq<SocketEvent>): Service
    decreases |events|
  {
    if events == [] then s
    else
      var next := match events[0]
        case Open => Opened(s).service
        case Close => Closed(s).service
        case Error => Errored(s).service
        case Timeout => TimedOut(s);
      RunEvents(next, events[1..])
  }

  /**
   * The connect promise settles once: after it has resolved or rejected, no
   * sequence of opens, closes, errors and timeouts changes it.
   */
  lemma {:induction false} SettledPromiseStable(s: Service, events: seq<SocketEvent>)
    requires s.promise != Some(Pending)
    ensures RunEvents(s, events).promise == s.promise
    decreases |events|
  {
    if events != [] {
      var next := match events[0]
        case Open => Opened(s).service
        case Close => Closed(s).service
        case Error => Errored(s).service
        case Timeout => TimedOut(s);
      assert next.promise == s.promise;
      SettledPromiseStable(next, events[1..]);
    }
  }

  /** Handlers, listeners, scope and user id survive any sequence of socket events. */
  lemma {:induction false} EventsKeepRegistries(s: Service, events: seq<SocketEvent>)
    ensures var r := RunEvents(s, events);
      r.handlers == s.handlers && r.listeners == s.listeners
        && r.currentBattleId == s.currentBattleId && r.userId == s.userId && r.hasSocket == s.hasSocket
    decreases |events|
  {
    if events != [] {
      var next := match events[0]
        case Open => Opened(s).service
        case Close => Closed(s).service
        case Error => Errored(s).service
        case Timeout => TimedOut(s);
      EventsKeepRegistries(next, events[1..]);
    }
  }

  /** `disconnect`: drops the socket; its close event arrives separately. */
  function Disconnect(s: Service): (r: Service)
    ensures !r.hasSocket && r.(hasSocket := s.hasSocket) == s
  {
    s.(hasSocket := false)
  }

  /** `setBattleId` changes the scope and nothing else. */
  function SetBattleId(s: Service, battleId: string): (r: Service)
    ensures r.currentBattleId == Some(battleId)
    ensures r.(currentBattleId := s.currentBattleId) == s
  {
    s.(currentBattleId := Some(battleId))
  }

  /** One heartbeat tick: an unscoped heartbeat frame while connected with a socket. */
  function HeartbeatTick(s: Service, now: int): (r: Option<Envelope>)
    ensures r.Some? <==> s.connected && s.hasSocket
    ensures r.Some? ==> r.value == Envelope(Heartbeat, None, s.userId, now)
  {
    if s.connected && s.hasSocket then Some(Envelope(Heartbeat, None, s.userId, now)) else None
  }

  /** `subscribe`: the handler joins the registry; nothing else changes. */
  function Subscribe(s: Service, h: CallbackId): (r: Service)
    ensures h in r.handlers && forall x :: x in r.handlers <==> x in s.handlers || x == h
    ensures r.(handlers := s.handlers) == s
  {
    s.(handlers := AddOnce(s.handlers, h))
  }

  /** The function `subscribe` returns: the handler leaves the registry; nothing else changes. */
  function Unsubscribe(s: Service, h: CallbackId): (r: Service)
    ensures h !in r.handlers && forall x :: x in r.handlers <==> x in s.handlers && x != h
    ensures r.(handlers := s.handlers) == s
  {
    s.(handlers := Remove(s.handlers, h))
  }

  /** `onConnectionChange`: the listener joins the registry; nothing else changes. */
  function OnConnectionChange(s: Service, l: CallbackId): (r: Service)
    ensures l in r.listeners && forall x :: x in r.listeners <==> x in s.listeners || x == l
    ensures r.(listeners := s.listeners) == s
  {
    s.(listeners := AddOnce(s.listeners, l))
  }

  /** The function `onConnectionChange` returns: the listener leaves the registry. */
  function RemoveConnectionListener(s: Service, l: CallbackId): (r: Service)
    ensures l !in r.listeners && forall x :: x in r.listeners <==> x in s.listeners && x != l
    ensures r.(listeners := s.listeners) == s
  {
    s.(listeners := Remove(s.listeners, l))
  }

  /** A newly subscribed handler is called last, after every handler registered before it. */
  lemma SubscribeDeliversLast(s: Service, h: CallbackId, env: Envelope, throwing: set<CallbackId>)
    requires h !in s.handlers && Accepts(s, env)
    ensures HandleIncoming(Subscribe(s, h), env, throwing).delivered == s.handlers + [h]
  {
    assert Accepts(Subscribe(s, h), env);
  }

  /** Subscribing a handler that is already registered changes nothing. */
  lemma SubscribeTwice(s: Service, h: CallbackId)
    requires h in s.handlers
    ensures Subscribe(s, h) == s
  {
  }

  /** A new connection listener is told of an opening last; a removed one is not told at all. */
  lemma ListenerRegistration(s: Service, l: CallbackId)
    requires l !in s.listeners
    ensures Opened(OnConnectionChange(s, l)).signals == Notify(s.listeners, true) + [Signal(l, true)]
    ensures forall i :: 0 <= i < |Opened(RemoveConnectionListener(s, l)).signals| ==>
      Opened(RemoveConnectionListener(s, l)).signals[i].listener != l
  {
    NotifyAppend(s.listeners, l, true);
  }

  lemma {:induction false} NotifyAppend(ls: seq<CallbackId>, l: CallbackId, connected: bool)
    ensures Notify(ls + [l], connected) == Notify(ls, connected) + [Signal(l, connected)]
    decreases |ls|
  {
    if ls != [] {
      assert (ls + [l])[1..] == ls[1..] + [l];
      NotifyAppend(ls[1..], l, connected);
    } else {
      assert [] + [l] == [l];
    }
  }

  /** After `disconnect` nothing is sent, until a new socket is opened. */
  lemma DisconnectSilences(s: Service, m: Message, now: int, transmits: bool)
    ensures Send(Disconnect(s), m, now, transmits) == None
    ensures HeartbeatTick(Disconnect(s), now) == None
  {
  }

  /** After unsubscribing, a handler receives nothing, and every other handler is unaffected. */
  lemma UnsubscribedReceivesNothing(s: Service, h: CallbackId, env: Envelope, throwing: set<CallbackId>)
    ensures h !in HandleIncoming(Unsubscribe(s, h), env, throwing).delivered
    ensures forall g :: g != h ==>
      (g in HandleIncoming(Unsubscribe(s, h), env, throwing).delivered <==>
       g in HandleIncoming(s, env, throwing).delivered)
  {
  }

  /**
   * The listener calls of a connection that opens and closes twice without a
   * fresh service: two openings leave one heartbeat running after the close.
   */
  lemma ReopenLeaksHeartbeat(s: Service)
    requires RunningHeartbeats(s) == 0
    ensures RunningHeartbeats(Closed(Opened(Opened(s).service).service).service) == 1
  {
  }
}
