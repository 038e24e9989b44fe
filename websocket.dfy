/** The real-time connection hook (`src/hooks/useWebSocket.ts`). Sockets,
    timers and the clock are the browser's: here a socket is a record in a
    list (its handle is its index), a pending `setTimeout` is an entry in a
    map, and every browser event is a method the environment calls with the
    handle it concerns. */
module Connection {
  import opened Wrappers
  import opened Types
  import Store

  const MaxReconnectAttempts: nat := 5
  /** Milliseconds between a close event and the reconnect attempt. */
  const ReconnectInterval: int := 3000
  /** The code `disconnectWebSocket` closes with: "normal closure" in
      section 7.4.1 of RFC 6455. */
  const NormalClosure: int := 1000

  datatype ReadyState = Connecting | Open | Closing | Closed

  /** A `WebSocket` object: the intervention its URL names, its ready state
      and the code `close()` was called with, if it was. */
  datatype Socket = Socket(subject: int, state: ReadyState, closeCode: Option<int>)

  /** A pending `setTimeout(() => connectWebSocket(), 3000)`: the intervention
      id captured by the scheduling closure and the time it is due. */
  datatype Timer = Timer(subject: int, dueAt: int)

  /** An incoming frame, classified by its `type` tag; the payload is taken as
      given, as the source's `as` casts do. */
  datatype Frame =
    | NewMessage(message: Message)
    | InterventionUpdate(intervention: Intervention)
    | AgentUpdate(agent: Agent)
    | UnknownType(tag: string)
    | Unparseable

  /** `{ type: 'send_message', data: { content }, timestamp }` written to the
      socket with the given handle. */
  datatype OutFrame = OutFrame(socket: nat, content: string, timestamp: int)

  datatype SendError = NotConnected

  /** The three refs of the hook and the frames written so far. */
  datatype ConnState = ConnState(
    sockets: seq<Socket>,
    current: Option<nat>,
    timers: map<nat, Timer>,
    nextTimer: nat,
    reconnectTimeout: Option<nat>,
    attempts: nat,
    sent: seq<OutFrame>)

  const InitialConn := ConnState([], None, map[], 0, None, 0, [])

  /** `if (!interventionId) return;`: undefined and 0 are falsy. */
  predicate Truthy(id: Option<int>)
  {
    id.Some? && id.value != 0
  }

  /** The retry counter stays within its bound; sockets and timers exist
      only for truthy ids; every handle refers to something that was
      created. */
  predicate ConnValid(c: ConnState)
  {
    && c.attempts <= MaxReconnectAttempts
    && (forall k :: 0 <= k < |c.sockets| ==> c.sockets[k].subject != 0)
    && (forall t :: t in c.timers ==> c.timers[t].subject != 0)
    && (c.current.Some? ==> c.current.value < |c.sockets|)
    && (forall t :: t in c.timers ==> t < c.nextTimer)
    && (c.reconnectTimeout.Some? ==> c.reconnectTimeout.value < c.nextTimer)
    && (forall k :: 0 <= k < |c.sent| ==> c.sent[k].socket < |c.sockets|)
  }

  /** `connectWebSocket`: a new socket replaces `wsRef.current`; the socket it
      replaces is neither closed nor forgotten by the browser. A constructor
      that throws changes none of the refs. */
  function Connected(c: ConnState, subject: Option<int>, fails: bool): (r: ConnState)
    ensures !Truthy(subject) || fails ==> r == c
    ensures Truthy(subject) && !fails ==>
      && r.sockets == c.sockets + [Socket(subject.value, Connecting, None)]
      && r.current == Some(|c.sockets|)
      && r == c.(sockets := r.sockets, current := r.current)
    ensures ConnValid(c) ==> ConnValid(r)
  {
    if !Truthy(subject) || fails then c
    else c.(sockets := c.sockets + [Socket(subject.value, Connecting, None)], current := Some(|c.sockets|))
  }

  /** `onopen`: the counter goes back to 0. */
  function Opened(c: ConnState, h: nat): (r: ConnState)
    requires h < |c.sockets|
    ensures r.attempts == 0
    ensures |r.sockets| == |c.sockets| && r.sockets[h].state == Open
    ensures r == c.(sockets := c.sockets[h := c.sockets[h].(state := Open)], attempts := 0)
    ensures ConnValid(c) ==> ConnValid(r)
  {
    c.(sockets := c.sockets[h := c.sockets[h].(state := Open)], attempts := 0)
  }

  /** `onclose`: whatever the close code, below the bound the counter goes up
      by one and one reconnect is scheduled 3000 ms later; at the bound
      nothing is scheduled. */
  function CloseEvent(c: ConnState, h: nat, now: int): (r: ConnState)
    requires h < |c.sockets|
    ensures r.sockets == c.sockets[h := c.sockets[h].(state := Closed)]
    ensures r.current == c.current && r.sent == c.sent
    ensures c.attempts < MaxReconnectAttempts ==>
      && r.attempts == c.attempts + 1
      && r.reconnectTimeout == Some(c.nextTimer)
      && r.timers == c.timers[c.nextTimer := Timer(c.sockets[h].subject, now + ReconnectInterval)]
      && r.nextTimer == c.nextTimer + 1
    ensures c.attempts >= MaxReconnectAttempts ==>
      r == c.(sockets := r.sockets)
    ensures ConnValid(c) ==> ConnValid(r)
  {
    var closed := c.(sockets := c.sockets[h := c.sockets[h].(state := Closed)]);
    if c.attempts < MaxReconnectAttempts then
      closed.(attempts := c.attempts + 1,
              timers := c.timers[c.nextTimer := Timer(c.sockets[h].subject, now + ReconnectInterval)],
              reconnectTimeout := Some(c.nextTimer),
              nextTimer := c.nextTimer + 1)
    else closed
  }

  /** `ws.close(code)`: only a connecting or open socket starts closing,
      and records the code; a closing or closed one is left alone. Either
      way the socket can no longer send. */
  function CloseSocket(s: Socket, code: int): (r: Socket)
    ensures r.subject == s.subject
    ensures r.state != Open && r.state != Connecting
    ensures s.state == Connecting || s.state == Open ==> r.closeCode == Some(code)
    ensures s.state == Closing || s.state == Closed ==> r == s
  {
    if s.state == Connecting || s.state == Open then s.(state := Closing, closeCode := Some(code)) else s
  }

  /** `disconnectWebSocket`: clear the timer in the ref, close the current
      socket with 1000, drop both refs and reset the counter. */
  function Disconnected(c: ConnState): (r: ConnState)
    ensures r.attempts == 0 && r.current.None? && r.reconnectTimeout.None?
    ensures r.timers.Keys <= c.timers.Keys
    ensures c.reconnectTimeout.Some? ==> c.reconnectTimeout.value !in r.timers
    ensures forall t :: t in c.timers && Some(t) != c.reconnectTimeout ==> t in r.timers && r.timers[t] == c.timers[t]
    ensures |r.sockets| == |c.sockets|
    ensures forall k :: 0 <= k < |c.sockets| && Some(k) != c.current ==> r.sockets[k] == c.sockets[k]
    ensures c.current.Some? && c.current.value < |c.sockets| ==>
      r.sockets[c.current.value] == CloseSocket(c.sockets[c.current.value], NormalClosure)
    ensures r.nextTimer == c.nextTimer && r.sent == c.sent
    ensures ConnValid(c) ==> ConnValid(r)
  {
    var timers := if c.reconnectTimeout.Some? then c.timers - {c.reconnectTimeout.value} else c.timers;
    var sockets :=
      if c.current.Some? && c.current.value < |c.sockets|
      then c.sockets[c.current.value := CloseSocket(c.sockets[c.current.value], NormalClosure)]
      else c.sockets;
    c.(timers := timers, reconnectTimeout := None, sockets := sockets, current := None, attempts := 0)
  }

  /** The timer fires: it leaves the map (the ref still names it) and the
      closure reconnects to the intervention it captured. */
  function TimerFired(c: ConnState, t: nat, fails: bool): (r: ConnState)
    requires t in c.timers
    ensures t !in r.timers
    ensures r == Connected(c.(timers := c.timers - {t}), Some(c.timers[t].subject), fails)
    ensures ConnValid(c) ==> ConnValid(r)
  {
    Connected(c.(timers := c.timers - {t}), Some(c.timers[t].subject), fails)
  }

  /** `wsRef.current?.readyState === WebSocket.OPEN`. */
  predicate CanSend(c: ConnState)
  {
    c.current.Some? && c.current.value < |c.sockets| && c.sockets[c.current.value].state == Open
  }

  /** The store after `onmessage` handles a frame: each known type goes to
      its action; anything else, and a frame `JSON.parse` rejects, changes
      nothing. */
  function Dispatch(s: Store.AppState, f: Frame): (r: Store.AppState)
    ensures f.NewMessage? ==> r == s.(chatMessages := s.chatMessages + [f.message])
    ensures f.InterventionUpdate? ==> r == Store.InterventionUpdated(s, f.intervention)
    ensures f.AgentUpdate? ==> r == Store.AgentUpdated(s, f.agent)
    ensures f.UnknownType? || f.Unparseable? ==> r == s
  {
    match f
    case NewMessage(m) => Store.ChatMessageAdded(s, m)
    case InterventionUpdate(x) => Store.InterventionUpdated(s, x)
    case AgentUpdate(a) => Store.AgentUpdated(s, a)
    case UnknownType(_) => s
    case Unparseable => s
  }

  /** The counter never leaves [0, 5], whatever sequence of events occurs. */
  lemma AttemptsBounded(c: ConnState, h: nat, now: int)
    requires ConnValid(c) && h < |c.sockets|
    ensures CloseEvent(c, h, now).attempts <= MaxReconnectAttempts
    ensures Opened(c, h).attempts <= MaxReconnectAttempts
    ensures Disconnected(c).attempts <= MaxReconnectAttempts
  {
  }

  /** A close event schedules exactly one new timer below the bound and none
      at the bound. */
  lemma CloseSchedulesOneTimer(c: ConnState, h: nat, now: int)
    requires ConnValid(c) && h < |c.sockets|
    ensures c.attempts < MaxReconnectAttempts ==> |CloseEvent(c, h, now).timers| == |c.timers| + 1
    ensures c.attempts == MaxReconnectAttempts ==> CloseEvent(c, h, now).timers == c.timers
  {
    if c.attempts < MaxReconnectAttempts {
      assert c.nextTimer !in c.timers;
      assert CloseEvent(c, h, now).timers.Keys == c.timers.Keys + {c.nextTimer};
    }
  }

  /** Disconnecting twice is disconnecting once: the call is safe with no
      socket and no timer. */
  lemma DisconnectIdempotent(c: ConnState)
    ensures Disconnected(Disconnected(c)) == Disconnected(c)
  {
  }

  /** `onclose` ignores the close code: the close event of the socket that
      `disconnectWebSocket` has just shut with 1000, with the counter back at
      0, schedules a fresh reconnect to the same intervention. */
  lemma CloseAfterDisconnectSchedulesRetry(c: ConnState, now: int)
    requires ConnValid(c) && c.current.Some?
    requires c.sockets[c.current.value].state == Open
    ensures var d := Disconnected(c);
      var h := c.current.value;
      && d.sockets[h].closeCode == Some(NormalClosure)
      && var r := CloseEvent(d, h, now);
      && r.reconnectTimeout == Some(d.nextTimer)
      && r.timers[d.nextTimer] == Timer(c.sockets[h].subject, now + ReconnectInterval)
      && r.attempts == 1
  {
  }

  /** Only the timer in the ref is cleared: an earlier timer whose handle was
      overwritten by a later close event survives `disconnectWebSocket` and
      still reconnects. */
  lemma OverwrittenTimerSurvivesDisconnect(c: ConnState, h1: nat, h2: nat, now1: int, now2: int)
    requires ConnValid(c) && h1 < |c.sockets| && h2 < |c.sockets|
    requires c.attempts + 2 <= MaxReconnectAttempts
    ensures var c1 := CloseEvent(c, h1, now1);
      var c2 := CloseEvent(c1, h2, now2);
      var d := Disconnected(c2);
      c.nextTimer in d.timers && d.timers[c.nextTimer].subject == c.sockets[h1].subject
  {
  }

  /** `connectWebSocket` on an open socket leaves that socket open and
      unreachable: `wsRef.current` names the new one. */
  lemma ReconnectOrphansOpenSocket(c: ConnState, subject: Option<int>)
    requires ConnValid(c) && c.current.Some? && c.sockets[c.current.value].state == Open
    requires Truthy(subject)
    ensures var r := Connected(c, subject, false);
      r.sockets[c.current.value].state == Open && r.current != c.current
  {
  }

  class ConnectionManager {
    const store: Store.AppStore
    /** Every `WebSocket` object created so far; `wsRef.current` is an index. */
    var sockets: seq<Socket>
    var current: Option<nat>
    /** Timeouts neither fired nor cleared. */
    var timers: map<nat, Timer>
    var nextTimer: nat
    /** `reconnectTimeoutRef.current` */
    var reconnectTimeout: Option<nat>
    /** `reconnectAttemptsRef.current` */
    var attempts: nat
    var sent: seq<OutFrame>

    function Snapshot(): ConnState
      reads this
    {
      ConnState(sockets, current, timers, nextTimer, reconnectTimeout, attempts, sent)
    }

    predicate Valid()
      reads this
    {
      ConnValid(Snapshot())
    }

    constructor (store: Store.AppStore)
      ensures Snapshot() == InitialConn && this.store == store && Valid()
    {
      this.store := store;
      sockets, current, timers, nextTimer := [], None, map[], 0;
      reconnectTimeout, attempts, sent := None, 0, [];
    }

    /** `wsRef.current?.readyState === WebSocket.OPEN`. */
    predicate IsConnected()
      reads this
      ensures IsConnected() <==> CanSend(Snapshot())
    {
      current.Some? && current.value < |sockets| && sockets[current.value].state == Open
    }

    method Connect(subject: Option<int>, fails: bool)
      requires Valid()
      modifies this, store
      ensures Valid()
      ensures Snapshot() == Connected(old(Snapshot()), subject, fails)
      ensures Truthy(subject) && fails ==> store.State() == old(store.State()).(websocketConnected := false)
      ensures !(Truthy(subject) && fails) ==> store.State() == old(store.State())
    {
      if !Truthy(subject) {
        return;
      }
      if fails {
        store.SetWebsocketConnected(false);
        return;
      }
      sockets := sockets + [Socket(subject.value, Connecting, None)];
      current := Some(|sockets| - 1);
    }

    method OnOpen(h: nat)
      requires Valid() && h < |sockets| && sockets[h].state == Connecting
      modifies this, store
      ensures Valid()
      ensures Snapshot() == Opened(old(Snapshot()), h)
      ensures store.State() == old(store.State()).(websocketConnected := true)
    {
      sockets := sockets[h := sockets[h].(state := Open)];
      store.SetWebsocketConnected(true);
      attempts := 0;
    }

    method OnMessage(h: nat, f: Frame)
      requires Valid() && h < |sockets| && sockets[h].state == Open
      modifies store
      ensures store.State() == Dispatch(old(store.State()), f)
    {
      match f
      case NewMessage(m) => store.AddChatMessage(m);
      case InterventionUpdate(x) => store.UpdateIntervention(x);
      case AgentUpdate(a) => store.UpdateAgent(a);
      case UnknownType(_) =>
      case Unparseable =>
    }

    /** `onerror` only clears the flag: no counter change, no retry. */
    method OnError(h: nat)
      requires Valid() && h < |sockets| && sockets[h].state != Closed
      modifies store
      ensures store.State() == old(store.State()).(websocketConnected := false)
    {
      store.SetWebsocketConnected(false);
    }

    method OnClose(h: nat, now: int)
      requires Valid() && h < |sockets| && sockets[h].state != Closed
      modifies this, store
      ensures Valid()
      ensures Snapshot() == CloseEvent(old(Snapshot()), h, now)
      ensures store.State() == old(store.State()).(websocketConnected := false)
    {
      sockets := sockets[h := sockets[h].(state := Closed)];
      store.SetWebsocketConnected(false);
      if attempts < MaxReconnectAttempts {
        attempts := attempts + 1;
        timers := timers[nextTimer := Timer(sockets[h].subject, now + ReconnectInterval)];
        reconnectTimeout := Some(nextTimer);
        nextTimer := nextTimer + 1;
      }
    }

    method OnTimer(t: nat, fails: bool)
      requires Valid() && t in timers
      modifies this, store
      ensures Valid()
      ensures Snapshot() == TimerFired(old(Snapshot()), t, fails)
      ensures fails ==> store.State() == old(store.State()).(websocketConnected := false)
      ensures !fails ==> store.State() == old(store.State())
    {
      var subject := timers[t].subject;
      timers := timers - {t};
      Connect(Some(subject), fails);
    }

    method Disconnect()
      requires Valid()
      modifies this, store
      ensures Valid()
      ensures Snapshot() == Disconnected(old(Snapshot()))
      ensures store.State() == old(store.State()).(websocketConnected := false)
    {
      if reconnectTimeout.Some? {
        timers := timers - {reconnectTimeout.value};
        reconnectTimeout := None;
      }
      if current.Some? {
        sockets := sockets[current.value := CloseSocket(sockets[current.value], NormalClosure)];
        current := None;
      }
      store.SetWebsocketConnected(false);
      attempts := 0;
    }

    /** `sendMessage`: one frame on an open socket, otherwise an error and
      nothing written. */
    method Send(content: string, now: int) returns (r: Result<OutFrame, SendError>)
      requires Valid()
      modifies this
      ensures Valid()
      ensures old(CanSend(Snapshot())) ==>
        r == Ok(OutFrame(old(current).value, content, now)) && Snapshot() == old(Snapshot()).(sent := old(sent) + [r.value])
      ensures !old(CanSend(Snapshot())) ==> r == Err(NotConnected) && Snapshot() == old(Snapshot())
    {
      if current.Some? && sockets[current.value].state == Open {
        var frame := OutFrame(current.value, content, now);
        sent := sent + [frame];
        r := Ok(frame);
      } else {
        r := Err(NotConnected);
      }
    }

    /** The effect for a new `interventionId`: the previous run's cleanup,
      then a connect when the id is truthy. */
    method ChangeSubject(subject: Option<int>, fails: bool)
      requires Valid()
      modifies this, store
      ensures Valid()
      ensures Snapshot() == Connected(Disconnected(old(Snapshot())), subject, fails)
      ensures store.State() == old(store.State()).(websocketConnected := false)
    {
      Disconnect();
      Connect(subject, fails);
    }
  }
}
