/** The connection manager as a state machine over the events the WebSocket
    server delivers: a connection, a message, a pong, a close, and an interval
    tick. Its state is the `activeUsers` registry, the state of every socket the
    server has accepted, the server's set of tracked clients, and the records the
    message store returned. */
module Server {
  import opened Common
  import opened Handshake
  import opened Relay
  import opened Liveness

  /** The socket's `readyState`, as far as the manager can observe it. */
  datatype Ready = Open | Closing | Closed

  datatype CloseFrame = CloseFrame(code: int, reason: string)

  /** One WebSocket: the user its `message`/`close` handlers were registered for
      (None when the handshake rejected it), its `isAlive` flag, its ready state,
      the frames and pings written to it, and the close frame sent by `close`. */
  datatype Conn = Conn(
    owner: Option<UserId>,
    isAlive: bool,
    ready: Ready,
    sent: seq<Frame>,
    pings: nat,
    closeFrame: Option<CloseFrame>)

  datatype State = State(
    activeUsers: map<UserId, ConnId>,
    conns: map<ConnId, Conn>,
    clients: set<ConnId>,
    saved: seq<StoredMessage>)

  datatype Event =
    | Connect(id: ConnId, url: UrlQuery, auth: Auth)
    | Message(id: ConnId, data: Parsed, svc: Services)
    | Pong(id: ConnId)
    | Close(id: ConnId)
    | Tick

  /** The server tracks exactly the sockets not yet closed; every registry entry
      names a tracked socket whose handlers belong to that very user. */
  ghost predicate Valid(s: State) {
    && s.clients <= s.conns.Keys
    && (forall id :: id in s.conns ==> (id in s.clients <==> s.conns[id].ready != Closed))
    && (forall u :: u in s.activeUsers ==>
          s.activeUsers[u] in s.clients && s.conns[s.activeUsers[u]].owner == Some(u))
  }

  function Initial(): (s: State)
    ensures Valid(s) && s.activeUsers == map[] && s.clients == {}
  {
    State(map[], map[], {}, [])
  }

  /** A new socket: alive, open, nothing sent. */
  const Fresh: Conn := Conn(None, true, Open, [], 0, None)

  /** `terminate()`: a socket not yet closed is destroyed and is closing until its `close` event. */
  function Terminate(c: Conn): (r: Conn)
    ensures r.ready != Open && (r.ready == Closed <==> c.ready == Closed)
    ensures r == c.(ready := r.ready)
  {
    if c.ready == Closed then c else c.(ready := Closing)
  }

  /** `send()`: only an open socket transmits. */
  function Send(c: Conn, f: Frame): (r: Conn)
    ensures r == c.(sent := r.sent) && c.sent <= r.sent
    ensures |r.sent| == |c.sent| + 1 <==> c.ready == Open
    ensures c.ready != Open ==> r.sent == c.sent
    ensures c.ready == Open ==> r.sent[|c.sent|] == f
  {
    if c.ready == Open then c.(sent := c.sent + [f]) else c
  }

  /** `ping()`: only an open socket transmits. */
  function Ping(c: Conn): (r: Conn)
    ensures r == c.(pings := r.pings) && c.pings <= r.pings <= c.pings + 1
    ensures r.pings > c.pings <==> c.ready == Open
  {
    if c.ready == Open then c.(pings := c.pings + 1) else c
  }

  /** `activeUsers.get(u)` is a socket whose readyState is OPEN. */
  predicate Online(s: State, u: UserId): (b: bool)
    requires Valid(s)
    ensures b ==> u in s.activeUsers && s.activeUsers[u] in s.clients
    ensures b ==> s.conns[s.activeUsers[u]].owner == Some(u)
  {
    u in s.activeUsers && s.conns[s.activeUsers[u]].ready == Open
  }

  /** Which events the server can deliver: a connection brings a socket never
      seen before, and only a tracked socket raises message, pong or close
      events; a message needs the handlers an admitted socket gets. */
  predicate Enabled(s: State, e: Event): (b: bool)
    ensures b && e.Connect? ==> e.id !in s.conns
    ensures Valid(s) && b && (e.Message? || e.Pong? || e.Close?) ==> e.id in s.conns && s.conns[e.id].ready != Closed
    ensures b && e.Message? ==> e.id in s.conns && s.conns[e.id].owner.Some? && s.conns[e.id].ready == Open
  {
    match e
    case Connect(id, _, _) => id !in s.conns
    case Message(id, _, _) => id in s.clients && id in s.conns && s.conns[id].owner.Some? && s.conns[id].ready == Open
    case Pong(id) => id in s.clients
    case Close(id) => id in s.clients
    case Tick => true
  }

  // ---------------------------------------------------------------- registry

  /** The first half of replace-on-admit: delete the user's entry and terminate
      the socket it named. */
  function Evict(s: State, u: UserId): (r: State)
    requires Valid(s)
    ensures Valid(r)
    ensures r.activeUsers == s.activeUsers - {u}
    ensures r.clients == s.clients && r.saved == s.saved && r.conns.Keys == s.conns.Keys
    ensures u in s.activeUsers ==> r.conns[s.activeUsers[u]] == s.conns[s.activeUsers[u]].(ready := Closing)
    ensures forall c :: c in s.conns && (u in s.activeUsers ==> c != s.activeUsers[u]) ==> r.conns[c] == s.conns[c]
  {
    if u in s.activeUsers then
      var previous := s.activeUsers[u];
      s.(activeUsers := s.activeUsers - {u}, conns := s.conns[previous := Terminate(s.conns[previous])])
    else s
  }

  /** The second half of replace-on-admit: register the new socket for a user
      without an entry, and attach its handlers to that user. */
  function Register(s: State, u: UserId, id: ConnId): (r: State)
    requires Valid(s) && id in s.clients && s.conns[id].owner.None? && u !in s.activeUsers
    ensures Valid(r)
    ensures r.conns.Keys == s.conns.Keys && r.clients == s.clients && r.saved == s.saved
    ensures r.activeUsers == s.activeUsers[u := id]
    ensures r.conns == s.conns[id := s.conns[id].(owner := Some(u))]
  {
    assert forall v :: v in s.activeUsers ==> s.activeUsers[v] != id;
    s.(activeUsers := s.activeUsers[u := id], conns := s.conns[id := s.conns[id].(owner := Some(u))])
  }

  /** Replace-on-admit: evict the user's previous socket, then register the new one. */
  function Admit(s: State, u: UserId, id: ConnId): (r: State)
    requires Valid(s) && id in s.clients && s.conns[id].owner.None?
    ensures Valid(r)
    ensures r.conns.Keys == s.conns.Keys && r.clients == s.clients && r.saved == s.saved
    ensures r.activeUsers == s.activeUsers[u := id]
    ensures u in s.activeUsers ==> r.conns[s.activeUsers[u]] == s.conns[s.activeUsers[u]].(ready := Closing)
    ensures r.conns[id] == s.conns[id].(owner := Some(u))
    ensures forall c :: c in s.conns && c != id && (u in s.activeUsers ==> c != s.activeUsers[u]) ==> r.conns[c] == s.conns[c]
  {
    assert u in s.activeUsers ==> s.activeUsers[u] != id;
    Register(Evict(s, u), u, id)
  }

  /** The `connection` handler: the socket starts alive and tracked; a rejected
      handshake closes it with the verdict's code and reason, an admitted one
      enters the registry. */
  function ConnectStep(s: State, id: ConnId, url: UrlQuery, auth: Auth): (r: State)
    requires Valid(s) && id !in s.conns
    ensures Valid(r)
    ensures r.conns.Keys == s.conns.Keys + {id} && r.clients == s.clients + {id}
    ensures r.conns[id].isAlive && r.conns[id].ready != Closed && r.conns[id].sent == []
    ensures forall c :: c in s.conns ==> r.conns[c].sent == s.conns[c].sent
    ensures r.saved == s.saved
  {
    var s' := s.(conns := s.conns[id := Fresh], clients := s.clients + {id});
    match Validate(url, auth)
    case Reject(code, reason) =>
      s'.(conns := s'.conns[id := Fresh.(ready := Closing, closeFrame := Some(CloseFrame(code, reason)))])
    case Admit(u) => Admit(s', u, id)
  }

  /** The `close` handler: the socket is closed and untracked, and its user's
      entry is deleted only if it still names this socket. */
  function CloseStep(s: State, id: ConnId): (r: State)
    requires Valid(s) && id in s.clients
    ensures Valid(r)
    ensures r.conns.Keys == s.conns.Keys && r.clients == s.clients - {id} && r.saved == s.saved
  {
    var c := s.conns[id];
    var s' := s.(conns := s.conns[id := c.(ready := Closed)], clients := s.clients - {id});
    if c.owner.Some? && c.owner.value in s.activeUsers && s.activeUsers[c.owner.value] == id
    then s'.(activeUsers := s'.activeUsers - {c.owner.value})
    else s'
  }

  // ------------------------------------------------------------------- relay

  /** The `message` handler on the socket of its registered user. */
  function MessageStep(s: State, id: ConnId, data: Parsed, svc: Services): (r: State)
    requires Valid(s) && Enabled(s, Message(id, data, svc))
    ensures Valid(r)
    ensures r.conns.Keys == s.conns.Keys && r.clients == s.clients && r.activeUsers == s.activeUsers
  {
    var sender := s.conns[id].owner.value;
    match RelayPlan(sender, data, svc)
    case Refuse(error) =>
      s.(conns := s.conns[id := Send(s.conns[id], ErrorFrame(error))])
    case Forward(target, body, saved) =>
      var s1 := s.(saved := s.saved + [saved]);
      var s2 :=
        if Online(s1, target) then
          var to := s1.activeUsers[target];
          s1.(conns := s1.conns[to := Send(s1.conns[to], Delivery(sender, body, saved.createdAt))])
        else s1;
      s2.(conns := s2.conns[id := Send(s2.conns[id], Ack(saved))])
  }

  // ---------------------------------------------------------------- liveness

  /** `heartbeat`: the pong handler sets `isAlive`. */
  function PongStep(s: State, id: ConnId): (r: State)
    requires Valid(s) && id in s.clients
    ensures Valid(r)
    ensures r.conns.Keys == s.conns.Keys && r.clients == s.clients && r.activeUsers == s.activeUsers
    ensures r.conns[id].isAlive && r.conns[id].ready == s.conns[id].ready
    ensures forall c :: c in s.conns && c != id ==> r.conns[c] == s.conns[c]
  {
    s.(conns := s.conns[id := s.conns[id].(isAlive := true)])
  }

  /** One client's turn in the sweep: an unconfirmed socket is terminated and not
      pinged; any other is marked unconfirmed and pinged. */
  function SweepConn(c: Conn): (r: Conn)
    ensures r.owner == c.owner && r.sent == c.sent && r.closeFrame == c.closeFrame
    ensures !c.isAlive ==> r.ready != Open && r.pings == c.pings
    ensures c.isAlive ==> !r.isAlive && r.ready == c.ready && (r.pings == c.pings + 1 <==> c.ready == Open)
  {
    if !c.isAlive then Terminate(c) else Ping(c.(isAlive := false))
  }

  /** The interval callback: every tracked client takes its turn. */
  function SweepStep(s: State): (r: State)
    requires Valid(s)
    ensures Valid(r)
    ensures r.conns.Keys == s.conns.Keys && r.clients == s.clients && r.activeUsers == s.activeUsers
  {
    s.(conns := map id | id in s.conns :: if id in s.clients then SweepConn(s.conns[id]) else s.conns[id])
  }

  // ------------------------------------------------------------------ traces

  function Step(s: State, e: Event): (r: State)
    requires Valid(s) && Enabled(s, e)
    ensures Valid(r)
    ensures s.conns.Keys <= r.conns.Keys
  {
    match e
    case Connect(id, url, auth) => ConnectStep(s, id, url, auth)
    case Message(id, data, svc) => MessageStep(s, id, data, svc)
    case Pong(id) => PongStep(s, id)
    case Close(id) => CloseStep(s, id)
    case Tick => SweepStep(s)
  }

  /** Every event of the trace can happen in the state the earlier ones lead to. */
  ghost predicate Admissible(s: State, t: seq<Event>)
    requires Valid(s)
    decreases |t|
  {
    t == [] || (Enabled(s, t[0]) && Admissible(Step(s, t[0]), t[1..]))
  }

  function Run(s: State, t: seq<Event>): (r: State)
    requires Valid(s) && Admissible(s, t)
    ensures Valid(r)
    ensures s.conns.Keys <= r.conns.Keys
    decreases |t|
  {
    if t == [] then s else Run(Step(s, t[0]), t[1..])
  }
}
