/** What the connection manager promises, stated over the state machine of
    module Server: the handshake gate, single active connection per user,
    race-free removal, the relay's authorization gate and delivery rules,
    durability of acknowledged messages, and the two-tick liveness grace. */
module Guarantees {
  import opened Common
  import opened Gates
  import opened Handshake
  import opened Relay
  import opened Liveness
  import opened Server

  // --------------------------------------------------------------- handshake

  /** A rejected handshake closes the new socket with the verdict's 1008 code and
      reason, attaches no `message` or `close` handler and leaves the registry and every other socket alone. */
  lemma RejectedHandshakeRegistersNothing(s: State, id: ConnId, url: UrlQuery, auth: Auth)
    requires Valid(s) && id !in s.conns
    requires Validate(url, auth).Reject?
    ensures var r, v := ConnectStep(s, id, url, auth), Validate(url, auth);
      && r.activeUsers == s.activeUsers
      && r.saved == s.saved
      && r.conns[id].owner.None?
      && r.conns[id].ready == Closing
      && r.conns[id].closeFrame == Some(CloseFrame(PolicyViolation, v.reason))
      && (forall c :: c in s.conns ==> r.conns[c] == s.conns[c])
  {
  }

  /** The registry changes on a connection only when every handshake check passed. */
  lemma RegistryChangesOnlyOnAdmission(s: State, id: ConnId, url: UrlQuery, auth: Auth)
    requires Valid(s) && id !in s.conns
    requires ConnectStep(s, id, url, auth).activeUsers != s.activeUsers
    ensures FirstFailure(HandshakeChecks(url, auth)).None?
  {
    if FirstFailure(HandshakeChecks(url, auth)).Some? {
      HandshakeFollowsPolicy(url, auth);
      RejectedHandshakeRegistersNothing(s, id, url, auth);
    }
  }

  /** Replace-on-admit: the user now maps to the new socket, its previous socket
      is terminated, and every other user's entry and socket is unchanged. */
  lemma AdmissionReplacesPrevious(s: State, id: ConnId, url: UrlQuery, auth: Auth)
    requires Valid(s) && id !in s.conns
    requires Validate(url, auth).Admit?
    ensures var r, u := ConnectStep(s, id, url, auth), Validate(url, auth).userId;
      && r.activeUsers.Keys == s.activeUsers.Keys + {u}
      && r.activeUsers[u] == id
      && r.conns[id].owner == Some(u) && r.conns[id].ready == Open && r.conns[id].isAlive
      && (forall v :: v in s.activeUsers && v != u ==> r.activeUsers[v] == s.activeUsers[v])
      && (u in s.activeUsers ==> r.conns[s.activeUsers[u]] == s.conns[s.activeUsers[u]].(ready := Closing))
      && (forall c :: c in s.conns && (u in s.activeUsers ==> c != s.activeUsers[u]) ==> r.conns[c] == s.conns[c])
  {
  }

  /** No socket is registered for two users. */
  lemma RegistryIsInjective(s: State, u: UserId, v: UserId)
    requires Valid(s) && u in s.activeUsers && v in s.activeUsers && u != v
    ensures s.activeUsers[u] != s.activeUsers[v]
  {
  }

  // ------------------------------------------------------------------- close

  /** The close handler removes the user's entry exactly when it names the closing
      socket; a stale close of a replaced socket leaves the registry unchanged. */
  lemma CloseRemovesOnlyCurrent(s: State, id: ConnId)
    requires Valid(s) && id in s.clients
    ensures var r, c := CloseStep(s, id), s.conns[id];
      && r.conns[id].ready == Closed
      && (c.owner.Some? && c.owner.value in s.activeUsers && s.activeUsers[c.owner.value] == id ==>
            r.activeUsers == s.activeUsers - {c.owner.value})
      && (c.owner.None? || c.owner.value !in s.activeUsers || s.activeUsers[c.owner.value] != id ==>
            r.activeUsers == s.activeUsers)
  {
  }

  /** Socket `c` belongs to a user whose entry no longer names it: its close
      event must not touch the registry. */
  ghost predicate Stale(s: State, c: ConnId) {
    && c in s.conns
    && s.conns[c].owner.Some?
    && (s.conns[c].owner.value in s.activeUsers ==> s.activeUsers[s.conns[c].owner.value] != c)
  }

  /** Replacing a user's socket makes the old one stale. */
  lemma ReplacementMakesStale(s: State, id: ConnId, url: UrlQuery, auth: Auth)
    requires Valid(s) && id !in s.conns
    requires Validate(url, auth).Admit? && Validate(url, auth).userId in s.activeUsers
    ensures Stale(ConnectStep(s, id, url, auth), s.activeUsers[Validate(url, auth).userId])
  {
    AdmissionReplacesPrevious(s, id, url, auth);
  }

  /** No event makes a stale socket current again: only a fresh socket is ever registered. */
  lemma StepKeepsStale(s: State, e: Event, c: ConnId)
    requires Valid(s) && Enabled(s, e) && Stale(s, c)
    ensures Stale(Step(s, e), c)
  {
    match e
    case Connect(id, url, auth) =>
      if Validate(url, auth).Admit? {
        AdmissionReplacesPrevious(s, id, url, auth);
      } else {
        RejectedHandshakeRegistersNothing(s, id, url, auth);
      }
    case Message(id, data, svc) =>
      if RelayPlan(s.conns[id].owner.value, data, svc).Forward? {
        ForwardedMessageIsStoredAndAcknowledged(s, id, data, svc);
      } else {
        RefusedMessageAnswersSenderOnly(s, id, data, svc);
      }
    case Close(id) =>
      CloseRemovesOnlyCurrent(s, id);
    case _ =>
  }

  /** Race-free removal along any trace: once a socket is stale it stays stale,
      so its eventual close event leaves the registry exactly as it was. */
  lemma {:induction false} StaleCloseIsIgnored(s: State, t: seq<Event>, c: ConnId)
    requires Valid(s) && Admissible(s, t) && Stale(s, c)
    ensures Stale(Run(s, t), c)
    ensures c in Run(s, t).clients ==> CloseStep(Run(s, t), c).activeUsers == Run(s, t).activeUsers
    decreases |t|
  {
    if t != [] {
      StepKeepsStale(s, t[0], c);
      StaleCloseIsIgnored(Step(s, t[0]), t[1..], c);
    } else if c in s.clients {
      CloseRemovesOnlyCurrent(s, c);
    }
  }

  // ------------------------------------------------------------------- relay

  /** A refused message answers the sender alone: nothing is stored, no other
      socket receives anything, and the sender stays registered. */
  lemma RefusedMessageAnswersSenderOnly(s: State, id: ConnId, data: Parsed, svc: Services)
    requires Valid(s) && Enabled(s, Message(id, data, svc))
    requires RelayPlan(s.conns[id].owner.value, data, svc).Refuse?
    ensures var r, p := MessageStep(s, id, data, svc), RelayPlan(s.conns[id].owner.value, data, svc);
      && r.saved == s.saved
      && r.activeUsers == s.activeUsers
      && r.conns[id] == s.conns[id].(sent := s.conns[id].sent + [ErrorFrame(p.error)])
      && (forall c :: c in s.conns && c != id ==> r.conns[c] == s.conns[c])
  {
  }

  /** A forwarded message is stored first; the recipient's socket gets the
      delivery frame exactly when the recipient is registered on an open socket;
      the sender is acknowledged with the stored record either way; no other
      socket is touched. */
  lemma ForwardedMessageIsStoredAndAcknowledged(s: State, id: ConnId, data: Parsed, svc: Services)
    requires Valid(s) && Enabled(s, Message(id, data, svc))
    requires RelayPlan(s.conns[id].owner.value, data, svc).Forward?
    ensures var sender := s.conns[id].owner.value;
      var r, p := MessageStep(s, id, data, svc), RelayPlan(sender, data, svc);
      && r.saved == s.saved + [p.saved]
      && r.activeUsers == s.activeUsers
      && (forall c :: c in s.conns ==> r.conns[c] == s.conns[c].(sent := r.conns[c].sent))
      && (forall c :: c in s.conns ==>
            r.conns[c].sent == s.conns[c].sent
              + (if Online(s, p.target) && c == s.activeUsers[p.target]
                 then [Delivery(sender, p.body, p.saved.createdAt)] else [])
              + (if c == id then [Ack(p.saved)] else []))
  {
    var sender := s.conns[id].owner.value;
    var p := RelayPlan(sender, data, svc);
    var s1 := s.(saved := s.saved + [p.saved]);
    assert Online(s1, p.target) == Online(s, p.target);
  }

  /** The authorization gate: unless the relationship collaborator answered
      "friends" for this sender and the requested target, nothing is stored and
      only the sender receives a frame, an error. */
  lemma NoFriendshipNoRelay(s: State, id: ConnId, data: Parsed, svc: Services)
    requires Valid(s) && Enabled(s, Message(id, data, svc))
    requires svc.checkFriendship(s.conns[id].owner.value, Target(data)) != Returns(true)
    ensures var r := MessageStep(s, id, data, svc);
      && r.saved == s.saved
      && (forall c :: c in s.conns && c != id ==> r.conns[c] == s.conns[c])
      && |r.conns[id].sent| == |s.conns[id].sent| + 1
      && r.conns[id].sent[|s.conns[id].sent|].ErrorFrame?
  {
    RelayFollowsPolicy(s.conns[id].owner.value, data, svc);
    RefusedMessageAnswersSenderOnly(s, id, data, svc);
  }

  /** Every acknowledgement ever sent carries a record the store returned, and
      every delivery frame carries the timestamp of such a record. */
  ghost predicate Durable(s: State) {
    forall c, k :: c in s.conns && 0 <= k < |s.conns[c].sent| ==>
      match s.conns[c].sent[k]
      case Ack(m) => m in s.saved
      case Delivery(_, _, time) => exists m :: m in s.saved && m.createdAt == time
      case ErrorFrame(_) => true
  }

  /** A step that sends no acknowledgement or delivery and forgets no record keeps durability. */
  lemma QuietStepKeepsDurable(s: State, r: State)
    requires Durable(s) && s.saved <= r.saved
    requires forall c :: c in r.conns ==> r.conns[c].sent == if c in s.conns then s.conns[c].sent else []
    ensures Durable(r)
  {
    forall c, k | c in r.conns && 0 <= k < |r.conns[c].sent|
      ensures match r.conns[c].sent[k]
        case Ack(m) => m in r.saved
        case Delivery(_, _, time) => exists m :: m in r.saved && m.createdAt == time
        case ErrorFrame(_) => true
    {
      assert r.conns[c].sent[k] == s.conns[c].sent[k];
      match r.conns[c].sent[k]
      case Ack(m) => assert m in s.saved;
      case Delivery(_, _, time) =>
        var m :| m in s.saved && m.createdAt == time;
        assert m in r.saved;
      case ErrorFrame(_) =>
    }
  }

  lemma MessageKeepsDurable(s: State, id: ConnId, data: Parsed, svc: Services)
    requires Valid(s) && Enabled(s, Message(id, data, svc)) && Durable(s)
    ensures Durable(MessageStep(s, id, data, svc))
  {
    var r := MessageStep(s, id, data, svc);
    var p := RelayPlan(s.conns[id].owner.value, data, svc);
    if p.Refuse? {
      RefusedMessageAnswersSenderOnly(s, id, data, svc);
    } else {
      ForwardedMessageIsStoredAndAcknowledged(s, id, data, svc);
    }
    forall c, k | c in r.conns && 0 <= k < |r.conns[c].sent|
      ensures match r.conns[c].sent[k]
        case Ack(m) => m in r.saved
        case Delivery(_, _, time) => exists m :: m in r.saved && m.createdAt == time
        case ErrorFrame(_) => true
    {
      if k < |s.conns[c].sent| {
        assert r.conns[c].sent[k] == s.conns[c].sent[k];
        match r.conns[c].sent[k]
        case Ack(m) => assert m in s.saved;
        case Delivery(_, _, time) =>
          var m :| m in s.saved && m.createdAt == time;
          assert m in r.saved;
        case ErrorFrame(_) =>
      } else if p.Forward? {
        assert p.saved in r.saved;
      }
    }
  }

  lemma StepKeepsDurable(s: State, e: Event)
    requires Valid(s) && Enabled(s, e) && Durable(s)
    ensures Durable(Step(s, e))
  {
    match e
    case Message(id, data, svc) =>
      MessageKeepsDurable(s, id, data, svc);
    case Connect(id, url, auth) =>
      QuietStepKeepsDurable(s, Step(s, e));
    case Pong(id) =>
      QuietStepKeepsDurable(s, Step(s, e));
    case Close(id) =>
      QuietStepKeepsDurable(s, Step(s, e));
    case Tick =>
      QuietStepKeepsDurable(s, Step(s, e));
  }

  /** Durability before delivery holds along every trace. */
  lemma {:induction false} RunKeepsDurable(s: State, t: seq<Event>)
    requires Valid(s) && Admissible(s, t) && Durable(s)
    ensures Durable(Run(s, t))
    decreases |t|
  {
    if t != [] {
      StepKeepsDurable(s, t[0]);
      RunKeepsDurable(Step(s, t[0]), t[1..]);
    }
  }

  // ---------------------------------------------------------------- liveness

  /** One sweep: an unconfirmed client is terminated without a ping; any other
      client is marked unconfirmed and pinged (if open), keeping its ready state. */
  lemma SweepReapsOnlyUnconfirmed(s: State, c: ConnId)
    requires Valid(s) && c in s.clients
    ensures var before, after := s.conns[c], SweepStep(s).conns[c];
      && (!before.isAlive ==> after.ready == Closing && after.pings == before.pings)
      && (before.isAlive ==>
            && !after.isAlive
            && after.ready == before.ready
            && after.pings == before.pings + (if before.ready == Open then 1 else 0))
  {
  }

  /** The liveness phase of a socket the server has seen. */
  function PhaseOf(s: State, c: ConnId): Phase
    requires c in s.conns
  {
    if s.conns[c].ready != Open then Down
    else if s.conns[c].isAlive then Alive
    else Unconfirmed
  }

  /** What an event means to the liveness of socket `c`. */
  function BeatOf(e: Event, c: ConnId): Option<Beat> {
    match e
    case Tick => Some(Probe)
    case Pong(id) => if id == c then Some(Answer) else None
    case _ => None
  }

  function Beats(t: seq<Event>, c: ConnId): seq<Beat>
    decreases |t|
  {
    if t == [] then []
    else (match BeatOf(t[0], c) case Some(b) => [b] case None => []) + Beats(t[1..], c)
  }

  /** The event neither closes `c` nor admits another socket for `c`'s user,
      the two other ways a socket stops being open. */
  predicate Undisturbed(e: Event, c: ConnId, owner: Option<UserId>) {
    match e
    case Close(id) => id != c
    case Connect(_, url, auth) =>
      var v := Validate(url, auth);
      !(v.Admit? && owner == Some(v.userId))
    case _ => true
  }

  /** Every event changes the liveness of `c` as the two-tick machine prescribes. */
  lemma StepFollowsLiveness(s: State, e: Event, c: ConnId)
    requires Valid(s) && Enabled(s, e) && c in s.conns
    requires Undisturbed(e, c, s.conns[c].owner)
    ensures c in Step(s, e).conns && Step(s, e).conns[c].owner == s.conns[c].owner
    ensures PhaseOf(Step(s, e), c) ==
      match BeatOf(e, c) case None => PhaseOf(s, c) case Some(b) => LiveStep(PhaseOf(s, c), b)
  {
    match e
    case Connect(id, url, auth) =>
      if Validate(url, auth).Admit? {
        AdmissionReplacesPrevious(s, id, url, auth);
      }
    case Message(id, data, svc) =>
      var p := RelayPlan(s.conns[id].owner.value, data, svc);
      if p.Forward? {
        ForwardedMessageIsStoredAndAcknowledged(s, id, data, svc);
      } else {
        RefusedMessageAnswersSenderOnly(s, id, data, svc);
      }
    case _ =>
  }

  /** Along a trace that leaves `c` undisturbed, its liveness is the two-tick
      machine run on the sweeps and on `c`'s own pongs. */
  lemma {:induction false} RunFollowsLiveness(s: State, t: seq<Event>, c: ConnId)
    requires Valid(s) && Admissible(s, t) && c in s.conns
    requires forall i :: 0 <= i < |t| ==> Undisturbed(t[i], c, s.conns[c].owner)
    ensures c in Run(s, t).conns && Run(s, t).conns[c].owner == s.conns[c].owner
    ensures PhaseOf(Run(s, t), c) == LiveRun(PhaseOf(s, c), Beats(t, c))
    decreases |t|
  {
    if t != [] {
      var s1 := Step(s, t[0]);
      StepFollowsLiveness(s, t[0], c);
      forall i | 0 <= i < |t[1..]| ensures Undisturbed(t[1..][i], c, s1.conns[c].owner) {
        assert t[1..][i] == t[i + 1];
      }
      RunFollowsLiveness(s1, t[1..], c);
      match BeatOf(t[0], c)
      case None =>
        assert Beats(t, c) == Beats(t[1..], c);
      case Some(b) =>
        assert ([b] + Beats(t[1..], c))[1..] == Beats(t[1..], c);
    }
  }

  /** Two-tick grace: a socket that is open and alive, along any trace that
      neither closes it nor replaces it, stops being open exactly when two sweeps
      follow each other with no pong from it in between. */
  lemma ReapedOnlyAfterTwoMissedSweeps(s: State, t: seq<Event>, c: ConnId)
    requires Valid(s) && Admissible(s, t) && c in s.conns
    requires s.conns[c].ready == Open && s.conns[c].isAlive
    requires forall i :: 0 <= i < |t| ==> Undisturbed(t[i], c, s.conns[c].owner)
    ensures c in Run(s, t).conns
    ensures Run(s, t).conns[c].ready != Open <==> MissedTwice(Beats(t, c))
  {
    RunFollowsLiveness(s, t, c);
    DownIffMissedTwice(Beats(t, c));
  }
}
