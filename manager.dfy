/** The WebSocket manager as the source runs it: the module-level `activeUsers`
    map and the sockets' fields updated in place by the event handlers. Each
    handler is proved to have exactly the effect of the matching step of the
    state machine in module Server, so every guarantee proved there holds of it. */
module Manager {
  import opened Common
  import opened Handshake
  import opened Relay
  import Server

  class ConnectionManager {
    /** `activeUsers`: user id to the socket registered for it. */
    var activeUsers: map<UserId, ConnId>
    /** The state of every socket the server has handed to the connection handler. */
    var conns: map<ConnId, Server.Conn>
    /** `wss.clients`: the sockets the server still tracks. */
    var clients: set<ConnId>
    /** The records `messageService.sendMessage` returned, in order. */
    var saved: seq<StoredMessage>

    function State(): Server.State
      reads this
    {
      Server.State(activeUsers, conns, clients, saved)
    }

    ghost predicate Valid()
      reads this
    {
      Server.Valid(State())
    }

    constructor ()
      ensures Valid() && State() == Server.Initial()
    {
      activeUsers, conns, clients, saved := map[], map[], {}, [];
    }

    /** The `connection` handler. */
    method OnConnection(id: ConnId, url: UrlQuery, auth: Auth)
      requires Valid() && id !in conns
      modifies this
      ensures State() == Server.ConnectStep(old(State()), id, url, auth)
      ensures Valid()
    {
      ghost var before := State();
      conns := conns[id := Server.Fresh];
      clients := clients + {id};
      ghost var tracked := State();
      assert tracked == before.(conns := before.conns[id := Server.Fresh], clients := before.clients + {id});
      var verdict := Validate(url, auth);
      if verdict.Reject? {
        conns := conns[id := conns[id].(ready := Server.Closing,
                                        closeFrame := Some(Server.CloseFrame(verdict.code, verdict.reason)))];
        return;
      }
      var userId := verdict.userId;
      if userId in activeUsers {
        var oldConnection := activeUsers[userId];
        activeUsers := activeUsers - {userId};
        conns := conns[oldConnection := Server.Terminate(conns[oldConnection])];
      }
      activeUsers := activeUsers[userId := id];
      conns := conns[id := conns[id].(owner := Some(userId))];
      assert State() == Server.Admit(tracked, userId, id);
    }

    /** The `message` handler of the socket `id`. */
    method OnMessage(id: ConnId, data: Parsed, svc: Services)
      requires Valid() && Server.Enabled(State(), Server.Message(id, data, svc))
      modifies this
      ensures State() == Server.MessageStep(old(State()), id, data, svc)
      ensures Valid()
    {
      var userId := conns[id].owner.value;
      var plan := RelayPlan(userId, data, svc);
      if plan.Refuse? {
        conns := conns[id := Server.Send(conns[id], ErrorFrame(plan.error))];
        return;
      }
      saved := saved + [plan.saved];
      if plan.target in activeUsers && conns[activeUsers[plan.target]].ready == Server.Open {
        var targetUser := activeUsers[plan.target];
        conns := conns[targetUser := Server.Send(conns[targetUser],
                                                 Delivery(userId, plan.body, plan.saved.createdAt))];
      }
      conns := conns[id := Server.Send(conns[id], Ack(plan.saved))];
    }

    /** The `close` handler of the socket `id`, after the server stops tracking it. */
    method OnClose(id: ConnId)
      requires Valid() && id in clients
      modifies this
      ensures State() == Server.CloseStep(old(State()), id)
      ensures Valid()
    {
      var ws := conns[id];
      conns := conns[id := ws.(ready := Server.Closed)];
      clients := clients - {id};
      if ws.owner.Some? && ws.owner.value in activeUsers && activeUsers[ws.owner.value] == id {
        activeUsers := activeUsers - {ws.owner.value};
      }
    }

    /** `heartbeat`, the `pong` handler of the socket `id`. */
    method Heartbeat(id: ConnId)
      requires Valid() && id in clients
      modifies this
      ensures State() == Server.PongStep(old(State()), id)
      ensures Valid()
    {
      conns := conns[id := conns[id].(isAlive := true)];
    }

    /** The interval callback: `wss.clients.forEach` terminating the unconfirmed
        and pinging the rest. */
    method Sweep()
      requires Valid()
      modifies this
      ensures State() == Server.SweepStep(old(State()))
      ensures Valid()
    {
      var pending := clients;
      while pending != {}
        invariant pending <= clients
        invariant activeUsers == old(activeUsers) && clients == old(clients) && saved == old(saved)
        invariant conns.Keys == old(conns).Keys
        invariant forall c :: c in conns ==>
          conns[c] == if c in clients - pending then Server.SweepConn(old(conns)[c]) else old(conns)[c]
        decreases pending
      {
        var id :| id in pending;
        var ws := conns[id];
        if !ws.isAlive {
          conns := conns[id := Server.Terminate(ws)];
        } else {
          conns := conns[id := Server.Ping(ws.(isAlive := false))];
        }
        pending := pending - {id};
      }
      assert conns == map c | c in old(conns) :: if c in clients then Server.SweepConn(old(conns)[c]) else old(conns)[c];
    }
  }
}
