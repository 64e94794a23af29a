/** The application shell: the set of live WebSocket clients and the
    `broadcastData` fan-out, the fallback route, the last-resort error handler,
    and the server object the request handlers act on. The WebSocket and HTTP
    libraries themselves are not modelled: a socket is a client id with a
    ready state, and `send` appends to that socket's outbox. */
module App {
  import opened Common
  import opened Readings
  import opened Messages

  type ClientId = nat

  /** `WebSocket.readyState`. */
  datatype ReadyState = Connecting | Open | Closing | Closed

  /** Ready state of a socket; a socket never seen counts as closed. */
  function StateIn(readyState: map<ClientId, ReadyState>, c: ClientId): ReadyState
  {
    if c in readyState then readyState[c] else Closed
  }

  /** Everything `send` has delivered to a socket, in order. */
  function Inbox(outbox: map<ClientId, seq<Event>>, c: ClientId): seq<Event>
  {
    if c in outbox then outbox[c] else []
  }

  /** Between two outbox states, every member of `clients` whose state is
      OPEN received `events` in order, and no other socket received
      anything. */
  ghost predicate Delivered(before: map<ClientId, seq<Event>>, after: map<ClientId, seq<Event>>,
                            clients: set<ClientId>, readyState: map<ClientId, ReadyState>,
                            events: seq<Event>)
  {
    forall c :: Inbox(after, c) ==
      Inbox(before, c) + (if c in clients && StateIn(readyState, c) == Open then events else [])
  }

  /** Delivering nothing leaves every inbox as it was. */
  lemma DeliveredNothing(o: map<ClientId, seq<Event>>, clients: set<ClientId>,
                         readyState: map<ClientId, ReadyState>)
    ensures Delivered(o, o, clients, readyState, [])
  {
    forall c ensures Inbox(o, c) == Inbox(o, c) + [] {
      assert Inbox(o, c) + [] == Inbox(o, c);
    }
  }

  /** Two deliveries to the same members in the same states are one delivery
      of both event lists, in order. */
  lemma DeliveredThen(o0: map<ClientId, seq<Event>>, o1: map<ClientId, seq<Event>>,
                      o2: map<ClientId, seq<Event>>, clients: set<ClientId>,
                      readyState: map<ClientId, ReadyState>, e1: seq<Event>, e2: seq<Event>)
    requires Delivered(o0, o1, clients, readyState, e1)
    requires Delivered(o1, o2, clients, readyState, e2)
    ensures Delivered(o0, o2, clients, readyState, e1 + e2)
  {
    forall c ensures Inbox(o2, c) ==
      Inbox(o0, c) + (if c in clients && StateIn(readyState, c) == Open then e1 + e2 else [])
    {
      assert Inbox(o1, c) == Inbox(o0, c) + (if c in clients && StateIn(readyState, c) == Open then e1 else []);
    }
  }

  /** `activeClients` and the sockets it refers to. */
  class Hub {
    var clients: set<ClientId>
    var readyState: map<ClientId, ReadyState>
    var outbox: map<ClientId, seq<Event>>

    constructor()
      ensures clients == {} && readyState == map[] && outbox == map[]
    {
      clients := {};
      readyState := map[];
      outbox := map[];
    }

    /** `wss.on('connection')`: the new socket, already open, joins the set. */
    method Connect(c: ClientId)
      modifies this
      ensures clients == old(clients) + {c}
      ensures readyState == old(readyState)[c := Open]
      ensures outbox == old(outbox)
    {
      clients := clients + {c};
      readyState := readyState[c := Open];
    }

    /** `ws.on('close')`: the socket is closed and leaves the set; closing a
        socket that is not in the set leaves the set as it was. */
    method Disconnect(c: ClientId)
      modifies this
      ensures clients == old(clients) - {c}
      ensures c !in old(clients) ==> clients == old(clients)
      ensures readyState == old(readyState)[c := Closed]
      ensures outbox == old(outbox)
    {
      clients := clients - {c};
      readyState := readyState[c := Closed];
    }

    /** A socket changes ready state on its own (closing handshake, network);
        the set is not touched until its close event. */
    method SetReadyState(c: ClientId, s: ReadyState)
      modifies this
      ensures readyState == old(readyState)[c := s]
      ensures clients == old(clients) && outbox == old(outbox)
    {
      readyState := readyState[c := s];
    }

    /** `broadcastData(data)`: one send to each member whose state is OPEN,
        none to anyone else; members are neither added nor removed. */
    method Broadcast(ev: Event)
      modifies this
      ensures clients == old(clients) && readyState == old(readyState)
      ensures Delivered(old(outbox), outbox, clients, readyState, [ev])
    {
      var pending := clients;
      while pending != {}
        invariant pending <= clients
        invariant clients == old(clients) && readyState == old(readyState)
        invariant forall c :: (Inbox(outbox, c) ==
          Inbox(old(outbox), c) + (if c in clients - pending && StateIn(readyState, c) == Open then [ev] else []))
        decreases pending
      {
        var c :| c in pending;
        if StateIn(readyState, c) == Open {
          outbox := outbox[c := Inbox(outbox, c) + [ev]];
        }
        pending := pending - {c};
      }
    }
  }

  /** What the fallback middleware does with a request path. */
  datatype FallbackAction = PassToNext | SendIndexHtml

  /** Paths starting with `/api` go on to the next handler; every other path
      gets the dashboard's index.html. */
  function Fallback(path: string): (a: FallbackAction)
    ensures a == PassToNext <==> |path| >= 4 && path[..4] == "/api"
  {
    if StartsWith(path, "/api") then PassToNext else SendIndexHtml
  }

  /** The prefix test also lets through paths that only look like the API
      prefix, and sends the root to the dashboard. */
  lemma FallbackExamples()
    ensures Fallback("/api/leitura") == PassToNext
    ensures Fallback("/apidocs") == PassToNext
    ensures Fallback("/") == SendIndexHtml
    ensures Fallback("/dashboard/api") == SendIndexHtml
  {
    assert "/api/leitura"[..4] == "/api";
    assert "/apidocs"[..4] == "/api";
    assert "/dashboard/api"[1] != "/api"[1];
  }

  /** The error-handling middleware: whatever the error, 500 'Falha interna'. */
  function HandleUncaught<E>(err: E): (r: Reply)
    ensures r.status == 500 && r.body == FalhaInterna
  {
    Reply(500, FalhaInterna)
  }

  /** The running server: the table the routes write, the live hub, and the
      trace of side effects performed by requests so far. */
  class Server {
    const table: Table
    const hub: Hub
    var trace: seq<Effect>

    ghost predicate Valid()
      reads table
    {
      table.Valid()
    }

    constructor()
      ensures Valid() && fresh(table) && fresh(hub)
      ensures table.rows == [] && hub.clients == {} && trace == []
    {
      table := new Table();
      hub := new Hub();
      trace := [];
    }

    /** `req.app.locals.broadcastData(ev)`, recorded in the trace. */
    method BroadcastData(ev: Event)
      modifies this, hub
      ensures trace == old(trace) + [Broadcast(ev)]
      ensures hub.clients == old(hub.clients) && hub.readyState == old(hub.readyState)
      ensures Delivered(old(hub.outbox), hub.outbox, hub.clients, hub.readyState, [ev])
    {
      hub.Broadcast(ev);
      trace := trace + [Broadcast(ev)];
    }
  }
}
