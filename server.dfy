/** The chat server: the registry of connected clients kept by the
    message handler, the events a connection's task sends on the channel,
    and the loop that hands received events to the handler.
    Sockets and endpoints are opaque identities; what the server writes to
    a socket is recorded in a log of writes. */
module ChatServer {
  import Channel

  /** An `asio::ip::tcp::endpoint`, as an opaque identity. */
  type Endpoint = int

  /** A connected socket: its own identity and its `remote_endpoint()`. */
  datatype Socket = Socket(id: nat, remote: Endpoint)

  type byte = b: int | 0 <= b < 256

  /** The three events of the `Message` variant. */
  datatype Message =
    | ClientConnected(socket: Socket)
    | ClientDisconnected(endpoint: Endpoint)
    | NewMessage(endpoint: Endpoint, message: seq<byte>)

  /** The greeting written to a newly registered client. */
  const HELLO: string := "Hello, you are now connected to the server..."

  /** One `write_some` of `data` to `socket`. */
  datatype Write = Write(socket: Socket, data: string)

  /** The `Clients` map and the writes made so far. */
  datatype Registry = Registry(clients: map<Endpoint, Socket>, written: seq<Write>)

  // ---------------------------------------------------------------------
  // The three arms of MessageHandler

  /** `ClientConnected`: an endpoint not yet registered is greeted once and
      mapped to its socket; a registered one changes nothing and gets no write. */
  function Connected(reg: Registry, socket: Socket): (r: Registry)
    ensures r.clients.Keys == reg.clients.Keys + {socket.remote}
    ensures forall e :: e in reg.clients ==> r.clients[e] == reg.clients[e]
    ensures socket.remote !in reg.clients ==>
              r.clients[socket.remote] == socket && r.written == reg.written + [Write(socket, HELLO)]
    ensures socket.remote in reg.clients ==> r == reg
  {
    if socket.remote !in reg.clients then
      Registry(reg.clients[socket.remote := socket], reg.written + [Write(socket, HELLO)])
    else reg
  }

  /** `ClientDisconnected`: the endpoint is erased when registered, every
      other entry stays as it was, nothing is written. */
  function Disconnected(reg: Registry, endpoint: Endpoint): (r: Registry)
    ensures r.clients.Keys == reg.clients.Keys - {endpoint}
    ensures forall e :: e in r.clients ==> r.clients[e] == reg.clients[e]
    ensures r.written == reg.written
    ensures endpoint !in reg.clients ==> r == reg
  {
    if endpoint in reg.clients then reg.(clients := reg.clients - {endpoint}) else reg
  }

  /** `std::visit(message_handler, message)`: each event goes to its own
      arm; only a connection writes, and a new message changes nothing. */
  function Dispatch(reg: Registry, msg: Message): (r: Registry)
    ensures msg.NewMessage? ==> r == reg
    ensures msg.ClientConnected? ==> r == Connected(reg, msg.socket)
    ensures msg.ClientDisconnected? ==> r == Disconnected(reg, msg.endpoint)
    ensures !msg.ClientConnected? ==> r.written == reg.written
    ensures msg.ClientConnected? ==> r.clients.Keys == reg.clients.Keys + {msg.socket.remote}
    ensures msg.ClientDisconnected? ==> r.clients.Keys == reg.clients.Keys - {msg.endpoint}
  {
    match msg
    case ClientConnected(socket) => Connected(reg, socket)
    case ClientDisconnected(endpoint) => Disconnected(reg, endpoint)
    case NewMessage(_, _) => reg
  }

  /** Connecting a new endpoint and then disconnecting it gives the map
      back; the greeting stays written. */
  lemma ConnectThenDisconnect(reg: Registry, socket: Socket)
    requires socket.remote !in reg.clients
    ensures Disconnected(Connected(reg, socket), socket.remote).clients == reg.clients
    ensures Disconnected(Connected(reg, socket), socket.remote).written == reg.written + [Write(socket, HELLO)]
  {
    assert reg.clients[socket.remote := socket] - {socket.remote} == reg.clients;
  }

  /** A second connection from a registered endpoint, with any socket, is
      ignored: the first socket stays and no second greeting is written. */
  lemma ConnectIdempotent(reg: Registry, first: Socket, second: Socket)
    requires first.remote == second.remote
    ensures Connected(Connected(reg, first), second) == Connected(reg, first)
  {
  }

  /** Disconnecting twice is disconnecting once. */
  lemma DisconnectIdempotent(reg: Registry, endpoint: Endpoint)
    ensures Disconnected(Disconnected(reg, endpoint), endpoint) == Disconnected(reg, endpoint)
  {
  }

  /** The handler object: the `Clients` map it updates and the writes it made. */
  class MessageHandler {
    var clients: map<Endpoint, Socket>
    var written: seq<Write>

    function Snapshot(): Registry
      reads this
    {
      Registry(clients, written)
    }

    constructor ()
      ensures clients == map[] && written == []
    {
      clients := map[];
      written := [];
    }

    method OnConnected(socket: Socket)
      modifies this
      ensures Snapshot() == Connected(old(Snapshot()), socket)
    {
      if socket.remote !in clients {
        written := written + [Write(socket, HELLO)];
        clients := clients[socket.remote := socket];
      }
    }

    method OnDisconnected(endpoint: Endpoint)
      modifies this
      ensures Snapshot() == Disconnected(old(Snapshot()), endpoint)
    {
      if endpoint in clients {
        clients := clients - {endpoint};
      }
    }

    /** `std::visit`: runs the arm for the event's alternative. */
    method Visit(msg: Message)
      modifies this
      ensures Snapshot() == Dispatch(old(Snapshot()), msg)
    {
      match msg
      case ClientConnected(socket) => OnConnected(socket);
      case ClientDisconnected(endpoint) => OnDisconnected(endpoint);
      case NewMessage(_, _) =>
    }
  }

  // ---------------------------------------------------------------------
  // A connection's task

  /** The events sent for the byte counts `asio::read` returns: nothing for
      a non-zero count, `ClientDisconnected` for the first zero, and nothing
      after it. */
  function ReadEvents(remote: Endpoint, counts: seq<nat>): (r: seq<Message>)
    ensures |r| <= 1
    ensures r != [] ==> r[0] == ClientDisconnected(remote)
    ensures counts != [] && counts[0] == 0 ==> r == [ClientDisconnected(remote)]
    decreases |counts|
  {
    if counts == [] then []
    else if counts[0] == 0 then [ClientDisconnected(remote)]
    else ReadEvents(remote, counts[1..])
  }

  /** Everything `client` sends: `ClientConnected` first, then the read events. */
  function Trace(socket: Socket, counts: seq<nat>): (r: seq<Message>)
    ensures 1 <= |r| <= 2 && r[0] == ClientConnected(socket)
    ensures |r| == 2 ==> r[1] == ClientDisconnected(socket.remote)
  {
    [ClientConnected(socket)] + ReadEvents(socket.remote, counts)
  }

  /** The read events are `ClientDisconnected` alone when some read
      returned 0, and nothing otherwise. */
  lemma {:induction false} ReadEventsShape(remote: Endpoint, counts: seq<nat>)
    ensures ReadEvents(remote, counts) == if 0 in counts then [ClientDisconnected(remote)] else []
    decreases |counts|
  {
    if counts != [] && counts[0] != 0 {
      ReadEventsShape(remote, counts[1..]);
      assert 0 in counts <==> 0 in counts[1..];
    }
  }

  /** A connection first announces itself, sends `ClientDisconnected`
      exactly when a read returns 0, and never sends anything else. */
  lemma TraceShape(socket: Socket, counts: seq<nat>)
    ensures Trace(socket, counts)[0] == ClientConnected(socket)
    ensures |Trace(socket, counts)| == if 0 in counts then 2 else 1
    ensures 0 in counts ==> Trace(socket, counts)[1] == ClientDisconnected(socket.remote)
    ensures forall i :: 0 <= i < |Trace(socket, counts)| ==> !Trace(socket, counts)[i].NewMessage?
  {
    ReadEventsShape(socket.remote, counts);
  }

  /** One more read made by a task that has seen no zero yet. */
  lemma ReadOneMore(socket: Socket, counts: seq<nat>, done: nat)
    requires done < |counts| && 0 !in counts[..done]
    ensures counts[..done + 1] == counts[..done] + [counts[done]]
    ensures counts[done] != 0 ==> Trace(socket, counts[..done + 1]) == Trace(socket, counts[..done])
    ensures counts[done] == 0 ==> Trace(socket, counts[..done + 1]) == Trace(socket, counts[..done]) + [ClientDisconnected(socket.remote)]
  {
    assert counts[..done + 1] == counts[..done] + [counts[done]];
    ReadEventsShape(socket.remote, counts[..done]);
    ReadEventsShape(socket.remote, counts[..done + 1]);
    assert 0 in counts[..done + 1] <==> counts[done] == 0;
  }

  /** `client`: sends `ClientConnected`, reads until a read returns 0,
      sends `ClientDisconnected` and returns, which destroys its Sender.
      `counts` are the byte counts the reads return; `performed` is how
      many reads were made and `finished` whether the task returned. */
  method ClientTask(socket: Socket, sender: Channel.Sender<Message>, counts: seq<nat>)
      returns (performed: nat, finished: bool)
    modifies sender.inner
    ensures performed <= |counts|
    ensures finished <==> 0 in counts
    ensures finished ==> performed > 0 && counts[performed - 1] == 0 && 0 !in counts[..performed - 1]
    ensures !finished ==> performed == |counts|
    ensures var sent := Channel.SendAll(old(sender.inner.Snapshot()), Trace(socket, counts));
            sender.inner.Snapshot() == if finished then Channel.Dropped(sent) else sent
  {
    ghost var st0 := sender.inner.Snapshot();
    sender.Send(ClientConnected(socket));
    assert Trace(socket, counts[..0]) == [ClientConnected(socket)] by {
      ReadEventsShape(socket.remote, counts[..0]);
    }
    assert sender.inner.Snapshot() == Channel.SendAll(st0, [ClientConnected(socket)]);
    performed, finished := 0, false;
    while !finished && performed < |counts|
      invariant performed <= |counts|
      invariant !finished ==> 0 !in counts[..performed]
      invariant finished ==> performed > 0 && counts[performed - 1] == 0 && 0 !in counts[..performed - 1]
      invariant sender.inner.Snapshot() == Channel.SendAll(st0, Trace(socket, counts[..performed]))
      decreases |counts| - performed, !finished
    {
      var n := counts[performed];
      ReadOneMore(socket, counts, performed);
      Channel.SendAllSnoc(st0, Trace(socket, counts[..performed]), ClientDisconnected(socket.remote));
      if n == 0 {
        sender.Send(ClientDisconnected(socket.remote));
        finished := true;
      }
      performed := performed + 1;
    }
    ReadEventsShape(socket.remote, counts[..performed]);
    ReadEventsShape(socket.remote, counts);
    if finished {
      assert counts[..performed] == counts[..performed - 1] + [0];
      assert 0 in counts by { assert counts[performed - 1] == 0; }
      var _ := sender.Drop();
    } else {
      assert counts[..performed] == counts;
    }
  }

  // ---------------------------------------------------------------------
  // The server loop

  /** `rounds` turns of `server`'s loop: each `recv` that hands out an event
      dispatches it; Closed and a wait leave the registry as it was. */
  function Serve(st: Channel.State<Message>, reg: Registry, rounds: nat): (r: (Channel.State<Message>, Registry))
    ensures r.0.senders == st.senders
    ensures reg.written <= r.1.written
    decreases rounds
  {
    if rounds == 0 then (st, reg)
    else
      var (got, next) := Channel.Take(st);
      Serve(next, if got.Item? then Dispatch(reg, got.value) else reg, rounds - 1)
  }

  /** With nothing queued the loop changes nothing, however long it runs. */
  lemma {:induction false} ServeIdle(st: Channel.State<Message>, reg: Registry, rounds: nat)
    requires st.queue == []
    ensures Serve(st, reg, rounds) == (st, reg)
    decreases rounds
  {
    if rounds > 0 {
      ServeIdle(st, reg, rounds - 1);
    }
  }

  /** Handing the events to the handler one after another, in order. */
  function DispatchAll(reg: Registry, msgs: seq<Message>): Registry
    decreases |msgs|
  {
    if msgs == [] then reg else DispatchAll(Dispatch(reg, msgs[0]), msgs[1..])
  }

  /** Every write made so far is the whole greeting. */
  predicate OnlyGreetings(reg: Registry) {
    forall i :: 0 <= i < |reg.written| ==> reg.written[i].data == HELLO
  }

  /** The server writes nothing but the greeting, all of its 45 characters
      at once, however many events it handles. */
  lemma {:induction false} OnlyGreetingsWritten(reg: Registry, msgs: seq<Message>)
    requires OnlyGreetings(reg)
    ensures OnlyGreetings(DispatchAll(reg, msgs))
    ensures |HELLO| == 45
    decreases |msgs|
  {
    if msgs != [] {
      OnlyGreetingsWritten(Dispatch(reg, msgs[0]), msgs[1..]);
    }
  }

  /** Serving as many rounds as there are queued events dispatches them all,
      front first, and empties the queue. */
  lemma {:induction false} ServeQueued(st: Channel.State<Message>, reg: Registry)
    ensures Serve(st, reg, |st.queue|) == (Channel.State([], st.senders), DispatchAll(reg, st.queue))
    decreases |st.queue|
  {
    if st.queue != [] {
      var next := Channel.State(st.queue[1..], st.senders);
      ServeQueued(next, Dispatch(reg, st.queue[0]));
    }
  }

  /** Because the channel hands out the latest event first, a client whose
      connection and disconnection are both queued before the server runs
      is registered after both are handled: the disconnection is handled
      first, finds nothing, and the connection then adds a stale entry. */
  lemma StaleEntryAfterQuickDisconnect(st: Channel.State<Message>, reg: Registry, socket: Socket, counts: seq<nat>)
    requires st.queue == [] && socket.remote !in reg.clients && 0 in counts
    ensures Serve(Channel.SendAll(st, Trace(socket, counts)), reg, 2).1.clients == reg.clients[socket.remote := socket]
  {
    ReadEventsShape(socket.remote, counts);
    var events := Trace(socket, counts);
    assert events == [ClientConnected(socket), ClientDisconnected(socket.remote)];
    var queued := Channel.SendAll(st, events);
    Channel.SendAllQueue(st, events);
    assert queued.queue == [ClientDisconnected(socket.remote), ClientConnected(socket)];
    ServeQueued(queued, reg);
  }

  /** `server`: a fresh handler over an empty map, then `rounds` turns of the loop. */
  method Server(receiver: Channel.Receiver<Message>, rounds: nat) returns (handler: MessageHandler)
    modifies receiver.inner
    ensures fresh(handler)
    ensures (receiver.inner.Snapshot(), handler.Snapshot()) ==
            Serve(old(receiver.inner.Snapshot()), Registry(map[], []), rounds)
  {
    handler := new MessageHandler();
    ghost var total := Serve(receiver.inner.Snapshot(), handler.Snapshot(), rounds);
    var left := rounds;
    while left > 0
      invariant Serve(receiver.inner.Snapshot(), handler.Snapshot(), left) == total
      decreases left
    {
      var message := receiver.Recv();
      if message.Item? {
        handler.Visit(message.value);
      }
      left := left - 1;
    }
  }
}
