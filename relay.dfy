/**
  The relay server (server/src/index.ts): on every connection it registers
  three handlers. `client-ready` asks every other connection for its canvas
  state, `clear` is echoed to every connection, and a disconnect announces the
  departure to the remaining connections. The server keeps no canvas or chat
  state: what it emits depends only on the event name, the sender and the
  current connection set.

  socket.io removes a socket from its namespace before running the socket's
  `disconnect` handler, so `io.emit` inside that handler does not reach the
  leaving connection.
*/
module Relay {
  import opened Wrappers
  import SocketTypes

  /** A socket.io connection id. */
  type ConnId = nat

  const ClientReady: string := "client-ready"
  const GetCanvasState: string := "get-canvas-state"
  const ClearEvent: string := "clear"
  const UserLeft: string := "A user has left"

  /** One emission: who receives it, the event name and the optional payload. */
  datatype Emit = Emit(recipients: set<ConnId>, event: string, payload: Option<string>)

  /** What reaches the server from the transport. */
  datatype ServerEvent =
    | Connect(id: ConnId)
    | Message(sender: ConnId, event: string)
    | Disconnect(id: ConnId)

  /** The live connection set and everything emitted so far. */
  datatype Server = Server(connections: set<ConnId>, outbox: seq<Emit>)

  const Initial: Server := Server({}, [])

  /**
    The handler a message from `sender` reaches: `client-ready` becomes
    `socket.broadcast.emit("get-canvas-state")`, `clear` becomes
    `io.emit("clear")`, and any other name has no handler.
  */
  function Route(connections: set<ConnId>, sender: ConnId, event: string): (r: Option<Emit>)
    ensures r.Some? <==> event == ClientReady || event == ClearEvent
    ensures r.Some? ==> r.value.recipients <= connections && r.value.payload.None?
    ensures r.Some? ==> forall c :: c in connections && c != sender ==> c in r.value.recipients
    ensures r.Some? && sender in connections ==> (sender in r.value.recipients <==> event == ClearEvent)
    ensures event == ClientReady ==> r.Some? && r.value.event == GetCanvasState
    ensures event == ClearEvent ==> r.Some? && r.value.event == ClearEvent
  {
    if event == ClientReady then Some(Emit(connections - {sender}, GetCanvasState, None))
    else if event == ClearEvent then Some(Emit(connections, ClearEvent, None))
    else None
  }

  /**
    The disconnect handler's `io.emit("client-ready", "A user has left")`,
    sent to the connections that remain.
  */
  function LeaveNotice(remaining: set<ConnId>): (e: Emit)
    ensures e.recipients == remaining
    ensures e.event == ClientReady && e.payload == Some(UserLeft)
  {
    Emit(remaining, ClientReady, Some(UserLeft))
  }

  /**
    One transport event. A connection only registers handlers; messages and
    disconnects of ids that are not connected are never delivered.
  */
  function Step(s: Server, e: ServerEvent): (r: Server)
    ensures s.outbox <= r.outbox && |r.outbox| <= |s.outbox| + 1
  {
    match e
    case Connect(id) => Server(s.connections + {id}, s.outbox)
    case Message(sender, event) =>
      if sender in s.connections then Server(s.connections, s.outbox + OptionToSeq(Route(s.connections, sender, event)))
      else s
    case Disconnect(id) =>
      if id in s.connections then
        var remaining := s.connections - {id};
        Server(remaining, s.outbox + [LeaveNotice(remaining)])
      else s
  }

  /** A run of transport events, the last one delivered last. */
  function Run(s: Server, events: seq<ServerEvent>): (r: Server)
    ensures s.outbox <= r.outbox && |r.outbox| <= |s.outbox| + |events|
  {
    if events == [] then s else Step(Run(s, events[..|events| - 1]), events[|events| - 1])
  }

  /** The ids that a run of events connects. */
  function ConnectedIds(events: seq<ServerEvent>): (ids: set<ConnId>)
    ensures forall i :: 0 <= i < |events| && events[i].Connect? ==> events[i].id in ids
  {
    if events == [] then {}
    else ConnectedIds(events[..|events| - 1]) + (if events[|events| - 1].Connect? then {events[|events| - 1].id} else {})
  }

  /**
    Starting from no connections, the live set only holds ids that connected,
    and nothing is ever emitted to an id that never connected.
  */
  lemma {:induction false} RunEmitsOnlyToConnected(events: seq<ServerEvent>)
    ensures Run(Initial, events).connections <= ConnectedIds(events)
    ensures forall e :: e in Run(Initial, events).outbox ==> e.recipients <= ConnectedIds(events)
  {
    if events != [] {
      var prefix := events[..|events| - 1];
      RunEmitsOnlyToConnected(prefix);
      var before := Run(Initial, prefix);
      var after := Run(Initial, events);
      assert after == Step(before, events[|events| - 1]);
      assert ConnectedIds(prefix) <= ConnectedIds(events);
      forall e | e in after.outbox ensures e.recipients <= ConnectedIds(events) {
        if e !in before.outbox {
          assert e.recipients <= before.connections;
        }
      }
    }
  }

  /**
    A disconnect of a live connection removes it and appends one notice, sent
    to exactly the connections that remain and so not to the leaver.
  */
  lemma DisconnectNotifiesRemaining(s: Server, id: ConnId)
    requires id in s.connections
    ensures var r := Step(s, Disconnect(id));
            && r.connections == s.connections - {id}
            && |r.outbox| == |s.outbox| + 1
            && r.outbox[..|s.outbox|] == s.outbox
            && r.outbox[|s.outbox|].recipients == s.connections - {id}
            && id !in r.outbox[|s.outbox|].recipients
            && r.outbox[|s.outbox|].event == ClientReady
            && r.outbox[|s.outbox|].payload == Some(UserLeft)
  {
  }

  /** Names without a handler, the underscored `client_ready` among them, change nothing. */
  lemma UnhandledNamesIgnored(s: Server, sender: ConnId, event: string)
    requires event in {"client_ready", "draw_line", "chat_message", "canvas_state"}
    ensures Step(s, Message(sender, event)) == s
  {
    assert OptionToSeq(Route(s.connections, sender, event)) == [];
    assert s.outbox + [] == s.outbox;
  }

  /**
    Of the names the client declares it sends, only `clear` reaches a handler:
    the client announces itself as `client_ready`, the server waits for
    `client-ready`.
  */
  lemma OnlyClearIsRouted(connections: set<ConnId>, sender: ConnId, event: string)
    requires event in SocketTypes.ClientToServerEvents
    ensures Route(connections, sender, event).Some? <==> event == ClearEvent
  {
  }

  /**
    The names the server emits are hyphenated, and none of them is a name the
    client's entry point listens for.
  */
  lemma ServerEmitsNothingTheClientHears(connections: set<ConnId>, sender: ConnId, event: string)
    ensures var r := Route(connections, sender, event);
            r.Some? ==> r.value.event !in SocketTypes.ClientListensFor
    ensures LeaveNotice(connections).event !in SocketTypes.ClientListensFor
  {
    assert GetCanvasState != "get_canvas_state";
  }

  /**
    Two `clear` messages in a row, from any senders, reach the same recipients:
    the whole connection set, senders included.
  */
  lemma ClearTwiceSameRecipients(s: Server, a: ConnId, b: ConnId)
    requires a in s.connections && b in s.connections
    ensures var r := Run(s, [Message(a, ClearEvent), Message(b, ClearEvent)]);
            && |r.outbox| == |s.outbox| + 2
            && r.outbox[|s.outbox|] == r.outbox[|s.outbox| + 1]
            && r.outbox[|s.outbox|].recipients == s.connections
  {
    var events := [Message(a, ClearEvent), Message(b, ClearEvent)];
    assert events[..1] == [Message(a, ClearEvent)];
    assert events[..1][..0] == [];
    var s1 := Step(s, Message(a, ClearEvent));
    assert Run(s, events[..1]) == s1;
  }

  /**
    The server as the connection handlers see it: the connection set socket.io
    maintains and the emissions made so far.
  */
  class RelayServer {
    var connections: set<ConnId>
    var outbox: seq<Emit>

    function State(): Server
      reads this
    {
      Server(connections, outbox)
    }

    constructor ()
      ensures State() == Initial
    {
      connections := {};
      outbox := [];
    }

    /** `io.on("connection", ...)`: the socket joins; nothing is emitted. */
    method OnConnection(id: ConnId)
      modifies this`connections
      ensures connections == old(connections) + {id}
    {
      connections := connections + {id};
    }

    /** A message reaches the sender's handlers. */
    method OnMessage(sender: ConnId, event: string)
      requires sender in connections
      modifies this`outbox
      ensures outbox == old(outbox) + OptionToSeq(Route(connections, sender, event))
    {
      if event == ClientReady {
        outbox := outbox + [Emit(connections - {sender}, GetCanvasState, None)];
      } else if event == ClearEvent {
        outbox := outbox + [Emit(connections, ClearEvent, None)];
      }
    }

    /** The socket leaves, then its `disconnect` handler announces it to the rest. */
    method OnDisconnect(id: ConnId)
      requires id in connections
      modifies this
      ensures connections == old(connections) - {id}
      ensures outbox == old(outbox) + [LeaveNotice(connections)]
    {
      connections := connections - {id};
      outbox := outbox + [Emit(connections, ClientReady, Some(UserLeft))];
    }

    /** Delivers one transport event, dropping those of ids that are not connected. */
    method Deliver(e: ServerEvent)
      modifies this
      ensures State() == Step(old(State()), e)
    {
      match e
      case Connect(id) => OnConnection(id);
      case Message(sender, event) =>
        if sender in connections {
          OnMessage(sender, event);
        }
      case Disconnect(id) =>
        if id in connections {
          OnDisconnect(id);
        }
    }
  }

  /** A fresh server fed a run of events ends in the state `Run` describes. */
  method RunRelay(events: seq<ServerEvent>) returns (s: Server)
    ensures s == Run(Initial, events)
  {
    var server := new RelayServer();
    for i := 0 to |events|
      invariant server.State() == Run(Initial, events[..i])
    {
      assert events[..i + 1][..i] == events[..i];
      server.Deliver(events[i]);
    }
    assert events[..|events|] == events;
    s := server.State();
  }
}
