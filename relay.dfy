/**
 * The signalling relay: an HTTP server that hands out the receiver page to
 * the first visitor and the sender page to everyone after, and a WebSocket
 * server that numbers each connection by the live connection count, makes
 * connection 1 the receiver and forwards frames between the receiver and
 * the senders without looking at what the senders say.
 *
 * Sockets are named by their arrival index: the n-th accepted socket is
 * `n` (counting from 0). The WebSocket library keeps its own set of live
 * sockets (`clients`); it adds a socket to that set before announcing the
 * connection and removes it when the socket closes.
 */
module Relay {
  import opened Wrappers
  import opened Signalling

  /** A WebSocket, named by its arrival index. */
  type SocketId = nat

  /** The message listener a socket got when it connected. */
  datatype Role = ReceiverRole | SenderRole

  /** What the relay writes on a socket: the identity notice
      `{identifiedas: id}`, or a frame forwarded unchanged. */
  datatype Body = Notice(identifiedas: nat) | Relayed(text: Text)

  datatype Delivery = Delivery(to: SocketId, body: Body)

  /** The two ways a forwarding listener throws: `JSON.parse` on a frame
      that is not JSON, and `.send` on a socket slot that holds nothing. */
  datatype RelayError = ParseError | SendOnUndefined

  /** The file an HTTP response carries. */
  datatype Page = ReceiverPage | SenderPage | SenderScript | ReceiverScript

  datatype RelayState = RelayState(
    clients: set<SocketId>,
    connectedClients: nat,
    receiverSocket: Option<SocketId>,
    clientSockets: map<int, SocketId>,
    roles: map<SocketId, Role>,
    outbox: seq<Delivery>)

  const Initial: RelayState := RelayState({}, 0, None, map[], map[], [])

  /** The page or script served for a request path, given how many
      WebSocket connections have ever been accepted; `None` means the
      request gets no response at all. */
  function HandleHttpRequest(url: string, connectedClients: nat): Option<Page>
  {
    if url == "/" then
      if connectedClients == 0 then Some(ReceiverPage) else Some(SenderPage)
    else if url == "/sender.js" then Some(SenderScript)
    else if url == "/receiver.js" then Some(ReceiverScript)
    else None
  }

  /** The socket a new connection arrives on. */
  function NewSocket(s: RelayState): SocketId
  {
    s.connectedClients
  }

  /** `this.clients.size` inside the connection listener: the live sockets,
      the new one included. */
  function ConnectionId(s: RelayState): nat
  {
    |s.clients + {NewSocket(s)}|
  }

  /** A connection arrives: it is numbered, counted, told its number, and
      becomes the receiver if its number is 1 and a sender otherwise. */
  function Connect(s: RelayState): RelayState
  {
    var ws := NewSocket(s);
    var id := ConnectionId(s);
    var s1 := s.(clients := s.clients + {ws},
                 connectedClients := s.connectedClients + 1,
                 outbox := s.outbox + [Delivery(ws, Notice(id))]);
    if id == 1 then s1.(receiverSocket := Some(ws), roles := s.roles[ws := ReceiverRole])
    else s1.(clientSockets := s.clientSockets[id := ws], roles := s.roles[ws := SenderRole])
  }

  /** A socket closes (or errs and is terminated): the library forgets it. */
  function Close(s: RelayState, ws: SocketId): RelayState
  {
    s.(clients := s.clients - {ws})
  }

  /** A frame arrives on socket `ws`. The receiver's frames are parsed and
      sent to the sender slot their `identifier` names; a sender's frames
      are sent to the receiver as they are. A socket without a listener
      ignores the frame. */
  function Route(s: RelayState, ws: SocketId, t: Text): Result<RelayState, RelayError>
  {
    if ws !in s.roles then Ok(s)
    else match s.roles[ws]
      case ReceiverRole =>
        (match t.parsed
         case None => Err(ParseError)
         case Some(m) =>
           if m.identifier.Some? && m.identifier.value in s.clientSockets
           then Ok(s.(outbox := s.outbox + [Delivery(s.clientSockets[m.identifier.value], Relayed(t))]))
           else Err(SendOnUndefined))
      case SenderRole =>
        if s.receiverSocket.Some?
        then Ok(s.(outbox := s.outbox + [Delivery(s.receiverSocket.value, Relayed(t))]))
        else Err(SendOnUndefined)
  }

  /** What happens to the relay, one event at a time. */
  datatype Event = Arrive | Leave(ws: SocketId) | Receive(from: SocketId, text: Text)

  function Apply(s: RelayState, e: Event): Result<RelayState, RelayError>
  {
    match e
    case Arrive => Ok(Connect(s))
    case Leave(ws) => Ok(Close(s, ws))
    case Receive(ws, t) => Route(s, ws, t)
  }

  /** A run of events; the first listener that throws ends the process. */
  function Run(s: RelayState, es: seq<Event>): Result<RelayState, RelayError>
  {
    if es == [] then Ok(s)
    else match Run(s, es[..|es| - 1])
      case Err(e) => Err(e)
      case Ok(t) => Apply(t, es[|es| - 1])
  }

  /** The number of arrivals in a run. */
  function Arrivals(es: seq<Event>): nat
  {
    if es == [] then 0
    else Arrivals(es[..|es| - 1]) + (if es[|es| - 1].Arrive? then 1 else 0)
  }

  /** The bookkeeping the relay keeps consistent: every socket that ever
      arrived has exactly one listener, live sockets are arrived sockets,
      the receiver slot holds a receiver, the sender slots hold senders
      under numbers other than 1, and deliveries go to arrived sockets. */
  ghost predicate Inv(s: RelayState)
  {
    && (forall ws :: ws in s.clients ==> ws < s.connectedClients)
    && (forall ws: SocketId :: ws in s.roles <==> ws < s.connectedClients)
    && (s.receiverSocket.Some? ==>
          s.receiverSocket.value in s.roles && s.roles[s.receiverSocket.value] == ReceiverRole)
    && (forall k :: k in s.clientSockets ==>
          k >= 2 && s.clientSockets[k] in s.roles && s.roles[s.clientSockets[k]] == SenderRole)
    && (forall i :: 0 <= i < |s.outbox| ==> s.outbox[i].to < s.connectedClients)
  }

  lemma InitialInv()
    ensures Inv(Initial)
  {
  }

  /** A new connection's number is the live count including itself; it
      is counted, and the only thing written is its own identity notice. */
  lemma ConnectNumbersByLiveCount(s: RelayState)
    requires Inv(s)
    ensures NewSocket(s) !in s.clients
    ensures ConnectionId(s) == |s.clients| + 1
    ensures Connect(s).clients == s.clients + {NewSocket(s)}
    ensures |Connect(s).clients| == ConnectionId(s)
    ensures Connect(s).connectedClients == s.connectedClients + 1
    ensures Connect(s).outbox == s.outbox + [Delivery(NewSocket(s), Notice(ConnectionId(s)))]
  {
  }

  /** Number 1 takes the receiver slot and leaves the sender slots alone;
      any other number takes (or overwrites) its sender slot and leaves
      the receiver slot alone. */
  lemma ConnectAssignsRole(s: RelayState)
    requires Inv(s)
    ensures var t := Connect(s); var ws := NewSocket(s);
            if ConnectionId(s) == 1 then
              && t.receiverSocket == Some(ws) && t.clientSockets == s.clientSockets
              && t.roles == s.roles[ws := ReceiverRole]
            else
              && ConnectionId(s) >= 2
              && t.receiverSocket == s.receiverSocket
              && t.clientSockets == s.clientSockets[ConnectionId(s) := ws]
              && t.roles == s.roles[ws := SenderRole]
  {
    ConnectNumbersByLiveCount(s);
  }

  /** Closing a socket touches only the library's live set: the slots
      still point at the closed socket. */
  lemma CloseOnlyForgets(s: RelayState, ws: SocketId)
    ensures var t := Close(s, ws);
            && t.clients == s.clients - {ws}
            && ws !in t.clients
            && t.connectedClients == s.connectedClients
            && t.receiverSocket == s.receiverSocket
            && t.clientSockets == s.clientSockets
            && t.roles == s.roles
            && t.outbox == s.outbox
  {
  }

  /** A frame from the receiver goes, verbatim, to exactly the sender its
      `identifier` names; a frame that is not JSON, or that names no
      sender slot, makes the listener throw, and nothing is written. */
  lemma ReceiverFrameRouting(s: RelayState, ws: SocketId, t: Text)
    requires ws in s.roles && s.roles[ws] == ReceiverRole
    ensures var r := Route(s, ws, t);
            && (r.Ok? <==> t.parsed.Some? && t.parsed.value.identifier.Some?
                             && t.parsed.value.identifier.value in s.clientSockets)
            && (t.parsed.None? ==> r == Err(ParseError))
            && (r.Ok? ==> r.value == s.(outbox := s.outbox +
                   [Delivery(s.clientSockets[t.parsed.value.identifier.value], Relayed(t))]))
  {
  }

  /** A frame from a sender goes, verbatim and unparsed, to the receiver:
      the outcome does not depend on whether the frame is JSON at all. */
  lemma SenderFrameRouting(s: RelayState, ws: SocketId, t: Text)
    requires ws in s.roles && s.roles[ws] == SenderRole
    ensures Route(s, ws, t) ==
              if s.receiverSocket.Some?
              then Ok(s.(outbox := s.outbox + [Delivery(s.receiverSocket.value, Relayed(t))]))
              else Err(SendOnUndefined)
    ensures forall other :: Route(s, ws, Text(t.raw, other)).Ok? == Route(s, ws, t).Ok?
  {
  }

  /** Each event keeps the bookkeeping consistent. */
  lemma ApplyPreservesInv(s: RelayState, e: Event)
    requires Inv(s)
    requires Apply(s, e).Ok?
    ensures Inv(Apply(s, e).value)
  {
    match e
    case Arrive =>
      ConnectNumbersByLiveCount(s);
      ConnectAssignsRole(s);
      var t := Connect(s);
      assert forall i :: 0 <= i < |s.outbox| ==> t.outbox[i] == s.outbox[i];
    case Leave(ws) =>
    case Receive(ws, x) =>
  }

  /** A socket keeps the listener it got when it connected, whatever
      happens afterwards. */
  lemma ApplyKeepsRoles(s: RelayState, e: Event, ws: SocketId)
    requires Inv(s)
    requires Apply(s, e).Ok?
    requires ws in s.roles
    ensures ws in Apply(s, e).value.roles
    ensures Apply(s, e).value.roles[ws] == s.roles[ws]
  {
  }

  /** The bookkeeping holds after any run that has not crashed. */
  lemma {:induction false} RunPreservesInv(s: RelayState, es: seq<Event>)
    requires Inv(s)
    requires Run(s, es).Ok?
    ensures Inv(Run(s, es).value)
  {
    if es != [] {
      RunPreservesInv(s, es[..|es| - 1]);
      ApplyPreservesInv(Run(s, es[..|es| - 1]).value, es[|es| - 1]);
    }
  }

  /** Roles never change along a run. */
  lemma {:induction false} RunKeepsRoles(s: RelayState, es: seq<Event>, ws: SocketId)
    requires Inv(s)
    requires Run(s, es).Ok?
    requires ws in s.roles
    ensures ws in Run(s, es).value.roles
    ensures Run(s, es).value.roles[ws] == s.roles[ws]
  {
    if es != [] {
      var init := es[..|es| - 1];
      RunKeepsRoles(s, init, ws);
      RunPreservesInv(s, init);
      ApplyKeepsRoles(Run(s, init).value, es[|es| - 1], ws);
    }
  }

  /** `connectedClients` counts the connections ever accepted: departures
      never lower it. */
  lemma {:induction false} CounterCountsArrivals(s: RelayState, es: seq<Event>)
    requires Run(s, es).Ok?
    ensures Run(s, es).value.connectedClients == s.connectedClients + Arrivals(es)
  {
    if es != [] {
      CounterCountsArrivals(s, es[..|es| - 1]);
    }
  }

  /** The socket most recently told number `k`, if any. */
  function LastTold(outbox: seq<Delivery>, k: int): Option<SocketId>
  {
    if outbox == [] then None
    else
      var d := outbox[|outbox| - 1];
      if d.body.Notice? && d.body.identifiedas == k then Some(d.to)
      else LastTold(outbox[..|outbox| - 1], k)
  }

  /** Every sender slot holds the socket last told its number, and a
      number nobody was told has no slot. */
  ghost predicate SlotsFollowNotices(s: RelayState)
  {
    forall k :: k != 1 ==>
      LastTold(s.outbox, k) == (if k in s.clientSockets then Some(s.clientSockets[k]) else None)
  }

  lemma LastToldSnoc(outbox: seq<Delivery>, d: Delivery, k: int)
    ensures LastTold(outbox + [d], k) ==
              if d.body.Notice? && d.body.identifiedas == k then Some(d.to) else LastTold(outbox, k)
  {
    assert (outbox + [d])[..|outbox + [d]| - 1] == outbox;
  }

  /** Each event keeps the sender slots in step with the notices: a
      connection's notice and its slot are written together, and nothing
      else writes a notice or a slot. */
  lemma ApplyKeepsSlotsFollowing(s: RelayState, e: Event)
    requires SlotsFollowNotices(s)
    requires Apply(s, e).Ok?
    ensures SlotsFollowNotices(Apply(s, e).value)
  {
    var t := Apply(s, e).value;
    forall k | k != 1
      ensures LastTold(t.outbox, k) == (if k in t.clientSockets then Some(t.clientSockets[k]) else None)
    {
      match e
      case Arrive =>
        LastToldSnoc(s.outbox, Delivery(NewSocket(s), Notice(ConnectionId(s))), k);
      case Leave(ws) =>
      case Receive(ws, x) =>
        if t.outbox != s.outbox {
          LastToldSnoc(s.outbox, t.outbox[|t.outbox| - 1], k);
          assert t.outbox == s.outbox + [t.outbox[|t.outbox| - 1]];
        }
    }
  }

  /** Along any run from the start, each sender slot holds the socket last
      told its number. */
  lemma {:induction false} RunKeepsSlotsFollowing(es: seq<Event>)
    requires Run(Initial, es).Ok?
    ensures SlotsFollowNotices(Run(Initial, es).value)
  {
    if es != [] {
      RunKeepsSlotsFollowing(es[..|es| - 1]);
      ApplyKeepsSlotsFollowing(Run(Initial, es[..|es| - 1]).value, es[|es| - 1]);
    }
  }

  /** Before any connection has been accepted `/` serves the receiver
      page; after the first one it serves the sender page for good. */
  lemma IndexPageAfterRun(es: seq<Event>)
    requires Run(Initial, es).Ok?
    ensures HandleHttpRequest("/", Run(Initial, es).value.connectedClients) == Some(ReceiverPage)
            <==> Arrivals(es) == 0
    ensures Arrivals(es) > 0 ==>
              HandleHttpRequest("/", Run(Initial, es).value.connectedClients) == Some(SenderPage)
  {
    CounterCountsArrivals(Initial, es);
  }

  /** The scripts are served by their own paths, and any other path gets
      no response. */
  lemma OtherPaths(url: string, n: nat)
    requires url != "/" && url != "/sender.js" && url != "/receiver.js"
    ensures HandleHttpRequest(url, n) == None
    ensures HandleHttpRequest("/sender.js", n) == Some(SenderScript)
    ensures HandleHttpRequest("/receiver.js", n) == Some(ReceiverScript)
  {
  }

  /** `n` arrivals and nothing else. */
  function ArrivalRun(n: nat): (es: seq<Event>)
    ensures |es| == n && Arrivals(es) == n
  {
    if n == 0 then [] else ArrivalRun(n - 1) + [Event.Arrive]
  }

  /** The sockets `0 .. n-1`. */
  function FirstSockets(n: nat): set<SocketId>
  {
    if n == 0 then {} else FirstSockets(n - 1) + {n - 1}
  }

  /** The identity notices of sockets `0 .. n-1`, in order. */
  function Notices(n: nat): seq<Delivery>
  {
    if n == 0 then [] else Notices(n - 1) + [Delivery(n - 1, Notice(n))]
  }

  /** The sender slots `2 .. n`, slot `k` holding socket `k - 1`. */
  function SenderSlots(n: nat): map<int, SocketId>
  {
    if n < 2 then map[] else SenderSlots(n - 1)[n := n - 1]
  }

  /** Socket 0 a receiver, sockets `1 .. n-1` senders. */
  function RoleTable(n: nat): map<SocketId, Role>
  {
    if n == 0 then map[] else RoleTable(n - 1)[n - 1 := if n == 1 then ReceiverRole else SenderRole]
  }

  lemma {:induction false} FirstSocketsSize(n: nat)
    ensures forall k :: k in FirstSockets(n) <==> 0 <= k < n
    ensures |FirstSockets(n)| == n
  {
    if n > 0 {
      FirstSocketsSize(n - 1);
    }
  }

  /** Socket `k` is told number `k + 1`. */
  lemma {:induction false} NoticesInOrder(n: nat)
    ensures |Notices(n)| == n
    ensures forall k :: 0 <= k < n ==> Notices(n)[k] == Delivery(k, Notice(k + 1))
  {
    if n > 0 {
      NoticesInOrder(n - 1);
    }
  }

  /** Slot `k` exists for `2 <= k <= n` and holds socket `k - 1`. */
  lemma {:induction false} SenderSlotsInOrder(n: nat)
    ensures forall k :: k in SenderSlots(n) <==> 2 <= k <= n
    ensures forall k :: k in SenderSlots(n) ==> SenderSlots(n)[k] == k - 1
  {
    if n >= 2 {
      SenderSlotsInOrder(n - 1);
    }
  }

  /** Running one more event after a run that has not crashed. */
  lemma RunSnoc(s: RelayState, es: seq<Event>, e: Event)
    ensures Run(s, es + [e]) == match Run(s, es) case Err(x) => Err(x) case Ok(t) => Apply(t, e)
  {
    assert (es + [e])[..|es + [e]| - 1] == es;
  }

  /** The state after `n` arrivals without departures. */
  function AfterArrivals(n: nat): RelayState
  {
    RelayState(FirstSockets(n), n, if n == 0 then None else Some(0), SenderSlots(n), RoleTable(n), Notices(n))
  }

  /** One more arrival on top of `n` arrivals without departures. */
  lemma ConnectAfterArrivals(n: nat)
    ensures Connect(AfterArrivals(n)) == AfterArrivals(n + 1)
  {
    var s := AfterArrivals(n);
    FirstSocketsSize(n + 1);
    assert s.clients + {NewSocket(s)} == FirstSockets(n + 1);
    assert ConnectionId(s) == n + 1;
  }

  /** `n` arrivals with no departures reach `AfterArrivals(n)`: socket
      `k` was told number `k + 1`, the first arrival is the receiver and
      every later arrival holds the sender slot of its number. */
  lemma {:induction false} ArrivalsNumberedInOrder(n: nat)
    ensures Run(Initial, ArrivalRun(n)) == Ok(AfterArrivals(n))
  {
    if n > 0 {
      ArrivalsNumberedInOrder(n - 1);
      RunSnoc(Initial, ArrivalRun(n - 1), Arrive);
      ConnectAfterArrivals(n - 1);
    }
  }

  /** The first connection ever accepted becomes the receiver and is told
      number 1. */
  lemma FirstArrivalIsReceiver()
    ensures Run(Initial, [Arrive]).Ok?
    ensures Run(Initial, [Arrive]).value.receiverSocket == Some(0)
    ensures Run(Initial, [Arrive]).value.outbox == [Delivery(0, Notice(1))]
  {
    ArrivalsNumberedInOrder(1);
    assert ArrivalRun(1) == [Arrive];
  }

  /** Receiver plus two senders, numbers 2 and 3. */
  lemma ThreeArrivals()
    ensures AfterArrivals(3) == RelayState({0, 1, 2}, 3, Some(0), map[2 := 1, 3 := 2],
              map[0 := ReceiverRole, 1 := SenderRole, 2 := SenderRole],
              [Delivery(0, Notice(1)), Delivery(1, Notice(2)), Delivery(2, Notice(3))])
  {
    assert FirstSockets(3) == {0, 1, 2};
    assert SenderSlots(3) == map[2 := 1, 3 := 2];
    assert RoleTable(3) == map[0 := ReceiverRole, 1 := SenderRole, 2 := SenderRole];
  }

  /** Receiver plus two senders (numbers 2 and 3): a frame from sender 2
      reaches the receiver alone, and the receiver's reply naming 2
      reaches sender 2 alone. */
  lemma ThreePartyRouting(offer: Text, answer: Text)
    requires answer.parsed.Some? && answer.parsed.value.identifier == Some(2)
    ensures Run(Initial, ArrivalRun(3)).Ok?
    ensures var s := Run(Initial, ArrivalRun(3)).value;
            && Route(s, 1, offer) == Ok(s.(outbox := s.outbox + [Delivery(0, Relayed(offer))]))
            && Route(s, 0, answer) == Ok(s.(outbox := s.outbox + [Delivery(1, Relayed(answer))]))
  {
    ArrivalsNumberedInOrder(3);
    ThreeArrivals();
    var s := AfterArrivals(3);
    assert 1 in s.roles && s.roles[1] == SenderRole;
    assert 0 in s.roles && s.roles[0] == ReceiverRole;
    assert 2 in s.clientSockets && s.clientSockets[2] == 1;
    SenderFrameRouting(s, 1, offer);
    ReceiverFrameRouting(s, 0, answer);
  }

  /** With three sockets connected, socket 1 (number 2) leaves and a new
      socket arrives. */
  lemma LeaveThenArrive()
    ensures Connect(Close(AfterArrivals(3), 1)) ==
              RelayState({0, 2, 3}, 4, Some(0), map[2 := 1, 3 := 3],
                map[0 := ReceiverRole, 1 := SenderRole, 2 := SenderRole, 3 := SenderRole],
                [Delivery(0, Notice(1)), Delivery(1, Notice(2)), Delivery(2, Notice(3)), Delivery(3, Notice(3))])
  {
    ThreeArrivals();
    var s := Close(AfterArrivals(3), 1);
    assert s.clients == {0, 2};
    assert s.clients + {3} == {0, 2, 3};
    assert ConnectionId(s) == 3;
  }

  /** Numbers are live counts, so they come back: with three sockets
      connected, the one holding number 2 leaving and a new one arriving
      gives the newcomer number 3 again, and sender slot 3 now points at
      the newcomer, which is now the socket last told 3; socket 2, still
      connected, is unreachable from the receiver. */
  lemma NumberReuseOverwritesSlot()
    ensures Run(Initial, ArrivalRun(3) + [Leave(1), Arrive]).Ok?
    ensures var s := Run(Initial, ArrivalRun(3) + [Leave(1), Arrive]).value;
            && s.outbox[|s.outbox| - 1] == Delivery(3, Notice(3))
            && 2 in s.clients && s.clientSockets[3] == 3
            && LastTold(s.outbox, 3) == Some(3)
            && forall k :: k in s.clientSockets ==> s.clientSockets[k] != 2
  {
    var es := ArrivalRun(3);
    ArrivalsNumberedInOrder(3);
    RunSnoc(Initial, es, Leave(1));
    RunSnoc(Initial, es + [Leave(1)], Arrive);
    assert es + [Leave(1), Arrive] == es + [Leave(1)] + [Arrive];
    assert Run(Initial, es + [Leave(1), Arrive]) == Ok(Connect(Close(AfterArrivals(3), 1)));
    LeaveThenArrive();
    RunKeepsSlotsFollowing(es + [Leave(1), Arrive]);
  }

  /** The receiver slot is not reserved for life: when the receiver
      leaves while it is the only connection, the next arrival is told
      number 1 and takes the receiver slot. */
  lemma ReceiverSlotReassigned()
    ensures Run(Initial, [Arrive, Leave(0), Arrive]).Ok?
    ensures var s := Run(Initial, [Arrive, Leave(0), Arrive]).value;
            && s.receiverSocket == Some(1)
            && s.outbox == [Delivery(0, Notice(1)), Delivery(1, Notice(1))]
  {
    FirstArrivalIsReceiver();
    RunSnoc(Initial, [Arrive], Leave(0));
    RunSnoc(Initial, [Arrive, Leave(0)], Arrive);
    assert [Arrive] + [Leave(0)] == [Arrive, Leave(0)];
    assert [Arrive, Leave(0)] + [Arrive] == [Arrive, Leave(0), Arrive];
    var s := Close(Run(Initial, [Arrive]).value, 0);
    assert s.clients == {};
    assert ConnectionId(s) == 1 by { assert s.clients + {1} == {1}; }
  }

  /** The relay process: the library's live set, the module-level
      variables of the server, the listener attached to each socket and
      everything written so far. */
  class RelayServer {
    var clients: set<SocketId>
    var connectedClients: nat
    var receiverSocket: Option<SocketId>
    var clientSockets: map<int, SocketId>
    var roles: map<SocketId, Role>
    var outbox: seq<Delivery>

    function State(): RelayState
      reads this
    {
      RelayState(clients, connectedClients, receiverSocket, clientSockets, roles, outbox)
    }

    constructor ()
      ensures State() == Initial
    {
      clients := {};
      connectedClients := 0;
      receiverSocket := None;
      clientSockets := map[];
      roles := map[];
      outbox := [];
    }

    /** `wss.on('connection', ...)`. */
    method OnConnection() returns (ws: SocketId, connectionId: nat)
      modifies this
      ensures ws == NewSocket(old(State())) && connectionId == ConnectionId(old(State()))
      ensures State() == Connect(old(State()))
    {
      ws := connectedClients;
      clients := clients + {ws};
      connectionId := |clients|;
      connectedClients := connectedClients + 1;
      outbox := outbox + [Delivery(ws, Notice(connectionId))];
      if connectionId == 1 {
        receiverSocket := Some(ws);
        roles := roles[ws := ReceiverRole];
      } else {
        clientSockets := clientSockets[connectionId := ws];
        roles := roles[ws := SenderRole];
      }
    }

    /** The socket closes, or errs and is terminated. */
    method OnClose(ws: SocketId)
      modifies this
      ensures State() == Close(old(State()), ws)
    {
      clients := clients - {ws};
    }

    /** A frame arrives on `ws`; an `Err` is the exception its listener throws. */
    method OnMessage(ws: SocketId, t: Text) returns (r: Result<(), RelayError>)
      modifies this
      ensures Route(old(State()), ws, t).Ok? ==>
                r.Ok? && State() == Route(old(State()), ws, t).value
      ensures Route(old(State()), ws, t).Err? ==>
                r == Err(Route(old(State()), ws, t).error) && State() == old(State())
    {
      if ws !in roles {
        return Ok(());
      }
      match roles[ws]
      case ReceiverRole =>
        if t.parsed.None? {
          return Err(ParseError);
        }
        var message := t.parsed.value;
        if message.identifier.None? || message.identifier.value !in clientSockets {
          return Err(SendOnUndefined);
        }
        outbox := outbox + [Delivery(clientSockets[message.identifier.value], Relayed(t))];
        r := Ok(());
      case SenderRole =>
        if receiverSocket.None? {
          return Err(SendOnUndefined);
        }
        outbox := outbox + [Delivery(receiverSocket.value, Relayed(t))];
        r := Ok(());
    }
  }
}
