/**
 * The receiving node's side of the handshake. It keeps one peer
 * connection per sender, created the first time a signalling message
 * names that sender, answers each offer, passes remote ICE candidates to
 * the matching peer connection, and sends its own non-null candidates
 * back through the relay.
 *
 * The browser's WebRTC objects are kept abstract: a peer connection is a
 * number, a data channel is a number, and what the node asks of a peer
 * connection is recorded as a list of calls. The promise chain that
 * answers an offer is collapsed into the message step; its outcome is a
 * parameter of that step.
 */
module ReceiverNode {
  import opened Wrappers
  import opened Signalling
  import opened TypedBuffers

  /** A property key of the node's tables: a sender's number, or
      `undefined` (`None`) for a message without an `identifier`. */
  type Key = Option<int>

  /** An RTCPeerConnection, numbered in order of creation. */
  type PeerId = nat

  /** An RTCDataChannel the browser handed over. */
  type ChannelId = nat

  /** What the node asks of a peer connection. */
  datatype PcCall =
    | SetRemoteDescription(pc: PeerId, offer: Sdp)
    | CreateAnswer(pc: PeerId)
    | SetLocalDescription(pc: PeerId, answer: Sdp)
    | AddIceCandidate(pc: PeerId, candidate: Candidate)

  /** How the offer's promise chain ends: `setRemoteDescription` rejects,
      `createAnswer` rejects, or an answer is created. */
  datatype OfferOutcome = RemoteRejected | AnswerRejected | Answered(answer: Sdp)

  datatype NodeState = NodeState(
    connections: map<Key, PeerId>,
    buffers: map<Key, seq<Payload>>,
    dataChannels: map<Key, ChannelId>,
    peers: nat,
    sent: seq<Envelope>,
    calls: seq<PcCall>)

  const Initial: NodeState := NodeState(map[], map[], map[], 0, [], [])

  /** The first message naming `key` creates its peer connection and its
      (empty) buffer; later ones find them in place. */
  function Register(s: NodeState, key: Key): NodeState
  {
    if key in s.connections then s
    else s.(connections := s.connections[key := s.peers],
            buffers := s.buffers[key := []],
            peers := s.peers + 1)
  }

  /** The end of the offer's promise chain on peer connection `pc`. */
  function Settle(s: NodeState, key: Key, pc: PeerId, outcome: OfferOutcome): NodeState
  {
    match outcome
    case RemoteRejected => s
    case AnswerRejected => s.(calls := s.calls + [CreateAnswer(pc)])
    case Answered(a) =>
      s.(sent := s.sent + [AnswerEnvelope(key, a)],
         calls := s.calls + [CreateAnswer(pc), SetLocalDescription(pc, a)])
  }

  /** A parsed signalling message: the identity notice for number 1 is
      ignored; otherwise the sender it names is registered, an offer is
      handed to its peer connection, then a candidate, and the offer's
      chain runs to `outcome`. */
  function HandleMessage(s: NodeState, m: Envelope, outcome: OfferOutcome): NodeState
  {
    if m.identifiedas == Some(1) then s
    else
      var key := m.identifier;
      var r := Register(s, key);
      var pc := r.connections[key];
      var r1 := if m.sdpoffer.Some? then r.(calls := r.calls + [SetRemoteDescription(pc, m.sdpoffer.value)]) else r;
      var r2 := if m.icecandidate.Some? then r1.(calls := r1.calls + [AddIceCandidate(pc, m.icecandidate.value)]) else r1;
      if m.sdpoffer.Some? then Settle(r2, key, pc, outcome) else r2
  }

  /** `socketConnection.onmessage`: a frame that is not JSON throws before
      anything happens. */
  function ReceiveSignal(s: NodeState, t: Text, outcome: OfferOutcome): NodeState
  {
    match t.parsed
    case None => s
    case Some(m) => HandleMessage(s, m, outcome)
  }

  /** The `icecandidate` listener of the peer connection registered under
      `key`: a candidate goes to the relay tagged with `key`; the null
      candidate that ends gathering is dropped. */
  function GatherCandidate(s: NodeState, key: Key, candidate: Option<Candidate>): NodeState
  {
    if key !in s.connections || candidate.None? then s
    else s.(sent := s.sent + [CandidateEnvelope(key, candidate.value)])
  }

  /** The `onopen` of the data channel the peer connection under `key`
      received. */
  function OpenChannel(s: NodeState, key: Key, channel: ChannelId): NodeState
  {
    if key !in s.connections then s
    else s.(dataChannels := s.dataChannels[key := channel])
  }

  /** Every message the node sends on the signalling socket: an answer or
      a real candidate, about a registered sender. */
  predicate Outgoing(e: Envelope, connections: map<Key, PeerId>)
  {
    && e.identifier in connections
    && e.identifiedas.None? && e.sdpoffer.None?
    && (e.sdpresponse.Some? != e.icecandidate.Some?)
  }

  /** One buffer per peer connection, channels only for registered
      senders, distinct senders on distinct peer connections. */
  ghost predicate TablesInStep(s: NodeState)
  {
    && s.connections.Keys == s.buffers.Keys
    && s.dataChannels.Keys <= s.connections.Keys
    && (forall k :: k in s.connections ==> s.connections[k] < s.peers)
    && (forall k, k' :: k in s.connections && k' in s.connections && k != k' ==>
          s.connections[k] != s.connections[k'])
    && (forall k :: k in s.buffers ==> s.buffers[k] == [])
  }

  /** Calls only on peer connections that exist. */
  ghost predicate CallsOnPeers(calls: seq<PcCall>, peers: nat)
  {
    forall i :: 0 <= i < |calls| ==> calls[i].pc < peers
  }

  /** Only answers and real candidates about registered senders sent. */
  ghost predicate SentWellFormed(sent: seq<Envelope>, connections: map<Key, PeerId>)
  {
    forall i :: 0 <= i < |sent| ==> Outgoing(sent[i], connections)
  }

  /** The node's tables stay in step, it calls only on existing peer
      connections, and it sends only answers and real candidates. */
  ghost predicate Inv(s: NodeState)
  {
    TablesInStep(s) && CallsOnPeers(s.calls, s.peers) && SentWellFormed(s.sent, s.connections)
  }

  lemma InitialInv()
    ensures Inv(Initial)
  {
  }

  /** The identity notice meant for the receiver changes nothing. */
  lemma IgnoresOwnNotice(s: NodeState, m: Envelope, outcome: OfferOutcome)
    requires m.identifiedas == Some(1)
    ensures HandleMessage(s, m, outcome) == s
  {
  }

  /** Any other message registers its sender exactly when it is new: a
      fresh peer connection and an empty buffer under that key, every
      other entry as it was. */
  lemma RegistersNewSendersOnly(s: NodeState, m: Envelope, outcome: OfferOutcome)
    requires m.identifiedas != Some(1)
    ensures var t := HandleMessage(s, m, outcome);
            && t.dataChannels == s.dataChannels
            && (m.identifier in s.connections ==>
                  t.connections == s.connections && t.buffers == s.buffers && t.peers == s.peers)
            && (m.identifier !in s.connections ==>
                  && t.connections == s.connections[m.identifier := s.peers]
                  && t.buffers == s.buffers[m.identifier := []]
                  && t.peers == s.peers + 1)
  {
  }

  /** An offer whose chain produces an answer makes the node send exactly
      that answer, tagged with the offer's `identifier`; no other
      signalling message makes the socket listener send anything. */
  lemma AnswersEachOffer(s: NodeState, m: Envelope, outcome: OfferOutcome)
    ensures HandleMessage(s, m, outcome).sent ==
              if m.identifiedas != Some(1) && m.sdpoffer.Some? && outcome.Answered?
              then s.sent + [AnswerEnvelope(m.identifier, outcome.answer)]
              else s.sent
  {
  }

  /** The calls a message makes on its sender's peer connection: the
      offer is set as remote description before the candidate is added,
      and the answer is created and set as local description after both. */
  lemma CallOrder(s: NodeState, m: Envelope, outcome: OfferOutcome)
    requires m.identifiedas != Some(1)
    ensures var t := HandleMessage(s, m, outcome);
            var pc := t.connections[m.identifier];
            t.calls == s.calls
              + (if m.sdpoffer.Some? then [SetRemoteDescription(pc, m.sdpoffer.value)] else [])
              + (if m.icecandidate.Some? then [AddIceCandidate(pc, m.icecandidate.value)] else [])
              + (if m.sdpoffer.None? then []
                 else match outcome
                      case RemoteRejected => []
                      case AnswerRejected => [CreateAnswer(pc)]
                      case Answered(a) => [CreateAnswer(pc), SetLocalDescription(pc, a)])
  {
    RegistersNewSendersOnly(s, m, outcome);
  }

  /** A gathered candidate is sent, tagged with the sender's key; the null
      candidate is not. */
  lemma CandidateFilter(s: NodeState, key: Key, candidate: Option<Candidate>)
    requires key in s.connections
    ensures candidate.None? ==> GatherCandidate(s, key, candidate) == s
    ensures candidate.Some? ==>
              GatherCandidate(s, key, candidate).sent == s.sent + [CandidateEnvelope(key, candidate.value)]
  {
  }

  lemma RegisterKeepsTables(s: NodeState, key: Key)
    requires TablesInStep(s)
    ensures TablesInStep(Register(s, key)) && key in Register(s, key).connections
  {
  }

  lemma CallsOnMorePeers(calls: seq<PcCall>, peers: nat, peers': nat)
    requires CallsOnPeers(calls, peers) && peers <= peers'
    ensures CallsOnPeers(calls, peers')
  {
  }

  lemma SentUnderMoreKeys(sent: seq<Envelope>, c: map<Key, PeerId>, c': map<Key, PeerId>)
    requires SentWellFormed(sent, c) && c.Keys <= c'.Keys
    ensures SentWellFormed(sent, c')
  {
    forall i | 0 <= i < |sent|
      ensures Outgoing(sent[i], c')
    {
      assert Outgoing(sent[i], c);
    }
  }

  lemma RegisterPreservesInv(s: NodeState, key: Key)
    requires Inv(s)
    ensures Inv(Register(s, key)) && key in Register(s, key).connections
  {
    var r := Register(s, key);
    RegisterKeepsTables(s, key);
    CallsOnMorePeers(s.calls, s.peers, r.peers);
    SentUnderMoreKeys(s.sent, s.connections, r.connections);
  }

  /** Calls on existing peer connections keep the tables in step. */
  lemma CallsPreserveInv(s: NodeState, cs: seq<PcCall>)
    requires Inv(s)
    requires CallsOnPeers(cs, s.peers)
    ensures Inv(s.(calls := s.calls + cs))
  {
    var t := s.(calls := s.calls + cs);
    forall i | 0 <= i < |t.calls|
      ensures t.calls[i].pc < t.peers
    {
      if i >= |s.calls| {
        assert t.calls[i] == cs[i - |s.calls|];
      } else {
        assert t.calls[i] == s.calls[i];
      }
    }
  }

  /** Sending an answer or a real candidate keeps the tables in step. */
  lemma SendPreservesInv(s: NodeState, e: Envelope)
    requires Inv(s)
    requires Outgoing(e, s.connections)
    ensures Inv(s.(sent := s.sent + [e]))
  {
    var t := s.(sent := s.sent + [e]);
    forall i | 0 <= i < |t.sent|
      ensures Outgoing(t.sent[i], t.connections)
    {
      if i < |s.sent| {
        assert t.sent[i] == s.sent[i];
      }
    }
  }

  lemma SettlePreservesInv(s: NodeState, key: Key, pc: PeerId, outcome: OfferOutcome)
    requires Inv(s) && key in s.connections && pc < s.peers
    ensures Inv(Settle(s, key, pc, outcome))
  {
    match outcome
    case RemoteRejected =>
    case AnswerRejected =>
      CallsPreserveInv(s, [CreateAnswer(pc)]);
    case Answered(a) =>
      SendPreservesInv(s, AnswerEnvelope(key, a));
      CallsPreserveInv(s.(sent := s.sent + [AnswerEnvelope(key, a)]), [CreateAnswer(pc), SetLocalDescription(pc, a)]);
  }

  lemma HandleMessagePreservesInv(s: NodeState, m: Envelope, outcome: OfferOutcome)
    requires Inv(s)
    ensures Inv(HandleMessage(s, m, outcome))
  {
    if m.identifiedas != Some(1) {
      var key := m.identifier;
      var r := Register(s, key);
      RegisterPreservesInv(s, key);
      var pc := r.connections[key];
      assert pc < r.peers;
      var r1 := if m.sdpoffer.Some? then r.(calls := r.calls + [SetRemoteDescription(pc, m.sdpoffer.value)]) else r;
      if m.sdpoffer.Some? {
        CallsPreserveInv(r, [SetRemoteDescription(pc, m.sdpoffer.value)]);
      }
      var r2 := if m.icecandidate.Some? then r1.(calls := r1.calls + [AddIceCandidate(pc, m.icecandidate.value)]) else r1;
      if m.icecandidate.Some? {
        CallsPreserveInv(r1, [AddIceCandidate(pc, m.icecandidate.value)]);
      }
      assert HandleMessage(s, m, outcome) == if m.sdpoffer.Some? then Settle(r2, key, pc, outcome) else r2;
      if m.sdpoffer.Some? {
        SettlePreservesInv(r2, key, pc, outcome);
      }
    }
  }

  lemma GatherCandidatePreservesInv(s: NodeState, key: Key, candidate: Option<Candidate>)
    requires Inv(s)
    ensures Inv(GatherCandidate(s, key, candidate))
  {
    if key in s.connections && candidate.Some? {
      SendPreservesInv(s, CandidateEnvelope(key, candidate.value));
    }
  }

  lemma OpenChannelPreservesInv(s: NodeState, key: Key, channel: ChannelId)
    requires Inv(s)
    ensures Inv(OpenChannel(s, key, channel))
  {
  }

  /** What happens to the node, one event at a time. */
  datatype Event =
    | SocketMessage(text: Text, outcome: OfferOutcome)
    | IceGathered(key: Key, candidate: Option<Candidate>)
    | ChannelOpened(key: Key, channel: ChannelId)

  function Apply(s: NodeState, e: Event): NodeState
  {
    match e
    case SocketMessage(t, outcome) => ReceiveSignal(s, t, outcome)
    case IceGathered(key, c) => GatherCandidate(s, key, c)
    case ChannelOpened(key, ch) => OpenChannel(s, key, ch)
  }

  function Run(s: NodeState, es: seq<Event>): NodeState
  {
    if es == [] then s else Apply(Run(s, es[..|es| - 1]), es[|es| - 1])
  }

  /** Along any run, the tables stay in step, and every message the node
      has sent is an answer or a real candidate about a registered sender:
      in particular, never the null candidate. */
  lemma {:induction false} RunKeepsInv(es: seq<Event>)
    ensures Inv(Run(Initial, es))
    ensures forall i :: 0 <= i < |Run(Initial, es).sent| ==>
              Run(Initial, es).sent[i].sdpresponse.Some? || Run(Initial, es).sent[i].icecandidate.Some?
  {
    if es == [] {
      InitialInv();
    } else {
      RunKeepsInv(es[..|es| - 1]);
      var s := Run(Initial, es[..|es| - 1]);
      match es[|es| - 1]
      case SocketMessage(t, outcome) =>
        if t.parsed.Some? {
          HandleMessagePreservesInv(s, t.parsed.value, outcome);
        }
      case IceGathered(key, c) => GatherCandidatePreservesInv(s, key, c);
      case ChannelOpened(key, ch) => OpenChannelPreservesInv(s, key, ch);
    }
  }

  /** The receiving page's state. */
  class Node {
    var connections: map<Key, PeerId>
    var buffers: map<Key, seq<Payload>>
    var dataChannels: map<Key, ChannelId>
    var peers: nat
    var sent: seq<Envelope>
    var calls: seq<PcCall>

    function State(): NodeState
      reads this
    {
      NodeState(connections, buffers, dataChannels, peers, sent, calls)
    }

    constructor ()
      ensures State() == Initial
    {
      connections := map[];
      buffers := map[];
      dataChannels := map[];
      peers := 0;
      sent := [];
      calls := [];
    }

    method OnSocketMessage(t: Text, outcome: OfferOutcome)
      modifies this
      ensures State() == ReceiveSignal(old(State()), t, outcome)
    {
      if t.parsed.None? {
        return;
      }
      var message := t.parsed.value;
      if message.identifiedas == Some(1) {
        return;
      }
      var key := message.identifier;
      var pc := RegisterSender(key);
      if message.sdpoffer.Some? {
        calls := calls + [SetRemoteDescription(pc, message.sdpoffer.value)];
      }
      if message.icecandidate.Some? {
        calls := calls + [AddIceCandidate(pc, message.icecandidate.value)];
      }
      if message.sdpoffer.Some? {
        SettleOffer(key, pc, outcome);
      }
    }

    /** The lazy registration at the head of the socket handler. */
    method RegisterSender(key: Key) returns (pc: PeerId)
      modifies this
      ensures State() == Register(old(State()), key)
      ensures key in connections && pc == connections[key]
    {
      if key !in connections {
        connections := connections[key := peers];
        buffers := buffers[key := []];
        peers := peers + 1;
      }
      pc := connections[key];
    }

    /** The continuation of the offer's promise chain. */
    method SettleOffer(key: Key, pc: PeerId, outcome: OfferOutcome)
      modifies this
      ensures State() == Settle(old(State()), key, pc, outcome)
    {
      match outcome
      case RemoteRejected =>
      case AnswerRejected =>
        calls := calls + [CreateAnswer(pc)];
      case Answered(answer) =>
        calls := calls + [CreateAnswer(pc)];
        sent := sent + [AnswerEnvelope(key, answer)];
        calls := calls + [SetLocalDescription(pc, answer)];
        assert calls == old(calls) + [CreateAnswer(pc), SetLocalDescription(pc, answer)];
    }

    method OnIceCandidate(key: Key, candidate: Option<Candidate>)
      modifies this
      ensures State() == GatherCandidate(old(State()), key, candidate)
    {
      if key in connections && candidate.Some? {
        sent := sent + [CandidateEnvelope(key, candidate.value)];
      }
    }

    method OnChannelOpen(key: Key, channel: ChannelId)
      modifies this
      ensures State() == OpenChannel(old(State()), key, channel)
    {
      if key in connections {
        dataChannels := dataChannels[key := channel];
      }
    }
  }
}
