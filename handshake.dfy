/**
 * The two halves of the handshake meet at the relay: the receiving node
 * tags its answer with the number the offer carried, and the relay uses
 * that number to pick the sender socket.
 */
module Handshake {
  import opened Wrappers
  import opened Signalling
  import Relay
  import ReceiverNode

  /** An offer from the sender socket that was last told number `k`, on a
      relay reached by any run from the start, is answered with a frame the
      relay delivers to that socket and to no one else. When numbers are
      reused, an earlier socket told `k` that is still connected is no
      longer the one last told `k`, and does not get the answer. */
  lemma AnswerReachesOfferer(node: ReceiverNode.NodeState, offer: Envelope, a: Sdp,
                             es: seq<Relay.Event>, relay: Relay.RelayState,
                             receiver: Relay.SocketId, offerer: Relay.SocketId, raw: string, k: int)
    requires offer.identifiedas != Some(1) && offer.identifier == Some(k) && offer.sdpoffer.Some?
    requires Relay.Run(Relay.Initial, es) == Ok(relay)
    requires receiver in relay.roles && relay.roles[receiver] == Relay.ReceiverRole
    requires k != 1 && Relay.LastTold(relay.outbox, k) == Some(offerer)
    ensures var sent := ReceiverNode.HandleMessage(node, offer, ReceiverNode.Answered(a)).sent;
            var frame := Text(raw, Some(sent[|sent| - 1]));
            && |sent| == |node.sent| + 1
            && Relay.Route(relay, receiver, frame) ==
                 Ok(relay.(outbox := relay.outbox + [Relay.Delivery(offerer, Relay.Relayed(frame))]))
  {
    ReceiverNode.AnswersEachOffer(node, offer, ReceiverNode.Answered(a));
    Relay.RunKeepsSlotsFollowing(es);
    assert k in relay.clientSockets && relay.clientSockets[k] == offerer;
    var sent := ReceiverNode.HandleMessage(node, offer, ReceiverNode.Answered(a)).sent;
    Relay.ReceiverFrameRouting(relay, receiver, Text(raw, Some(sent[|sent| - 1])));
  }
}
