# Digital puppetry: the streaming and signalling core

This project models, in Dafny, the parts of the digital-puppetry system
that move a pose from one browser to another:

- **Pose codec** (`camera.js`). `deconstructPose` packs a PoseNet pose into
  two `Int16Array`s: 18 scaled confidences and 34 positions.
  `reconstructPose` reads them back into a 17-keypoint pose, and
  `reconstructFaceData` copies a `Float32Array` of face-mesh coordinates
  into a list. `receiver/receiver.js:121-130` holds an identical copy of
  `reconstructFaceData`; both are modelled by the one
  `PoseCodec.ReconstructFaceData`.
- **Frame stream** (`camera.js`). `transmit` sends, each cycle, the two
  pose buffers (when there is a pose) and then either the face buffer and
  face confidence or `0` and `0`. A number given to `send` travels as
  its string form. The data channel's `onmessage` handler collects
  arrivals in a list and decodes the list whenever it holds four entries.
- **Relay** (`app.js`). The HTTP server gives `/` the receiver page
  before any WebSocket connection was accepted and the sender page after.
  The WebSocket server numbers each connection by the live connection
  count. Number 1 becomes the receiver; any other number becomes a sender
  slot. Frames from the receiver go to the sender their `identifier`
  names; frames from senders go to the receiver unparsed.
- **Receiving node** (`receiver/receiver.js`). It creates one peer
  connection per sender, lazily; answers offers; adds remote ICE
  candidates; and forwards its own candidates, except the null one.

JavaScript numbers are `Finite(real) | NaN | Undefined`. `ToInt16` (what an
`Int16Array` element keeps) truncates toward zero and wraps modulo 2^16.
Buffers are little-endian byte sequences. A `Float32Array` element is kept
as its four bytes, because the face path copies floats and never computes
with them.

Where the prose description of the system and the code disagree, the
model follows the code:

- Connection numbers come from `this.clients.size` (`app.js:51`). The
  `ws` library adds the new socket to `clients` before it emits
  `connection`, so the first connection is told number 1 and becomes the
  receiver. The numbers are live counts, not arrival counts: they come
  back after a disconnect (`Relay.NumberReuseOverwritesSlot`).
- The receiver slot is not reserved for life. When the receiver leaves
  as the only connection, the next arrival takes the slot
  (`Relay.ReceiverSlotReassigned`). No close handler releases any
  bookkeeping; closing only removes the socket from the library's live
  set.
- A frame that cannot be routed is not silently dropped. `JSON.parse`
  throws on a frame that is not JSON, and `.send` on an empty slot throws
  a `TypeError`. Both are `Err` results that leave the state unchanged,
  and a run of relay events stops at the first one (`Relay.Run`).
- Pose values are not rounded. `ToInt16` truncates toward zero and
  wraps. A probability comes back at most 1/10000 below the value sent;
  a coordinate comes back truncated toward zero.
- The face marker `0` arrives as the string "0", because a data channel
  sends a number as text. The guard `faceData !== 0` (`camera.js:157`)
  therefore always passes. A cycle without a face still makes the face
  update, with no positions (`new Float32Array("0")` is empty) and the
  confidence "0".

## Model

| member | source | states |
|---|---|---|
| JsNumbers.ToInt16 | camera.js:317-321 | storing a number into an Int16Array element keeps its truncation toward zero modulo 2^16; NaN and undefined become 0 |
| JsNumbers.ToInt16TruncatesAndWraps | camera.js:317-321 | concrete stores: 2.75 becomes 2, -2.75 becomes -2, 32768 becomes -32768, -32769 becomes 32767, NaN becomes 0 |
| JsNumbers.ToInt16Exact | camera.js:320-321 | a value an int16 can hold is stored exactly |
| JsNumbers.ToIndex | camera.js:137 | a typed-array constructor given a number: NaN counts as 0, a finite value is truncated, and a negative length throws a RangeError |
| TypedBuffers.Int16View | camera.js:137 | `new Int16Array(x)` over an ArrayBuffer or over the text of a number; characterised by `Int16ViewShape`, `Int16ViewOfBuffer` and `BufferOfInt16View` |
| TypedBuffers.Float32View | camera.js:205 | `new Float32Array(x)` over an ArrayBuffer or over the text of a number; characterised by `Float32ViewShape`, `Float32ViewOfBuffer` and `BufferOfFloat32View` |
| TypedBuffers.Int16ViewShape | camera.js:137 | `new Int16Array(x)` throws exactly on an odd-length buffer or a negative length; otherwise it holds the buffer's byte pairs or that many zeros |
| TypedBuffers.Float32ViewShape | camera.js:205 | `new Float32Array(x)` throws exactly when the buffer length is not a multiple of 4 or the length is negative; otherwise it holds the groups of four bytes or that many zeros |
| TypedBuffers.Int16ViewOfBuffer | camera.js:281-282 | reading `a.buffer` of an Int16Array as an Int16Array gives back the same elements |
| TypedBuffers.BufferOfInt16View | camera.js:137 | an even-length buffer is the buffer of its own Int16Array view |
| TypedBuffers.Float32ViewOfBuffer | camera.js:290 | reading the buffer of a Float32Array as a Float32Array gives back the same elements |
| TypedBuffers.BufferOfFloat32View | camera.js:205 | a buffer whose length is a multiple of 4 is the buffer of its own Float32Array view |
| PoseCodec.ConfidenceSlots | camera.js:314-322 | the confidences array deconstructPose fills: slot 0 the scaled pose score, slot i+1 keypoint i's scaled score, 0 elsewhere; `DeconstructPose` is proved to produce it and `EncodeDecode` inverts it |
| PoseCodec.PositionSlots | camera.js:314-322 | the positions array deconstructPose fills: slots 2i and 2i+1 keypoint i's x and y, 0 elsewhere; `DeconstructPose` is proved to produce it and `EncodeDecode` inverts it |
| PoseCodec.StoreKeypoint | camera.js:318-322 | one loop iteration moves both arrays from the slots of the first i keypoints to the slots of the first i+1 |
| PoseCodec.DeconstructPose | camera.js:311-325 | null for no pose; otherwise fresh arrays of 18 and 34 elements holding the scaled pose score, the keypoint scores times 10000, and x, y per keypoint, all through ToInt16, with unwritten slots 0 |
| PoseCodec.ExtraKeypointsDropped | camera.js:318-322 | a pose with more than 17 keypoints encodes like its first 17 (the writes past the array ends are ignored) |
| PoseCodec.EncodesExample | camera.js:317-321 | a concrete pose's score 0.8734 is stored as 8734, and its first keypoint as 5000, 120, 45 |
| PoseCodec.ReconstructPose | camera.js:332-349 | the decoded pose has exactly 17 keypoints, named by `parts` in order |
| PoseCodec.ScoreRoundTrip | camera.js:317-335 | a score whose scaled value is an int16 comes back exactly |
| PoseCodec.DecodeEncode | camera.js:311-349 | decoding the encoding of a 17-keypoint pose whose scaled scores and coordinates are int16 values gives the same pose |
| PoseCodec.ScoreApproximated | camera.js:317-335 | a score in [0, 1] is read back at most 1/10000 below it and never above it: the scaled value lies in [0, 10000], so the store truncates and never wraps |
| PoseCodec.CoordTruncated | camera.js:320-321 | a coordinate in int16 range is read back truncated toward zero, without wrapping |
| PoseCodec.DecodeEncodeApproximately | camera.js:311-349 | for any pose the estimator produces (17 keypoints in part order, probabilities, coordinates in int16 range), the decoded pose has the same parts, every score within 1/10000 below the sent one, and every coordinate truncated toward zero |
| PoseCodec.EncodeDecode | camera.js:311-349 | encoding a decoded pose gives the received arrays, cut or padded with zeros to 18 and 34 |
| PoseCodec.EncodeDecodeExact | camera.js:311-349 | for arrays of exactly 18 and 34 elements, encoding the decoded pose gives them back unchanged |
| PoseCodec.CopyOut | receiver/receiver.js:122-129 | the forEach/push loop (the same in both files) builds a list with the view's length and, at each index, the view's element |
| PoseCodec.ReconstructFaceData | camera.js:204-213 | the result is the Float32Array view of the buffer, element for element, or the RangeError its constructor throws |
| FrameStream.DecodeUnit | camera.js:134-173 | the body of `if (message.length === 4)`, with the `faceData !== 0` guard always passing; characterised by `DecodeUnitRule` |
| FrameStream.DecodeUnitRule | camera.js:134-173 | a list of four is fully handled (and then cleared) exactly when both Int16Array views and the Float32Array view are accepted; the pose update comes first, and the face update follows exactly when the list is fully handled |
| FrameStream.ZeroMarkerViews | camera.js:137-160 | the marker "0" is read by the Int16Array view as an empty array and by the Float32Array view as a face with no positions |
| FrameStream.StepWith | camera.js:130-175 | one arrival: pushed on the list, and a list of four decoded, then cleared only when the decode ran to its end; characterised by `FeedDecodesEveryFourth` and `FailedDecodeJamsAccumulator` |
| FrameStream.FeedWith | camera.js:130-175 | a sequence of arrivals handled in order; characterised by `FeedAppend`, `FeedDecodesEveryFourth` and `FailedDecodeJamsAccumulator` |
| FrameStream.FrameAccumulator.OnMessage | camera.js:130-175 | the handler's list and updates after one arrival are the accumulator step of the old ones |
| FrameStream.FeedAppend | camera.js:130-175 | feeding two runs of arrivals is feeding one and then the other |
| FrameStream.FeedDecodesEveryFourth | camera.js:130-175 | while every group of four is handled to its end, the updates are exactly those of the complete groups, in order, and the list holds the at most three arrivals after them |
| FrameStream.FailedDecodeJamsAccumulator | camera.js:134-173 | once a decode has thrown, the list keeps growing and nothing is ever decoded again |
| FrameStream.BenignUnitCompletes | camera.js:134-173 | a group of four payloads that every view accepts is handled to its end |
| FrameStream.CycleMessages | camera.js:280-295 | the messages one `transmit` cycle sends; characterised by `CycleShape` and `CycleMessagesBenign`, and `Transmit` is proved to send them |
| FrameStream.Transmit | camera.js:276-295 | the channel receives, in order, the two pose buffers when there is a pose, then the face buffer and confidence or 0 and 0 |
| FrameStream.CycleShape | camera.js:276-295 | a cycle sends 4 messages with a pose and 2 without; the pose buffers are 36 and 68 bytes; the last two are the face pair |
| FrameStream.CycleMessagesBenign | camera.js:276-295 | every message a cycle sends is accepted by every view, given a non-negative face confidence |
| FrameStream.CycleDecodes | camera.js:130-175 | a four-message cycle arriving as one unit is handled to its end and makes two updates: the decoded pose, then the same pose with the face, which holds exactly the sent positions, or none and the confidence "0" for a cycle without a face; the decoded pose approximates the sent one as `DecodeEncodeApproximately` states, and equals it when lossless |
| FrameStream.PoselessCycleMisalignsReceiver | camera.js:280-295 | a cycle without a pose, then a cycle with one: the receiver decodes `0, 0, confidences, positions` as one unit and keeps the next two arrivals |
| FrameStream.AlignedStreamDecodesEveryCycle | camera.js:130-175 | when a pose-less cycle sends nothing, every cycle with a pose makes, in order and exactly once, the pose update and then the face update (an empty face when the cycle had none), and the list is empty between cycles |
| Relay.HandleHttpRequest | app.js:22-42 | the page chosen for a request path; characterised by `IndexPageAfterRun`, which also covers the script paths and the paths with no response |
| Relay.Connect | app.js:49-90 | a connection arriving: numbered, counted, told its number and given its role; characterised by `ConnectNumbersByLiveCount` and `ConnectAssignsRole` |
| Relay.Close | app.js:92 | a socket closing or being terminated: only the library's live set changes, and the slots still point at it; preserved invariants in `ApplyPreservesInv` |
| Relay.Route | app.js:67-89 | a frame arriving on a socket; characterised by `ReceiverFrameRouting` and `SenderFrameRouting` |
| Relay.ConnectNumbersByLiveCount | app.js:49-58 | a new connection is told the live count including itself, the counter goes up by one, and only its own identity notice is written |
| Relay.ConnectAssignsRole | app.js:60-90 | number 1 takes the receiver slot and leaves the sender slots alone; any other number takes, or overwrites, its sender slot |
| Relay.ReceiverFrameRouting | app.js:67-75 | a receiver frame goes verbatim to exactly the sender its identifier names; a frame that is not JSON, or that names no slot, throws and writes nothing |
| Relay.SenderFrameRouting | app.js:83-89 | a sender frame goes verbatim and unparsed to the receiver, or throws when there is none; whether it parses makes no difference |
| Relay.ApplyPreservesInv | app.js:49-93 | every event keeps each socket under one listener, the receiver slot on a receiver, the sender slots on senders numbered 2 and up, and deliveries addressed to accepted sockets |
| Relay.RunKeepsRoles | app.js:60-90 | a socket keeps the role it got when it connected for the rest of any run |
| Relay.ApplyKeepsSlotsFollowing | app.js:56-80 | every event keeps each sender slot on the socket last told its number, and no slot for a number nobody was told |
| Relay.RunKeepsSlotsFollowing | app.js:56-80 | after any run from the start, sender slot k holds exactly the socket that was last told number k |
| Relay.CounterCountsArrivals | app.js:53 | after any run `connectedClients` is the number of connections ever accepted; departures never lower it |
| Relay.IndexPageAfterRun | app.js:22-42 | `/` serves the receiver page exactly while no connection has been accepted, and the sender page after that; the two scripts are served by their own paths, and any other path gets no response |
| Relay.ArrivalsNumberedInOrder | app.js:49-90 | with no departures, n arrivals reach the state where sockets 0 to n-1 are live, socket 0 is the receiver and all others are senders |
| Relay.NoticesInOrder | app.js:51-58 | in that state socket k has been told number k+1 |
| Relay.SenderSlotsInOrder | app.js:77-80 | in that state the sender slots are numbers 2 to n, and slot k holds socket k-1 |
| Relay.ConnectAfterArrivals | app.js:49-90 | one more arrival on top of n arrivals gives the state of n+1 arrivals |
| Relay.FirstArrivalIsReceiver | app.js:51-66 | the first connection ever accepted is told 1 and becomes the receiver |
| Relay.ThreePartyRouting | app.js:67-89 | with a receiver and two senders, a frame from sender 2 reaches only the receiver, and the reply naming 2 reaches only sender 2 |
| Relay.NumberReuseOverwritesSlot | app.js:51-80 | when number 2 leaves and another socket arrives, the newcomer is told 3 again and takes slot 3, becoming the socket last told 3, so the connected socket that held that slot becomes unreachable |
| Relay.LeaveThenArrive | app.js:51-80 | with three sockets live, socket 1 leaves and a new socket arrives: the newcomer is told 3 and overwrites slot 3 |
| Relay.ReceiverSlotReassigned | app.js:60-65 | when the receiver leaves as the only connection, the next arrival is told 1 and takes the receiver slot |
| Relay.RelayServer.OnConnection | app.js:49-90 | the server's variables after a connection are the `Connect` step of the old ones, and it returns the socket and its number |
| Relay.RelayServer.OnClose | app.js:92 | the server's variables after a close are the `Close` step of the old ones |
| Relay.RelayServer.OnMessage | app.js:67-89 | when routing succeeds, the new state is the routed one; when it throws, the error is returned and nothing changes |
| ReceiverNode.Register | receiver/receiver.js:25-29 | the first message naming a sender creates its peer connection and empty buffer; characterised by `RegistersNewSendersOnly` |
| ReceiverNode.Settle | receiver/receiver.js:88-101 | the end of an offer's promise chain; characterised by `AnswersEachOffer` and `CallOrder` |
| ReceiverNode.HandleMessage | receiver/receiver.js:19-113 | a parsed socket message; characterised by `IgnoresOwnNotice`, `RegistersNewSendersOnly`, `AnswersEachOffer`, `CallOrder` and `HandleMessagePreservesInv` |
| ReceiverNode.ReceiveSignal | receiver/receiver.js:14-16 | a socket frame: one that is not JSON throws and changes nothing, one that parses is handled; its invariant is in `RunKeepsInv` |
| ReceiverNode.GatherCandidate | receiver/receiver.js:69-82 | the node's own candidate, dropped when null; characterised by `CandidateFilter` |
| ReceiverNode.OpenChannel | receiver/receiver.js:43-48 | an opened channel recorded under its sender; its invariant is in `RunKeepsInv` |
| ReceiverNode.IgnoresOwnNotice | receiver/receiver.js:20-23 | the identity notice for number 1 changes nothing |
| ReceiverNode.RegistersNewSendersOnly | receiver/receiver.js:25-29 | any other message creates a peer connection and an empty buffer for its identifier exactly when it has none, and touches nothing else in the tables |
| ReceiverNode.AnswersEachOffer | receiver/receiver.js:85-103 | an answered offer sends exactly one message, `{identifier, sdpresponse}` with the offer's identifier; no other socket message sends anything |
| ReceiverNode.CallOrder | receiver/receiver.js:85-113 | on the sender's peer connection: the offer is set as remote description, then the candidate is added, then the answer is created and set as local description |
| ReceiverNode.Node.RegisterSender | receiver/receiver.js:25-29 | the node's fields after registration are the `Register` step of the old ones, and the returned peer connection is the one under the key |
| ReceiverNode.Node.SettleOffer | receiver/receiver.js:89-101 | the node's fields after the offer's chain are the `Settle` step of the old ones |
| ReceiverNode.CandidateFilter | receiver/receiver.js:69-82 | a gathered candidate is sent tagged with the sender's identifier; the null candidate sends nothing |
| ReceiverNode.HandleMessagePreservesInv | receiver/receiver.js:14-114 | one buffer per peer connection, distinct senders on distinct peer connections, channels only for registered senders, and only answers and real candidates sent |
| ReceiverNode.RunKeepsInv | receiver/receiver.js:14-114 | after any run, the tables are in step and every message the node sent carries an answer or a non-null candidate |
| ReceiverNode.Node.OnSocketMessage | receiver/receiver.js:14-114 | the node's fields after a socket message are the `ReceiveSignal` step of the old ones |
| ReceiverNode.Node.OnIceCandidate | receiver/receiver.js:69-82 | the node's fields after a gathered candidate are the `GatherCandidate` step of the old ones |
| ReceiverNode.Node.OnChannelOpen | receiver/receiver.js:43-48 | opening the channel records it under the sender's identifier |
| Handshake.AnswerReachesOfferer | receiver/receiver.js:94-97 | on a relay reached by any run, the answer to an offer naming k is routed to the socket last told number k, which is the offerer when it was the last told k, and to no one else |

## Left out

- IEEE 754 arithmetic is not modelled. `10000 * score` and `/ 10000` are exact real operations, and infinities do not occur. A face coordinate is never computed with, so it is kept as bytes.
- `ToIndex`'s upper bound of 2^53 - 1 is not modelled.
- Rendering is left out: `Skeleton.flipPose`, the canvas and SVG drawing, `drawPoint`, and the receiving page's data-channel `onmessage`, which only draws. `flipPose` mirrors the decoded pose in place before `updateSkeleton` is called; an update records the pose as decoded, before that mirroring.
- The data channel is taken to deliver binary messages as ArrayBuffers (`binaryType` "arraybuffer"). Delivery as a `Blob` is not modelled.
- The string form of a number sent on the data channel is not modelled character by character. A text message is the number it spells.
- The statistics and monitoring code of `camera.js` is left out, as are the pose and face estimators. Their results are parameters of `Transmit`.
- `Skeleton.toBufferedFaceFrame` is not part of this model. Its face positions are given as a `Float32Array`'s elements.
- The local loop-back peer connections in `camera.js` are left out.
- `sender/sender.js` is not part of this model.
- The receiver's offer chain is asynchronous, with `setRemoteDescription`, then `createAnswer`, then sending the answer, then `setLocalDescription`. Its continuation is collapsed into the message step. Its outcome (either rejection, or the answer) is a parameter. Interleaving with later messages is not modelled.
- ReceiverNode.RunKeepsInv: the order between the socket sends and the peer-connection calls of one message is not recorded. They are two separate logs.
- `JSON.parse` and `JSON.stringify` are not modelled character by character. A frame is its raw text together with the message it parses to, or `None` when parsing throws.
- `addIceCandidate`'s rejection is only logged by the source, so the model does not track it.
- Sending on a socket that has already closed is recorded as a delivery. The library discards it; the model does not tell the two apart.
- The relay's HTTP response headers and file reads are left out. A response is named by the page it carries.
- Concurrency and the timing of `setTimeout(transmit, 10)` are left out. Events are applied one at a time in the order given.

## Findings

| source | as written | input that shows it | evidently intended | confidence | as-written member | corrected member |
|---|---|---|---|---|---|---|
| camera.js:280-295 | a cycle without a pose sends only `0, 0`, while the receiver always decodes groups of four (camera.js:134) | a cycle with no pose and no face, then a cycle with pose p: the receiver decodes `0, 0, confidences(p), positions(p)` as one unit, shows a pose with NaN score, and stays two messages out of step | every cycle sends a whole unit of four, or nothing | not executed | FrameStream.PoselessCycleMisalignsReceiver | FrameStream.AlignedStreamDecodesEveryCycle |
