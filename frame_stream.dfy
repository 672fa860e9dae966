/**
 * The data-channel side of camera.js. The sender's `transmit` cycle sends
 * pose confidences and pose positions when there is a pose, then either
 * the face buffer and face confidence or `0` and `0`; a number given to
 * `send` travels as its string form. The receiver's `onmessage` handler
 * pushes each arrival onto its `message` list and, when the list holds
 * four entries, decodes them as one frame unit, hands the result to
 * `illustration.updateSkeleton`, and clears the list.
 */
module FrameStream {
  import opened Wrappers
  import opened JsNumbers
  import opened TypedBuffers
  import opened PoseCodec

  /** The face object the receiver builds: positions and `message[3]` as it arrived. */
  datatype Face = Face(positions: seq<Coord>, faceInViewConfidence: Payload)

  /** One call of `illustration.updateSkeleton(pose, face)`. The pose
      recorded is the decoded pose: `Skeleton.flipPose` mirrors it in place
      before the calls, and that mirroring is not part of this model. */
  datatype Update = Update(pose: Pose, face: Option<Face>)

  /** What handling one four-entry list does: the updates made, in order,
      and whether the handler ran to its end (and so cleared the list). */
  datatype UnitOutcome = UnitOutcome(updates: seq<Update>, completed: bool)

  /** The body of `if (message.length === 4)`. The two Int16Array views
      are built first; a view the constructor rejects throws and ends the
      handler. The pose update is made. The guard `faceData !== 0` always
      passes, because an entry is an ArrayBuffer or a string and never the
      number 0, so the face is always decoded, and its view can throw as
      well. */
  function DecodeUnit(m: seq<Payload>): UnitOutcome
    requires |m| == 4
  {
    match (Int16View(m[0]), Int16View(m[1]))
    case (Ok(c), Ok(q)) =>
      var pose := ReconstructPose(c, q);
      (match Float32View(m[2])
       case Ok(positions) =>
         UnitOutcome([Update(pose, None), Update(pose, Some(Face(positions, m[3])))], true)
       case Err(_) => UnitOutcome([Update(pose, None)], false))
    case _ => UnitOutcome([], false)
  }

  /** A unit is fully handled exactly when both Int16Array views and the
      Float32Array view succeed. The pose update is made as soon as both
      Int16Array views exist; a second update carrying the face follows
      exactly when the unit is fully handled. */
  lemma DecodeUnitRule(m: seq<Payload>)
    requires |m| == 4
    ensures var r := DecodeUnit(m);
            && (r.completed <==>
                  Int16View(m[0]).Ok? && Int16View(m[1]).Ok? && Float32View(m[2]).Ok?)
            && |r.updates| <= 2
            && (r.updates != [] <==> Int16View(m[0]).Ok? && Int16View(m[1]).Ok?)
            && (r.updates != [] ==>
                  r.updates[0] == Update(ReconstructPose(Int16View(m[0]).value, Int16View(m[1]).value), None))
            && (|r.updates| == 2 <==> r.completed)
            && (|r.updates| == 2 ==>
                  r.updates[1] == r.updates[0].(face := Some(Face(Float32View(m[2]).value, m[3]))))
  {
  }

  /** The outcome of a unit whose two Int16Array views hold `c` and `q`
      and whose face view succeeds. */
  lemma DecodeWithViews(m: seq<Payload>, c: seq<int16>, q: seq<int16>)
    requires |m| == 4 && Int16View(m[0]) == Ok(c) && Int16View(m[1]) == Ok(q) && Float32View(m[2]).Ok?
    ensures DecodeUnit(m) == UnitOutcome([Update(ReconstructPose(c, q), None),
              Update(ReconstructPose(c, q), Some(Face(Float32View(m[2]).value, m[3])))], true)
  {
  }

  /** The marker "0" that stands for "no face" is read by every view as a
      length of 0: an empty pose array, and a face with no positions. */
  lemma ZeroMarkerViews()
    ensures Int16View(Zero) == Ok([])
    ensures Float32View(Zero) == Ok([])
  {
    assert Trunc(0.0) == 0;
    assert |Int16View(Zero).value| == 0;
    assert |Float32View(Zero).value| == 0;
  }

  /** The receiver's accumulator: the `message` list and the updates made so far. */
  datatype Receiving = Receiving(message: seq<Payload>, updates: seq<Update>)

  const Start: Receiving := Receiving([], [])

  /** What the handler does with its list once the list holds four
      entries. The bookkeeping of the accumulator is stated below for any
      decoder, and the handler's own is `DecodeList`. */
  type Decoder = seq<Payload> -> UnitOutcome

  /** `DecodeUnit` as a value the accumulator can be given; the accumulator
      only applies it to lists of four. */
  function DecodeList(m: seq<Payload>): UnitOutcome
  {
    if |m| == 4 then DecodeUnit(m) else UnitOutcome([], false)
  }

  /** One arrival. When a decode throws, the list is not cleared. */
  function StepWith(decode: Decoder, s: Receiving, data: Payload): Receiving
  {
    var m := s.message + [data];
    if |m| != 4 then Receiving(m, s.updates)
    else
      var u := decode(m);
      Receiving(if u.completed then [] else m, s.updates + u.updates)
  }

  /** A sequence of arrivals, in order. */
  function FeedWith(decode: Decoder, s: Receiving, ps: seq<Payload>): Receiving
    decreases |ps|
  {
    if ps == [] then s else StepWith(decode, FeedWith(decode, s, ps[..|ps| - 1]), ps[|ps| - 1])
  }

  /** The handler's own step and run. */
  function Step(s: Receiving, data: Payload): Receiving
  {
    StepWith(DecodeList, s, data)
  }

  function Feed(s: Receiving, ps: seq<Payload>): Receiving
  {
    FeedWith(DecodeList, s, ps)
  }

  lemma StepBelowFour(decode: Decoder, s: Receiving, d: Payload)
    requires |s.message| < 3
    ensures StepWith(decode, s, d) == Receiving(s.message + [d], s.updates)
  {
  }

  lemma StepCompletingUnit(decode: Decoder, s: Receiving, d: Payload)
    requires |s.message| == 3 && decode(s.message + [d]).completed
    ensures StepWith(decode, s, d) == Receiving([], s.updates + decode(s.message + [d]).updates)
  {
  }

  /** The `dataChannel.onmessage` handler, over the closure-held `message` list. */
  class FrameAccumulator {
    var message: seq<Payload>
    var updates: seq<Update>

    constructor ()
      ensures message == [] && updates == []
    {
      message := [];
      updates := [];
    }

    method OnMessage(data: Payload)
      modifies this
      ensures Receiving(message, updates) == Step(Receiving(old(message), old(updates)), data)
    {
      message := message + [data];
      if |message| == 4 {
        var confidences := Int16View(message[0]);
        if confidences.Err? {
          return;
        }
        var positions := Int16View(message[1]);
        if positions.Err? {
          return;
        }
        var pose := ReconstructPose(confidences.value, positions.value);
        updates := updates + [Update(pose, None)];
        // `faceData !== 0` holds: the entry is an ArrayBuffer or a string.
        var facePositions := ReconstructFaceData(message[2]);
        if facePositions.Err? {
          return;
        }
        updates := updates + [Update(pose, Some(Face(facePositions.value, message[3])))];
        message := [];
      }
    }
  }

  lemma {:induction false} FeedAppend(decode: Decoder, s: Receiving, a: seq<Payload>, b: seq<Payload>)
    ensures FeedWith(decode, s, a + b) == FeedWith(decode, FeedWith(decode, s, a), b)
    decreases |b|
  {
    if b == [] {
      assert a + b == a;
    } else {
      assert (a + b)[..|a + b| - 1] == a + b[..|b| - 1];
      FeedAppend(decode, s, a, b[..|b| - 1]);
    }
  }

  /** The `k`-th group of four arrivals. */
  function Unit(ps: seq<Payload>, k: nat): seq<Payload>
    requires 4 * k + 4 <= |ps|
  {
    ps[4 * k..4 * k + 4]
  }

  predicate UnitCompletes(decode: Decoder, ps: seq<Payload>, k: nat)
    requires 4 * k + 4 <= |ps|
  {
    decode(Unit(ps, k)).completed
  }

  /** The updates of the first `n` groups of four, in order. */
  function UpdatesOf(decode: Decoder, ps: seq<Payload>, n: nat): seq<Update>
    requires 4 * n <= |ps|
  {
    if n == 0 then [] else UpdatesOf(decode, ps, n - 1) + decode(Unit(ps, n - 1)).updates
  }

  lemma {:induction false} UpdatesOfPrefix(decode: Decoder, ps: seq<Payload>, ps': seq<Payload>, n: nat)
    requires 4 * n <= |ps'| <= |ps| && ps' == ps[..|ps'|]
    ensures UpdatesOf(decode, ps', n) == UpdatesOf(decode, ps, n)
  {
    if n > 0 {
      assert Unit(ps', n - 1) == Unit(ps, n - 1);
      UpdatesOfPrefix(decode, ps, ps', n - 1);
    }
  }

  lemma SuccDivMod4(x: nat)
    ensures x == 4 * (x / 4) + x % 4
    ensures x % 4 == 3 ==> (x + 1) % 4 == 0 && (x + 1) / 4 == x / 4 + 1
    ensures x % 4 != 3 ==> (x + 1) % 4 == x % 4 + 1 && (x + 1) / 4 == x / 4
  {
  }

  /** Dropping the last arrival keeps every complete group of four that fits. */
  lemma UnitsOfPrefix(decode: Decoder, ps: seq<Payload>, ps': seq<Payload>)
    requires ps != [] && ps' == ps[..|ps| - 1]
    requires forall k :: 0 <= k < |ps| / 4 ==> UnitCompletes(decode, ps, k)
    ensures forall k :: 0 <= k < |ps'| / 4 ==> UnitCompletes(decode, ps', k)
  {
    forall k | 0 <= k < |ps'| / 4
      ensures UnitCompletes(decode, ps', k)
    {
      assert UnitCompletes(decode, ps, k);
      assert Unit(ps', k) == Unit(ps, k);
    }
  }

  /** The arrival that fills a group of four which decodes clears the list. */
  lemma StepClosesUnit(decode: Decoder, ps: seq<Payload>, s: Receiving, q: nat)
    requires |ps| == 4 * q + 4 && UnitCompletes(decode, ps, q)
    requires s == Receiving(ps[4 * q..|ps| - 1], UpdatesOf(decode, ps, q))
    ensures StepWith(decode, s, ps[|ps| - 1]) == Receiving([], UpdatesOf(decode, ps, q + 1))
  {
    assert s.message + [ps[|ps| - 1]] == Unit(ps, q);
    StepCompletingUnit(decode, s, ps[|ps| - 1]);
  }

  /** Any other arrival is appended to the list. */
  lemma StepExtendsUnit(decode: Decoder, ps: seq<Payload>, s: Receiving, k: nat)
    requires k < |ps| && |ps| - k <= 3
    requires s.message == ps[k..|ps| - 1]
    ensures StepWith(decode, s, ps[|ps| - 1]) == Receiving(ps[k..], s.updates)
  {
    StepBelowFour(decode, s, ps[|ps| - 1]);
    assert ps[k..|ps| - 1] + [ps[|ps| - 1]] == ps[k..];
  }

  /** While every group of four decodes, a decode happens exactly on the
      4th, 8th, 12th, ... arrival and consumes those four consecutive
      arrivals; what is left in the list is the arrivals since the last
      decode, so it never holds more than three. */
  lemma {:induction false} FeedDecodesEveryFourth(decode: Decoder, ps: seq<Payload>)
    requires forall k :: 0 <= k < |ps| / 4 ==> UnitCompletes(decode, ps, k)
    ensures FeedWith(decode, Start, ps) == Receiving(ps[|ps| - |ps| % 4..], UpdatesOf(decode, ps, |ps| / 4))
    ensures |FeedWith(decode, Start, ps).message| <= 3
    decreases |ps|
  {
    if ps != [] {
      var n := |ps|;
      var ps' := ps[..n - 1];
      UnitsOfPrefix(decode, ps, ps');
      FeedDecodesEveryFourth(decode, ps');
      var qd, r := (n - 1) / 4, (n - 1) % 4;
      SuccDivMod4(n - 1);
      UpdatesOfPrefix(decode, ps, ps', qd);
      var s' := FeedWith(decode, Start, ps');
      var k := n - 1 - r;
      assert s'.message == ps[k..n - 1];
      if r == 3 {
        StepClosesUnit(decode, ps, s', qd);
      } else {
        StepExtendsUnit(decode, ps, s', k);
      }
    }
  }

  /** Once a decode has thrown, the list keeps its four entries, grows with
      every arrival and never reaches length four again: nothing more is decoded. */
  lemma {:induction false} FailedDecodeJamsAccumulator(decode: Decoder, s: Receiving, ps: seq<Payload>)
    requires |s.message| >= 4
    ensures FeedWith(decode, s, ps) == Receiving(s.message + ps, s.updates)
    decreases |ps|
  {
    if ps == [] {
      assert s.message + ps == s.message;
    } else {
      FailedDecodeJamsAccumulator(decode, s, ps[..|ps| - 1]);
      assert s.message + ps[..|ps| - 1] + [ps[|ps| - 1]] == s.message + ps;
    }
  }

  /** A payload every view accepts: a buffer whose length is a multiple of
      four, or the text of a number that is a valid length. */
  predicate Benign(p: Payload)
  {
    match p
    case Bytes(b) => |b| % 4 == 0
    case NumberText(n) => ToIndex(n).Ok?
  }

  lemma BenignViews(p: Payload)
    requires Benign(p)
    ensures Int16View(p).Ok? && Float32View(p).Ok?
  {
  }

  /** A group of four payloads the views all accept is handled to its end. */
  lemma BenignUnitCompletes(ps: seq<Payload>, k: nat)
    requires 4 * k + 4 <= |ps|
    requires forall i :: 0 <= i < |ps| ==> Benign(ps[i])
    ensures UnitCompletes(DecodeList, ps, k)
  {
    var m := Unit(ps, k);
    assert m[0] == ps[4 * k] && m[1] == ps[4 * k + 1] && m[2] == ps[4 * k + 2];
    BenignViews(m[0]);
    BenignViews(m[1]);
    BenignViews(m[2]);
    DecodeUnitRule(m);
  }

  /** The face the pose path is given: positions and the face-in-view confidence. */
  datatype FaceFrame = FaceFrame(positions: seq<Coord>, faceInViewConfidence: real)

  /** A data channel, as the messages sent on it in order. */
  class DataChannel {
    var sent: seq<Payload>

    constructor ()
      ensures sent == []
    {
      sent := [];
    }

    method Send(p: Payload)
      modifies this
      ensures sent == old(sent) + [p]
    {
      sent := sent + [p];
    }
  }

  /** The messages of one `transmit` cycle, in the order they are sent; the
      face confidence and the `0` markers travel as text. */
  function CycleMessages(pose: Option<Pose>, face: Option<FaceFrame>): seq<Payload>
  {
    (if pose.Some? then
       [Bytes(Int16Buffer(ConfidenceSlots(pose.value))), Bytes(Int16Buffer(PositionSlots(pose.value)))]
     else [])
    +
    (if face.Some? then
       [Bytes(Float32Buffer(face.value.positions)), NumberText(Finite(face.value.faceInViewConfidence))]
     else [Zero, Zero])
  }

  /** The send sequence of `transmit`, for the first pose and the first face
      the estimators returned (None when they returned none). */
  method Transmit(channel: DataChannel, pose: Option<Pose>, face: Option<FaceFrame>)
    modifies channel
    ensures channel.sent == old(channel.sent) + CycleMessages(pose, face)
  {
    var deconstructed := DeconstructPose(pose);
    if deconstructed.Some? {
      channel.Send(Bytes(Int16Buffer(deconstructed.value.0[..])));
      channel.Send(Bytes(Int16Buffer(deconstructed.value.1[..])));
    }
    if face.Some? {
      channel.Send(Bytes(Float32Buffer(face.value.positions)));
      channel.Send(NumberText(Finite(face.value.faceInViewConfidence)));
    } else {
      channel.Send(Zero);
      channel.Send(Zero);
    }
  }

  /** A cycle sends four messages with a pose and two without; the last two
      are always the face pair, the face buffer and confidence or 0 and 0. */
  lemma CycleShape(pose: Option<Pose>, face: Option<FaceFrame>)
    ensures var ms := CycleMessages(pose, face);
            && |ms| == (if pose.Some? then 4 else 2)
            && (pose.Some? ==>
                  && ms[0] == Bytes(Int16Buffer(ConfidenceSlots(pose.value)))
                  && ms[1] == Bytes(Int16Buffer(PositionSlots(pose.value)))
                  && |ms[0].data| == 36 && |ms[1].data| == 68)
            && (face.None? ==> ms[|ms| - 2..] == [Zero, Zero])
            && (face.Some? ==> ms[|ms| - 2] == Bytes(Float32Buffer(face.value.positions)))
  {
  }

  /** Every message a cycle sends is accepted by every view, provided the
      face confidence is not negative. */
  lemma CycleMessagesBenign(pose: Option<Pose>, face: Option<FaceFrame>)
    requires face.Some? ==> face.value.faceInViewConfidence >= 0.0
    ensures forall i :: 0 <= i < |CycleMessages(pose, face)| ==> Benign(CycleMessages(pose, face)[i])
  {
    if face.Some? {
      assert Trunc(face.value.faceInViewConfidence) >= 0;
    }
    assert Trunc(0.0) == 0;
  }

  /** The face the receiver builds from a cycle's last two messages: the
      sent positions and the text of the sent confidence, or, from the
      `0, 0` markers, no positions and the text "0". */
  function ReceivedFace(face: Option<FaceFrame>): Face
  {
    if face.Some? then Face(face.value.positions, NumberText(Finite(face.value.faceInViewConfidence)))
    else Face([], Zero)
  }

  /** The updates the receiver should make for a cycle that carries a
      pose: the decoded pose alone, then with the face. */
  function CycleUpdates(pose: Pose, face: Option<FaceFrame>): seq<Update>
  {
    var decoded := ReconstructPose(ConfidenceSlots(pose), PositionSlots(pose));
    [Update(decoded, None), Update(decoded, Some(ReceivedFace(face)))]
  }

  /** A unit whose first two entries are the buffers of Int16Arrays holding
      `c` and `q` decodes to the pose read from `c` and `q`, and to the face
      read from the third entry. */
  lemma PoseUnitDecodes(c: seq<int16>, q: seq<int16>, third: Payload, fourth: Payload)
    requires Float32View(third).Ok?
    ensures var m := [Bytes(Int16Buffer(c)), Bytes(Int16Buffer(q)), third, fourth];
            DecodeUnit(m) == UnitOutcome([Update(ReconstructPose(c, q), None),
              Update(ReconstructPose(c, q), Some(Face(Float32View(third).value, fourth)))], true)
  {
    var m := [Bytes(Int16Buffer(c)), Bytes(Int16Buffer(q)), third, fourth];
    Int16ViewOfBuffer(c);
    Int16ViewOfBuffer(q);
    DecodeWithViews(m, c, q);
  }

  /** A cycle with a pose and no face, received as one unit. */
  lemma FacelessCycleDecodes(pose: Pose)
    ensures |CycleMessages(Some(pose), None)| == 4
    ensures DecodeUnit(CycleMessages(Some(pose), None)) == UnitOutcome(CycleUpdates(pose, None), true)
  {
    ZeroMarkerViews();
    PoseUnitDecodes(ConfidenceSlots(pose), PositionSlots(pose), Zero, Zero);
  }

  /** A cycle with a pose and a face, received as one unit. */
  lemma FacedCycleDecodes(pose: Pose, face: FaceFrame)
    ensures |CycleMessages(Some(pose), Some(face))| == 4
    ensures DecodeUnit(CycleMessages(Some(pose), Some(face))) == UnitOutcome(CycleUpdates(pose, Some(face)), true)
  {
    var f := Bytes(Float32Buffer(face.positions));
    Float32ViewOfBuffer(face.positions);
    PoseUnitDecodes(ConfidenceSlots(pose), PositionSlots(pose), f, NumberText(Finite(face.faceInViewConfidence)));
  }

  /** A four-message cycle, received as one unit, is handled to its end
      and makes two updates: the decoded pose, then the same pose with the
      face, which holds exactly the positions that were sent, or none after
      the `0, 0` markers. The decoded pose approximates the sent one as the
      codec promises, and equals it when the pose is lossless. */
  lemma CycleDecodes(pose: Pose, face: Option<FaceFrame>)
    ensures |CycleMessages(Some(pose), face)| == 4
    ensures DecodeUnit(CycleMessages(Some(pose), face)) == UnitOutcome(CycleUpdates(pose, face), true)
    ensures var u := CycleUpdates(pose, face);
            && |u| == 2 && u[0].face.None? && u[1].pose == u[0].pose
            && u[1].face.Some?
            && u[1].face.value.positions == (if face.Some? then face.value.positions else [])
            && (face.None? ==> u[1].face.value.faceInViewConfidence == Zero)
    ensures Estimated(pose) ==> Approximates(pose, CycleUpdates(pose, face)[0].pose)
    ensures Lossless(pose) ==> CycleUpdates(pose, face)[0].pose == pose
  {
    if face.Some? {
      FacedCycleDecodes(pose, face.value);
    } else {
      FacelessCycleDecodes(pose);
    }
    if Estimated(pose) {
      DecodeEncodeApproximately(pose);
    }
    if Lossless(pose) {
      DecodeEncode(pose);
    }
  }

  /** Four arrivals into an empty list are decoded as one unit. */
  lemma FeedOneUnit(decode: Decoder, u: seq<Update>, m: seq<Payload>)
    requires |m| == 4
    ensures FeedWith(decode, Receiving([], u), m) == StepWith(decode, Receiving(m[..3], u), m[3])
  {
    var s := Receiving([], u);
    assert m[..3][..2] == m[..2] && m[..2][..1] == m[..1] && m[..1][..0] == [];
    assert FeedWith(decode, s, m[..1]) == Receiving([m[0]], u);
    assert FeedWith(decode, s, m[..2]) == Receiving([m[0], m[1]], u);
    assert FeedWith(decode, s, m[..3]) == Receiving([m[0], m[1], m[2]], u);
    assert [m[0], m[1], m[2]] == m[..3];
  }

  /** Four arrivals at an empty list that decode without throwing leave it empty. */
  lemma FeedCompleteUnit(decode: Decoder, u: seq<Update>, m: seq<Payload>)
    requires |m| == 4 && decode(m).completed
    ensures FeedWith(decode, Receiving([], u), m) == Receiving([], u + decode(m).updates)
  {
    FeedOneUnit(decode, u, m);
    assert m[..3] + [m[3]] == m;
    StepCompletingUnit(decode, Receiving(m[..3], u), m[3]);
  }

  /** One cycle of `transmit`. */
  datatype Cycle = Cycle(pose: Option<Pose>, face: Option<FaceFrame>)

  function Stream(cycles: seq<Cycle>): seq<Payload>
  {
    if cycles == [] then []
    else Stream(cycles[..|cycles| - 1]) + CycleMessages(cycles[|cycles| - 1].pose, cycles[|cycles| - 1].face)
  }

  /** The messages of a pose-less, face-less cycle followed by a cycle with a pose and no face. */
  lemma PoselessThenPoseStream(p: Pose)
    ensures Stream([Cycle(None, None), Cycle(Some(p), None)])
            == [Zero, Zero, Bytes(Int16Buffer(ConfidenceSlots(p))), Bytes(Int16Buffer(PositionSlots(p)))] + [Zero, Zero]
  {
    var cycles := [Cycle(None, None), Cycle(Some(p), None)];
    assert cycles[..1] == [Cycle(None, None)];
    assert Stream([Cycle(None, None)]) == [Zero, Zero] by {
      assert [Cycle(None, None)][..0] == [];
    }
  }

  /** The misaligned unit `0, 0, confidences, positions`: both Int16Array
      views are empty, and the confidence buffer is read as face data. */
  lemma MisalignedUnit(p: Pose)
    ensures var c := Bytes(Int16Buffer(ConfidenceSlots(p)));
            var m := [Zero, Zero, c, Bytes(Int16Buffer(PositionSlots(p)))];
            && Float32View(c).Ok?
            && DecodeList(m) == UnitOutcome([Update(ReconstructPose([], []), None),
                 Update(ReconstructPose([], []), Some(Face(Float32View(c).value, m[3])))], true)
  {
    var c := Bytes(Int16Buffer(ConfidenceSlots(p)));
    var m := [Zero, Zero, c, Bytes(Int16Buffer(PositionSlots(p)))];
    ZeroMarkerViews();
    Float32ViewShape(c);
    DecodeWithViews(m, [], []);
  }

  /** A unit that decodes whole, then two more arrivals: the two are left in the list. */
  lemma FeedUnitThenTwo(first: seq<Payload>, u: seq<Update>)
    requires |first| == 4 && DecodeList(first) == UnitOutcome(u, true)
    ensures Feed(Start, first + [Zero, Zero]) == Receiving([Zero, Zero], u)
  {
    FeedCompleteUnit(DecodeList, [], first);
    assert [] + u == u;
    var s := Receiving([], u);
    FeedAppend(DecodeList, Start, first, [Zero, Zero]);
    assert [Zero, Zero][..1] == [Zero] && [Zero][..0] == [];
    StepBelowFour(DecodeList, s, Zero);
    assert FeedWith(DecodeList, s, [Zero]) == Receiving([Zero], u);
    StepBelowFour(DecodeList, Receiving([Zero], u), Zero);
    assert FeedWith(DecodeList, s, [Zero, Zero]) == Receiving([Zero, Zero], u);
  }

  /** As written, a cycle without a pose sends only its two face messages,
      so the receiver's groups of four slip by two: a pose-less, face-less
      cycle followed by a cycle with pose `p` makes the receiver decode
      `0, 0, confidences, positions` as one unit. It reads an empty pose
      (score NaN, unlike any pose the codec produces), decodes the
      confidence buffer as face data, and is left holding the next cycle's
      first two messages. */
  lemma PoselessCycleMisalignsReceiver(p: Pose)
    ensures var r := Feed(Start, Stream([Cycle(None, None), Cycle(Some(p), None)]));
            && r.message == [Zero, Zero]
            && |r.updates| == 2
            && r.updates[0].pose.score == NaN
            && r.updates[0].pose != ReconstructPose(ConfidenceSlots(p), PositionSlots(p))
  {
    var first := [Zero, Zero, Bytes(Int16Buffer(ConfidenceSlots(p))), Bytes(Int16Buffer(PositionSlots(p)))];
    PoselessThenPoseStream(p);
    MisalignedUnit(p);
    FeedUnitThenTwo(first, DecodeList(first).updates);
    DecodedScore([], []);
    DecodedScore(ConfidenceSlots(p), PositionSlots(p));
  }

  /** The intended cycle: a cycle without a pose sends nothing, so every
      cycle that sends sends a whole unit of four. */
  function AlignedCycleMessages(pose: Option<Pose>, face: Option<FaceFrame>): seq<Payload>
  {
    if pose.None? then [] else CycleMessages(pose, face)
  }

  function AlignedStream(cycles: seq<Cycle>): seq<Payload>
  {
    if cycles == [] then []
    else AlignedStream(cycles[..|cycles| - 1])
         + AlignedCycleMessages(cycles[|cycles| - 1].pose, cycles[|cycles| - 1].face)
  }

  /** What the receiver should show for a sequence of cycles: for each cycle
      that carried a pose, in order, the pose alone and then the pose with
      its face (an empty face for a cycle without one). */
  function SentUpdates(cycles: seq<Cycle>): seq<Update>
  {
    if cycles == [] then []
    else
      var last := cycles[|cycles| - 1];
      SentUpdates(cycles[..|cycles| - 1])
      + (if last.pose.Some? then CycleUpdates(last.pose.value, last.face) else [])
  }

  /** One aligned cycle, arriving at an empty list, is decoded whole. */
  lemma FeedAlignedCycle(u: seq<Update>, c: Cycle)
    ensures Feed(Receiving([], u), AlignedCycleMessages(c.pose, c.face))
            == Receiving([], u + (if c.pose.Some? then CycleUpdates(c.pose.value, c.face) else []))
  {
    if c.pose.Some? {
      var m := CycleMessages(c.pose, c.face);
      CycleDecodes(c.pose.value, c.face);
      assert DecodeList(m) == DecodeUnit(m);
      FeedCompleteUnit(DecodeList, u, m);
    } else {
      assert u + [] == u;
    }
  }

  /** With aligned cycles, the receiver decodes every cycle that carried a
      pose, exactly once, in order, and its list is empty between cycles. */
  lemma {:induction false} AlignedStreamDecodesEveryCycle(cycles: seq<Cycle>)
    ensures Feed(Start, AlignedStream(cycles)) == Receiving([], SentUpdates(cycles))
    decreases |cycles|
  {
    if cycles != [] {
      var init := cycles[..|cycles| - 1];
      var last := cycles[|cycles| - 1];
      AlignedStreamDecodesEveryCycle(init);
      FeedAppend(DecodeList, Start, AlignedStream(init), AlignedCycleMessages(last.pose, last.face));
      FeedAlignedCycle(SentUpdates(init), last);
    }
  }
}
