/**
 * The pose codec of camera.js. `DeconstructPose` packs one pose into two
 * Int16Arrays (18 confidences scaled by 10000, 34 x/y positions), writing
 * them in place in an index loop; `ReconstructPose` rebuilds a 17-keypoint
 * pose from the two arrays, naming the keypoints by the fixed part order;
 * `ReconstructFaceData` copies a Float32Array view out into a list.
 */
module PoseCodec {
  import opened Wrappers
  import opened JsNumbers
  import opened TypedBuffers

  /** The fixed part order shared by both ends. */
  const Parts: seq<string> := [
    "nose", "leftEye", "rightEye", "leftEar", "rightEar",
    "leftShoulder", "rightShoulder", "leftElbow", "rightElbow",
    "leftWrist", "rightWrist", "leftHip", "rightHip",
    "leftKnee", "rightKnee", "leftAnkle", "rightAnkle"]

  const KeypointCount: nat := 17
  const ConfidenceCount: nat := 18
  const PositionCount: nat := 34

  datatype Keypoint = Keypoint(score: Num, part: string, x: Num, y: Num)

  datatype Pose = Pose(score: Num, keypoints: seq<Keypoint>)

  /** Element `j` of the confidences array once deconstructPose is done:
      the scaled pose score in slot 0, keypoint `j - 1`'s scaled score where
      that keypoint exists, and the initial 0 elsewhere. */
  function ConfidenceSlot(p: Pose, j: nat): int16
  {
    if j == 0 then ToInt16(Scale(p.score))
    else if j - 1 < |p.keypoints| then ToInt16(Scale(p.keypoints[j - 1].score))
    else 0
  }

  /** Element `j` of the positions array: x of keypoint `j / 2` in even
      slots, its y in odd slots, 0 where that keypoint does not exist. */
  function PositionSlot(p: Pose, j: nat): int16
  {
    if j / 2 < |p.keypoints| then
      ToInt16(if j % 2 == 0 then p.keypoints[j / 2].x else p.keypoints[j / 2].y)
    else 0
  }

  function ConfidenceSlots(p: Pose): seq<int16>
  {
    seq(ConfidenceCount, j requires 0 <= j < ConfidenceCount => ConfidenceSlot(p, j))
  }

  function PositionSlots(p: Pose): seq<int16>
  {
    seq(PositionCount, j requires 0 <= j < PositionCount => PositionSlot(p, j))
  }

  /** The pose with only its first `n` keypoints. */
  function Prefix(p: Pose, n: nat): Pose
    requires n <= |p.keypoints|
  {
    p.(keypoints := p.keypoints[..n])
  }

  /** Taking one more keypoint changes only that keypoint's confidence slot. */
  lemma ConfidenceSlotsGrow(p: Pose, i: nat)
    requires i < |p.keypoints|
    ensures ConfidenceSlots(Prefix(p, i + 1))
            == if i + 1 < ConfidenceCount
               then ConfidenceSlots(Prefix(p, i))[i + 1 := ToInt16(Scale(p.keypoints[i].score))]
               else ConfidenceSlots(Prefix(p, i))
  {
    var before, after := ConfidenceSlots(Prefix(p, i)), ConfidenceSlots(Prefix(p, i + 1));
    var v := ToInt16(Scale(p.keypoints[i].score));
    var expected := if i + 1 < ConfidenceCount then before[i + 1 := v] else before;
    forall j | 0 <= j < ConfidenceCount
      ensures after[j] == expected[j]
    {
      if 0 < j <= i + 1 {
        assert Prefix(p, i + 1).keypoints[j - 1] == p.keypoints[j - 1];
      }
      if 0 < j <= i {
        assert Prefix(p, i).keypoints[j - 1] == p.keypoints[j - 1];
      }
    }
    assert after == expected;
  }

  /** Taking one more keypoint changes only that keypoint's two position slots. */
  lemma PositionSlotsGrow(p: Pose, i: nat)
    requires i < |p.keypoints|
    ensures var before := PositionSlots(Prefix(p, i));
            var k := p.keypoints[i];
            var once := if 2 * i < PositionCount then before[2 * i := ToInt16(k.x)] else before;
            PositionSlots(Prefix(p, i + 1))
            == if 2 * i + 1 < PositionCount then once[2 * i + 1 := ToInt16(k.y)] else once
  {
    var before, after := PositionSlots(Prefix(p, i)), PositionSlots(Prefix(p, i + 1));
    var k := p.keypoints[i];
    var once := if 2 * i < PositionCount then before[2 * i := ToInt16(k.x)] else before;
    var expected := if 2 * i + 1 < PositionCount then once[2 * i + 1 := ToInt16(k.y)] else once;
    forall j | 0 <= j < PositionCount
      ensures after[j] == expected[j]
    {
      assert j / 2 == i <==> j == 2 * i || j == 2 * i + 1;
      assert j == 2 * i ==> j % 2 == 0;
      assert j == 2 * i + 1 ==> j % 2 == 1;
      if j / 2 <= i {
        assert Prefix(p, i + 1).keypoints[j / 2] == p.keypoints[j / 2];
      }
      if j / 2 < i {
        assert Prefix(p, i).keypoints[j / 2] == p.keypoints[j / 2];
      }
    }
    assert after == expected;
  }

  /** Before the loop: the pose score in slot 0 and zeros elsewhere. */
  lemma EmptyPrefixSlots(p: Pose)
    ensures ConfidenceSlots(Prefix(p, 0)) == seq(ConfidenceCount, j => if j == 0 then ToInt16(Scale(p.score)) else 0)
    ensures PositionSlots(Prefix(p, 0)) == seq(PositionCount, j => 0 as int16)
  {
  }

  /** One pass of the loop of deconstructPose: keypoint `i`'s scaled score
      and coordinates are stored, and a store past the end is dropped. */
  method StoreKeypoint(p: Pose, i: nat, confidences: array<int16>, positions: array<int16>)
    requires i < |p.keypoints| && confidences != positions
    requires confidences.Length == ConfidenceCount && positions.Length == PositionCount
    requires confidences[..] == ConfidenceSlots(Prefix(p, i))
    requires positions[..] == PositionSlots(Prefix(p, i))
    modifies confidences, positions
    ensures confidences[..] == ConfidenceSlots(Prefix(p, i + 1))
    ensures positions[..] == PositionSlots(Prefix(p, i + 1))
  {
    ConfidenceSlotsGrow(p, i);
    PositionSlotsGrow(p, i);
    if i + 1 < confidences.Length {
      confidences[i + 1] := ToInt16(Scale(p.keypoints[i].score));
    }
    if 2 * i < positions.Length {
      positions[2 * i] := ToInt16(p.keypoints[i].x);
    }
    if 2 * i + 1 < positions.Length {
      positions[2 * i + 1] := ToInt16(p.keypoints[i].y);
    }
  }

  /** deconstructPose: null for a missing pose; otherwise two fresh
      zero-filled arrays of 18 and 34 elements into which the loop stores
      each keypoint's scaled score and coordinates. Stores land through
      ToInt16, and a store past the end of an array is dropped. */
  method DeconstructPose(pose: Option<Pose>) returns (r: Option<(array<int16>, array<int16>)>)
    ensures r.None? <==> pose.None?
    ensures r.Some? ==>
              && fresh(r.value.0) && fresh(r.value.1)
              && r.value.0[..] == ConfidenceSlots(pose.value)
              && r.value.1[..] == PositionSlots(pose.value)
  {
    if pose.None? {
      return None;
    }
    var p := pose.value;
    var confidences := new int16[ConfidenceCount](_ => 0);
    var positions := new int16[PositionCount](_ => 0);
    confidences[0] := ToInt16(Scale(p.score));
    EmptyPrefixSlots(p);
    for i := 0 to |p.keypoints|
      invariant confidences.Length == ConfidenceCount && positions.Length == PositionCount
      invariant confidences[..] == ConfidenceSlots(Prefix(p, i))
      invariant positions[..] == PositionSlots(Prefix(p, i))
    {
      StoreKeypoint(p, i, confidences, positions);
    }
    assert Prefix(p, |p.keypoints|) == p;
    return Some((confidences, positions));
  }

  /** `confidences[k] / 10000`: an out-of-range read is undefined, and undefined / 10000 is NaN. */
  function ReadConfidence(c: seq<int16>, k: nat): Num
  {
    Unscale(if k < |c| then Finite(c[k] as real) else Undefined)
  }

  /** `positions[k]`: undefined when out of range. */
  function ReadPosition(q: seq<int16>, k: nat): Num
  {
    if k < |q| then Finite(q[k] as real) else Undefined
  }

  /** reconstructPose: always 17 keypoints, named by the fixed part order. */
  function ReconstructPose(c: seq<int16>, q: seq<int16>): (p: Pose)
    ensures |p.keypoints| == KeypointCount
    ensures forall i :: 0 <= i < KeypointCount ==> p.keypoints[i].part == Parts[i]
  {
    Pose(ReadConfidence(c, 0),
         seq(KeypointCount, i requires 0 <= i < KeypointCount =>
           Keypoint(ReadConfidence(c, i + 1), Parts[i], ReadPosition(q, 2 * i), ReadPosition(q, 2 * i + 1))))
  }

  /** The pose score is read from slot 0: NaN when the array is empty. */
  lemma DecodedScore(c: seq<int16>, q: seq<int16>)
    ensures ReconstructPose(c, q).score == (if |c| > 0 then Unscale(Finite(c[0] as real)) else NaN)
  {
  }

  /** A score whose scaled value an int16 holds exactly. */
  predicate ScoreFits(n: Num)
  {
    n.Finite? && Int16Valued(10000.0 * n.value)
  }

  /** A coordinate an int16 holds exactly. */
  predicate CoordFits(n: Num)
  {
    n.Finite? && Int16Valued(n.value)
  }

  /** A pose the codec carries without loss: 17 keypoints in part order,
      integer coordinates in int16 range, scores with at most four decimals
      whose scaled value is in int16 range. */
  predicate Lossless(p: Pose)
  {
    && ScoreFits(p.score)
    && |p.keypoints| == KeypointCount
    && forall i :: 0 <= i < KeypointCount ==>
         && p.keypoints[i].part == Parts[i]
         && ScoreFits(p.keypoints[i].score)
         && CoordFits(p.keypoints[i].x)
         && CoordFits(p.keypoints[i].y)
  }

  lemma ScoreRoundTrip(n: Num)
    requires ScoreFits(n)
    ensures Unscale(Finite(ToInt16(Scale(n)) as real)) == n
  {
    ToInt16Exact(10000.0 * n.value);
  }

  lemma CoordRoundTrip(n: Num)
    requires CoordFits(n)
    ensures Finite(ToInt16(n) as real) == n
  {
    ToInt16Exact(n.value);
  }

  /** Where keypoint `i` lands in the two arrays. */
  lemma SlotsOfKeypoint(p: Pose, i: nat)
    requires i < |p.keypoints| && i < KeypointCount
    ensures ConfidenceSlots(p)[i + 1] == ToInt16(Scale(p.keypoints[i].score))
    ensures PositionSlots(p)[2 * i] == ToInt16(p.keypoints[i].x)
    ensures PositionSlots(p)[2 * i + 1] == ToInt16(p.keypoints[i].y)
  {
    assert (2 * i) / 2 == i && (2 * i) % 2 == 0;
    assert (2 * i + 1) / 2 == i && (2 * i + 1) % 2 == 1;
  }

  /** Where keypoint `i` is read from. */
  lemma KeypointRead(c: seq<int16>, q: seq<int16>, i: nat)
    requires i < KeypointCount
    ensures ReconstructPose(c, q).keypoints[i]
            == Keypoint(ReadConfidence(c, i + 1), Parts[i], ReadPosition(q, 2 * i), ReadPosition(q, 2 * i + 1))
  {
  }

  /** Keypoint `i` read back from the arrays of a lossless pose is keypoint `i`. */
  lemma KeypointRoundTrip(p: Pose, i: nat)
    requires Lossless(p) && i < KeypointCount
    ensures ReconstructPose(ConfidenceSlots(p), PositionSlots(p)).keypoints[i] == p.keypoints[i]
  {
    var k := p.keypoints[i];
    SlotsOfKeypoint(p, i);
    KeypointRead(ConfidenceSlots(p), PositionSlots(p), i);
    ScoreRoundTrip(k.score);
    CoordRoundTrip(k.x);
    CoordRoundTrip(k.y);
  }

  /** Pose to arrays to pose: a lossless pose comes back unchanged. */
  lemma DecodeEncode(p: Pose)
    requires Lossless(p)
    ensures ReconstructPose(ConfidenceSlots(p), PositionSlots(p)) == p
  {
    var r := ReconstructPose(ConfidenceSlots(p), PositionSlots(p));
    ScoreRoundTrip(p.score);
    forall i | 0 <= i < KeypointCount
      ensures r.keypoints[i] == p.keypoints[i]
    {
      KeypointRoundTrip(p, i);
    }
    assert r.keypoints == p.keypoints;
  }

  /** A score as the pose estimator reports it: a probability. */
  predicate UnitScore(n: Num)
  {
    n.Finite? && 0.0 <= n.value <= 1.0
  }

  /** A coordinate whose truncation an int16 holds. */
  predicate CoordInRange(n: Num)
  {
    n.Finite? && -32769.0 < n.value < 32768.0
  }

  /** A pose as the estimator produces it: 17 keypoints in part order,
      probabilities for scores, coordinates in int16 range. */
  predicate Estimated(p: Pose)
  {
    && UnitScore(p.score)
    && |p.keypoints| == KeypointCount
    && forall i :: 0 <= i < KeypointCount ==>
         && p.keypoints[i].part == Parts[i]
         && UnitScore(p.keypoints[i].score)
         && CoordInRange(p.keypoints[i].x)
         && CoordInRange(p.keypoints[i].y)
  }

  /** A score read back is the score cut to four decimals: never above
      it, and less than 1/10000 below it. */
  predicate WithinTenThousandth(original: Num, decoded: Num)
  {
    original.Finite? && decoded.Finite? && original.value - 0.0001 < decoded.value <= original.value
  }

  /** A coordinate read back is the coordinate truncated toward zero. */
  predicate TruncatedTo(original: Num, decoded: Num)
  {
    original.Finite? && decoded == Finite(Trunc(original.value) as real)
  }

  /** What the receiver sees of pose `p`: the same parts, each score
      within 1/10000 below the sent one, each coordinate truncated (so an
      integer coordinate exactly). */
  predicate Approximates(p: Pose, d: Pose)
  {
    && WithinTenThousandth(p.score, d.score)
    && |d.keypoints| == |p.keypoints|
    && forall i :: 0 <= i < |p.keypoints| ==>
         && d.keypoints[i].part == p.keypoints[i].part
         && WithinTenThousandth(p.keypoints[i].score, d.keypoints[i].score)
         && TruncatedTo(p.keypoints[i].x, d.keypoints[i].x)
         && TruncatedTo(p.keypoints[i].y, d.keypoints[i].y)
  }

  /** A probability survives the scaling by 10000, the int16 store and the
      division by 10000 up to its fifth decimal: 10000 times it lies in
      [0, 10000], so the store only truncates and never wraps. */
  lemma ScoreApproximated(n: Num)
    requires UnitScore(n)
    ensures WithinTenThousandth(n, Unscale(Finite(ToInt16(Scale(n)) as real)))
  {
    var t := Trunc(10000.0 * n.value);
    assert 0 <= t <= 10000;
    assert Wrap16(t) as int == t;
  }

  /** A coordinate in int16 range is stored truncated, without wrapping. */
  lemma CoordTruncated(n: Num)
    requires CoordInRange(n)
    ensures TruncatedTo(n, Finite(ToInt16(n) as real))
  {
    var t := Trunc(n.value);
    assert -0x8000 <= t < 0x8000;
    assert Wrap16(t) as int == t;
  }

  /** Keypoint `i` of an estimated pose, read back from its arrays. */
  lemma KeypointApproximated(p: Pose, i: nat)
    requires Estimated(p) && i < KeypointCount
    ensures var k := p.keypoints[i];
            var d := ReconstructPose(ConfidenceSlots(p), PositionSlots(p)).keypoints[i];
            && d.part == k.part
            && WithinTenThousandth(k.score, d.score)
            && TruncatedTo(k.x, d.x) && TruncatedTo(k.y, d.y)
  {
    var k := p.keypoints[i];
    SlotsOfKeypoint(p, i);
    KeypointRead(ConfidenceSlots(p), PositionSlots(p), i);
    ScoreApproximated(k.score);
    CoordTruncated(k.x);
    CoordTruncated(k.y);
  }

  /** Pose to arrays to pose for the poses the estimator produces: the
      parts come back in order, every score within 1/10000 below the sent
      one, and every coordinate truncated toward zero. */
  lemma DecodeEncodeApproximately(p: Pose)
    requires Estimated(p)
    ensures Approximates(p, ReconstructPose(ConfidenceSlots(p), PositionSlots(p)))
  {
    var d := ReconstructPose(ConfidenceSlots(p), PositionSlots(p));
    ScoreApproximated(p.score);
    forall i | 0 <= i < |p.keypoints|
      ensures && d.keypoints[i].part == p.keypoints[i].part
              && WithinTenThousandth(p.keypoints[i].score, d.keypoints[i].score)
              && TruncatedTo(p.keypoints[i].x, d.keypoints[i].x)
              && TruncatedTo(p.keypoints[i].y, d.keypoints[i].y)
    {
      KeypointApproximated(p, i);
    }
  }

  /** `s` cut or zero-padded to `n` elements. */
  function Fit(s: seq<int16>, n: nat): seq<int16>
  {
    seq(n, i requires 0 <= i < n => if i < |s| then s[i] else 0)
  }

  /** Arrays to pose to arrays, in exact arithmetic: whatever the lengths of
      the received arrays, encoding the rebuilt pose gives them back cut or
      zero-padded to 18 and 34 elements. */
  lemma EncodeDecode(c: seq<int16>, q: seq<int16>)
    ensures ConfidenceSlots(ReconstructPose(c, q)) == Fit(c, ConfidenceCount)
    ensures PositionSlots(ReconstructPose(c, q)) == Fit(q, PositionCount)
  {
    ConfidencesComeBack(c, q);
    PositionsComeBack(c, q);
  }

  lemma ConfidencesComeBack(c: seq<int16>, q: seq<int16>)
    ensures ConfidenceSlots(ReconstructPose(c, q)) == Fit(c, ConfidenceCount)
  {
    forall j | 0 <= j < ConfidenceCount
      ensures ConfidenceSlots(ReconstructPose(c, q))[j] == Fit(c, ConfidenceCount)[j]
    {
      ConfidenceComesBack(c, q, j);
    }
  }

  lemma ConfidenceComesBack(c: seq<int16>, q: seq<int16>, j: nat)
    requires j < ConfidenceCount
    ensures ConfidenceSlots(ReconstructPose(c, q))[j] == Fit(c, ConfidenceCount)[j]
  {
    if j > 0 {
      KeypointRead(c, q, j - 1);
    }
    if j < |c| {
      ToInt16OfInt16(c[j]);
    }
  }

  lemma PositionsComeBack(c: seq<int16>, q: seq<int16>)
    ensures PositionSlots(ReconstructPose(c, q)) == Fit(q, PositionCount)
  {
    forall j | 0 <= j < PositionCount
      ensures PositionSlots(ReconstructPose(c, q))[j] == Fit(q, PositionCount)[j]
    {
      PositionComesBack(c, q, j);
    }
  }

  lemma PositionComesBack(c: seq<int16>, q: seq<int16>, j: nat)
    requires j < PositionCount
    ensures PositionSlots(ReconstructPose(c, q))[j] == Fit(q, PositionCount)[j]
  {
    var i := j / 2;
    KeypointRead(c, q, i);
    var k := ReconstructPose(c, q).keypoints[i];
    assert j == 2 * i || j == 2 * i + 1;
    assert (if j % 2 == 0 then k.x else k.y) == ReadPosition(q, j);
    if j < |q| {
      ToInt16OfInt16(q[j]);
    }
  }

  /** Arrays of the sizes the codec produces come back exactly. */
  lemma EncodeDecodeExact(c: seq<int16>, q: seq<int16>)
    requires |c| == ConfidenceCount && |q| == PositionCount
    ensures ConfidenceSlots(ReconstructPose(c, q)) == c
    ensures PositionSlots(ReconstructPose(c, q)) == q
  {
    EncodeDecode(c, q);
    assert Fit(c, ConfidenceCount) == c;
    assert Fit(q, PositionCount) == q;
  }

  /** Keypoints past the 17th reach no slot: their stores fall off the end of the arrays. */
  lemma ExtraKeypointsDropped(p: Pose)
    requires |p.keypoints| > KeypointCount
    ensures ConfidenceSlots(p) == ConfidenceSlots(Prefix(p, KeypointCount))
    ensures PositionSlots(p) == PositionSlots(Prefix(p, KeypointCount))
  {
  }

  /** The worked example: score 0.8734, keypoint 0 with score 0.5 at (120, 45). */
  lemma EncodesExample(rest: seq<Keypoint>)
    ensures var p := Pose(Finite(0.8734), [Keypoint(Finite(0.5), "nose", Finite(120.0), Finite(45.0))] + rest);
            && ConfidenceSlots(p)[0] == 8734 && ConfidenceSlots(p)[1] == 5000
            && PositionSlots(p)[0] == 120 && PositionSlots(p)[1] == 45
  {
    assert Trunc(8734.0) == 8734 && Trunc(5000.0) == 5000;
    assert Trunc(120.0) == 120 && Trunc(45.0) == 45;
  }

  /** The forEach/push loop of reconstructFaceData: appends the view's
      elements to an initially empty list, one at a time. */
  method CopyOut(view: seq<Coord>) returns (out: seq<Coord>)
    ensures |out| == |view|
    ensures forall i :: 0 <= i < |view| ==> out[i] == view[i]
  {
    out := [];
    var i := 0;
    while i < |view|
      invariant 0 <= i <= |view|
      invariant out == view[..i]
    {
      out := out + [view[i]];
      i := i + 1;
    }
  }

  /** reconstructFaceData: views the buffer as 32-bit floats and returns
      them as a list of the same length, in the same order; a buffer the
      Float32Array constructor rejects makes it throw. */
  method ReconstructFaceData(buffer: Payload) returns (r: Result<seq<Coord>, JsError>)
    ensures r.Ok? <==> Float32View(buffer).Ok?
    ensures r.Ok? ==> r.value == Float32View(buffer).value
    ensures r.Err? ==> r.error == RangeError
  {
    var view := Float32View(buffer);
    if view.Err? {
      Float32ViewShape(buffer);
      return Err(view.error);
    }
    var out := CopyOut(view.value);
    return Ok(out);
  }
}
