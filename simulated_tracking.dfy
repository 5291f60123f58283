/** The stand-in tracker: it ignores pixels, lets one frame in three
    through, and fabricates a 468-point face centred in the frame. */
module SimulatedTracking {
  import opened Common
  import opened FaceTypes

  const NumPoints: nat := 468

  /** The name of keypoint i, `point_${i}`. */
  function PointName(i: nat): string
  {
    "point_" + NatToString(i)
  }

  lemma PointNamesDistinct(i: nat, j: nat)
    requires i != j
    ensures PointName(i) != PointName(j)
  {
    if PointName(i) == PointName(j) {
      assert NatToString(i) == PointName(i)[6..];
      assert NatToString(j) == PointName(j)[6..];
      NatToStringInjective(i, j);
    }
  }

  /** The square face box: side 0.6 * min(width, height), centred on the
      frame's centre. */
  function SimulatedBox(width: real, height: real): (b: Box)
    ensures b.width == b.height == 0.6 * Min(width, height)
    ensures b.xMax - b.xMin == b.width && b.yMax - b.yMin == b.height
    ensures (b.xMin + b.xMax) / 2.0 == width / 2.0 && (b.yMin + b.yMax) / 2.0 == height / 2.0
  {
    var centerX := width / 2.0;
    var centerY := height / 2.0;
    var faceSize := Min(width, height) * 0.6;
    Box(centerX - faceSize / 2.0, centerY - faceSize / 2.0,
        centerX + faceSize / 2.0, centerY + faceSize / 2.0,
        faceSize, faceSize)
  }

  /** A point's coordinates as the random placement chose them. */
  datatype Placement = Placement(x: real, y: real, z: real)

  /** generateSimulatedLandmarks; `place(i)` stands for the random, trigonometric
      position of point i. */
  method GenerateSimulatedLandmarks(width: real, height: real, place: nat -> Placement)
    returns (l: FaceLandmarks)
    ensures |l.keypoints| == NumPoints
    ensures forall i :: 0 <= i < NumPoints ==>
      l.keypoints[i] == Keypoint(place(i).x, place(i).y, Some(place(i).z), Some(PointName(i)))
    ensures l.box == SimulatedBox(width, height)
  {
    var keypoints: seq<Keypoint> := [];
    for i := 0 to NumPoints
      invariant |keypoints| == i
      invariant forall j :: 0 <= j < i ==>
        keypoints[j] == Keypoint(place(j).x, place(j).y, Some(place(j).z), Some(PointName(j)))
    {
      var p := place(i);
      keypoints := keypoints + [Keypoint(p.x, p.y, Some(p.z), Some(PointName(i)))];
    }
    l := FaceLandmarks(keypoints, SimulatedBox(width, height));
  }

  // ---------------------------------------------------------------------
  // The one-in-three throttle.

  /** A loaded call that finds the counter at c gets through: the counter
      becomes c + 1 and that must be a multiple of 3. */
  predicate Admitted(c: nat)
  {
    (c + 1) % 3 == 0
  }

  /** Exactly one of any three consecutive loaded calls gets through. */
  lemma OneInThree(c: nat)
    ensures Admitted(c) || Admitted(c + 1) || Admitted(c + 2)
    ensures !(Admitted(c) && Admitted(c + 1)) && !(Admitted(c + 1) && Admitted(c + 2))
    ensures !(Admitted(c) && Admitted(c + 2))
  {
  }

  /** How many of n loaded calls, starting with the counter at c, get through. */
  function AdmittedAmong(c: nat, n: nat): nat
    decreases n
  {
    if n == 0 then 0 else AdmittedAmong(c, n - 1) + (if Admitted(c + n - 1) then 1 else 0)
  }

  /** Over a run of n calls, the number admitted is the number of multiples
      of 3 passed by the counter: (c + n) / 3 - c / 3. */
  lemma {:induction false} AdmittedCount(c: nat, n: nat)
    ensures AdmittedAmong(c, n) == (c + n) / 3 - c / 3
    decreases n
  {
    if n > 0 {
      AdmittedCount(c, n - 1);
    }
  }

  class SimulatedTracker {
    var frameCount: nat
    var landmarks: Option<FaceLandmarks>
    var expressions: Option<FaceExpressions>
    var isModelLoaded: bool
    var error: Option<string>

    constructor ()
      ensures frameCount == 0 && landmarks == None && expressions == None
      ensures !isModelLoaded && error == None
    {
      frameCount := 0;
      landmarks := None;
      expressions := None;
      isModelLoaded := false;
      error := None;
    }

    /** initializeModel once its simulated delay has passed. */
    method InitializeModel()
      modifies this
      ensures isModelLoaded && error == None
      ensures frameCount == old(frameCount) && landmarks == old(landmarks) && expressions == old(expressions)
    {
      error := None;
      isModelLoaded := true;
    }

    /** processFrame on a frame of the given size; `simulated` is what the
        time-driven waveforms give at this moment. */
    method ProcessFrame(width: real, height: real, simulated: FaceExpressions, place: nat -> Placement)
      returns (updated: bool)
      modifies this
      ensures isModelLoaded == old(isModelLoaded) && error == old(error)
      ensures !old(isModelLoaded) ==> frameCount == old(frameCount) && !updated
      ensures old(isModelLoaded) ==> frameCount == old(frameCount) + 1 && updated == Admitted(old(frameCount))
      ensures !updated ==> landmarks == old(landmarks) && expressions == old(expressions)
      ensures updated ==>
        && landmarks.Some? && |landmarks.value.keypoints| == NumPoints
        && (forall i :: 0 <= i < NumPoints ==>
              landmarks.value.keypoints[i] == Keypoint(place(i).x, place(i).y, Some(place(i).z), Some(PointName(i))))
        && landmarks.value.box == SimulatedBox(width, height)
        && expressions == Some(simulated)
    {
      updated := false;
      if !isModelLoaded {
        return;
      }
      frameCount := frameCount + 1;
      if frameCount % 3 != 0 {
        return;
      }
      var l := GenerateSimulatedLandmarks(width, height, place);
      landmarks := Some(l);
      expressions := Some(simulated);
      updated := true;
    }
  }
}
