/** The landmark-model tracker: expression scalars derived from fixed
    keypoints of a detected face, and the tracker state updated per frame.
    The detector itself is outside the model: its answer is an input. */
module FaceTracking {
  import opened Common
  import opened FaceTypes

  /** Every expression scalar within its normalised range. */
  predicate InExpressionRange(x: FaceExpressions)
  {
    && 0.0 <= x.eyesOpen <= 1.0
    && 0.0 <= x.mouthOpen <= 1.0
    && 0.0 <= x.smiling <= 1.0
    && 0.0 <= x.eyebrowsRaised <= 1.0
    && -1.0 <= x.headTilt <= 1.0
    && -1.0 <= x.headTurn <= 1.0
  }

  /** The highest keypoint index the derivation reads (the right cheek). */
  const HighestIndex: nat := 454

  /** The keypoint indices the derivation reads. */
  const ReadIndices: set<nat> := {2, 13, 14, 61, 70, 107, 145, 159, 168, 234, 291, 374, 386, 454}

  /** calculateExpressions. A face with too few keypoints makes the source
      read a missing point and throw; that is the None result. */
  function CalculateExpressions(l: FaceLandmarks): (r: Option<FaceExpressions>)
    ensures r.Some? <==> |l.keypoints| > HighestIndex
    ensures r.Some? ==> InExpressionRange(r.value)
  {
    if |l.keypoints| <= HighestIndex then None
    else
      var kp := l.keypoints;
      // eye openness: eyelid gaps of both eyes
      var leftEyeHeight := Abs(kp[159].y - kp[145].y);
      var rightEyeHeight := Abs(kp[386].y - kp[374].y);
      var eyesOpen := Min((leftEyeHeight + rightEyeHeight) / 2.0 / 20.0, 1.0);
      // mouth openness: inner lip gap
      var mouthOpen := Min(Abs(kp[13].y - kp[14].y) / 30.0, 1.0);
      // smile: mouth corners against the upper lip
      var smileIntensity := (kp[61].y + kp[291].y) / 2.0 - kp[13].y;
      var smiling := Max(0.0, Min(smileIntensity / 10.0, 1.0));
      // brows against the nose bridge
      var browHeight := (kp[70].y + kp[107].y) / 2.0 - kp[168].y;
      var eyebrowsRaised := Max(0.0, Min(-browHeight / 30.0, 1.0));
      // head pose from nose base and cheeks
      var headTurn := (kp[454].x - kp[234].x) / 200.0;
      var headTilt := (kp[2].x - (kp[234].x + kp[454].x) / 2.0) / 100.0;
      Some(FaceExpressions(eyesOpen, mouthOpen, smiling, eyebrowsRaised,
                           Max(-1.0, Min(1.0, headTilt)), Max(-1.0, Min(1.0, headTurn))))
  }

  /** Only the listed keypoints matter: faces that agree on them (and are
      long enough) give the same expressions, whatever else they hold. */
  lemma ReadsOnlyListedKeypoints(a: FaceLandmarks, b: FaceLandmarks)
    requires |a.keypoints| > HighestIndex && |b.keypoints| > HighestIndex
    requires forall i :: i in ReadIndices ==> a.keypoints[i] == b.keypoints[i]
    ensures CalculateExpressions(a) == CalculateExpressions(b)
  {
    assert 2 in ReadIndices && 13 in ReadIndices && 14 in ReadIndices && 61 in ReadIndices;
    assert 70 in ReadIndices && 107 in ReadIndices && 145 in ReadIndices && 159 in ReadIndices;
    assert 168 in ReadIndices && 234 in ReadIndices && 291 in ReadIndices && 374 in ReadIndices;
    assert 386 in ReadIndices && 454 in ReadIndices;
  }

  /** Eye openness saturates: it is 1 exactly when the average eyelid gap
      reaches 20 pixels. */
  lemma EyesOpenSaturates(l: FaceLandmarks)
    requires |l.keypoints| > HighestIndex
    ensures var kp := l.keypoints;
            var gap := (Abs(kp[159].y - kp[145].y) + Abs(kp[386].y - kp[374].y)) / 2.0;
            CalculateExpressions(l).value.eyesOpen == 1.0 <==> gap >= 20.0
  {
  }

  /** What the detector reports for one frame. */
  datatype Detection = Detected(faces: seq<FaceLandmarks>) | DetectionFailed

  /** How model loading ends. */
  datatype LoadOutcome = ModelReady | LoadFailed(reason: Thrown)

  const DefaultLoadError: string := "Failed to load face detection model"

  class FaceTracker {
    var landmarks: Option<FaceLandmarks>
    var expressions: Option<FaceExpressions>
    var isModelLoaded: bool
    var error: Option<string>
    var detectorReady: bool

    /** Stored expressions are always in range. */
    ghost predicate Valid()
      reads this
    {
      expressions.Some? ==> InExpressionRange(expressions.value)
    }

    constructor ()
      ensures Valid()
      ensures landmarks == None && expressions == None && !isModelLoaded && error == None && !detectorReady
    {
      landmarks := None;
      expressions := None;
      isModelLoaded := false;
      error := None;
      detectorReady := false;
    }

    method InitializeModel(outcome: LoadOutcome)
      requires Valid()
      modifies this
      ensures Valid()
      ensures landmarks == old(landmarks) && expressions == old(expressions)
      ensures outcome.ModelReady? ==> detectorReady && isModelLoaded && error == None
      ensures outcome.LoadFailed? ==>
        && detectorReady == old(detectorReady) && isModelLoaded == old(isModelLoaded)
        && error == Some(MessageOr(outcome.reason, DefaultLoadError))
    {
      error := None;
      match outcome
      case ModelReady =>
        detectorReady := true;
        isModelLoaded := true;
      case LoadFailed(reason) =>
        error := Some(MessageOr(reason, DefaultLoadError));
    }

    /** processFrame given the detector's answer for the frame. */
    method ProcessFrame(detection: Detection)
      requires Valid()
      modifies this
      ensures Valid()
      ensures isModelLoaded == old(isModelLoaded) && detectorReady == old(detectorReady)
      ensures error == old(error)
      ensures !old(detectorReady && isModelLoaded) || detection.DetectionFailed? ==>
        landmarks == old(landmarks) && expressions == old(expressions)
      ensures old(detectorReady && isModelLoaded) && detection.Detected? && detection.faces == [] ==>
        landmarks == None && expressions == None
      ensures old(detectorReady && isModelLoaded) && detection.Detected? && detection.faces != [] ==>
        && landmarks == Some(detection.faces[0])
        && expressions == match CalculateExpressions(detection.faces[0])
                          case Some(x) => Some(x)
                          case None => old(expressions)
    {
      if !detectorReady || !isModelLoaded {
        return;
      }
      match detection
      case DetectionFailed =>
        // the failure is logged and swallowed
      case Detected(faces) =>
        if |faces| > 0 {
          landmarks := Some(faces[0]);
          var x := CalculateExpressions(faces[0]);
          if x.Some? {
            expressions := x;
          }
        } else {
          landmarks := None;
          expressions := None;
        }
    }
  }
}
