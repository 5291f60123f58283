/** The user's cartoon avatar: which eye, brow and mouth drawings follow
    from an expression vector, when the camera is started or stopped, and
    when a frame is handed to the tracker. */
module UserAvatar {
  import opened Common
  import opened FaceTypes
  import Camera

  datatype EyeDrawing = OpenCircle | ClosedLine

  datatype MouthDrawing = OpenOval(radiusY: real) | SmileArc | NeutralLine

  datatype CartoonFace = CartoonFace(
    leftEye: EyeDrawing,
    rightEye: EyeDrawing,
    leftBrowY: real,
    rightBrowY: real,
    mouth: MouthDrawing)

  const EyeThreshold: real := 0.3
  const MouthThreshold: real := 0.3
  const SmileThreshold: real := 0.3
  /** Height of the eyebrows on the 300-pixel canvas when not raised. */
  const BrowBaseline: real := 115.0

  function EyeFor(eyesOpen: real): EyeDrawing
  {
    if eyesOpen > EyeThreshold then OpenCircle else ClosedLine
  }

  function MouthFor(mouthOpen: real, smiling: real): MouthDrawing
  {
    if mouthOpen > MouthThreshold then OpenOval(8.0 + mouthOpen * 10.0)
    else if smiling > SmileThreshold then SmileArc
    else NeutralLine
  }

  /** The face drawn for the current expressions; nothing without them. */
  function DrawCartoonAvatar(x: Option<FaceExpressions>): (f: Option<CartoonFace>)
    ensures f.Some? <==> x.Some?
    ensures f.Some? ==> f.value.leftEye == f.value.rightEye && f.value.leftBrowY == f.value.rightBrowY
  {
    match x
    case None => None
    case Some(e) =>
      var eye := EyeFor(e.eyesOpen);
      var brow := BrowBaseline - e.eyebrowsRaised * 10.0;
      Some(CartoonFace(eye, eye, brow, brow, MouthFor(e.mouthOpen, e.smiling)))
  }

  /** Both eyes are open circles exactly when eyesOpen exceeds 0.3, and
      closed lines otherwise; a wider-open face never closes an eye. */
  lemma EyesFollowThreshold(e: FaceExpressions, wider: real)
    requires e.eyesOpen <= wider
    ensures var f := DrawCartoonAvatar(Some(e)).value;
            && (f.leftEye == OpenCircle && f.rightEye == OpenCircle <==> e.eyesOpen > 0.3)
            && (f.leftEye == ClosedLine && f.rightEye == ClosedLine <==> e.eyesOpen <= 0.3)
            && (f.leftEye == OpenCircle ==> DrawCartoonAvatar(Some(e.(eyesOpen := wider))).value.leftEye == OpenCircle)
  {
  }

  /** Exactly one mouth, by priority: an open mouth hides any smile, a smile
      shows only when the mouth is not open, otherwise a straight line. */
  lemma MouthPriority(e: FaceExpressions, otherSmile: real)
    ensures var m := DrawCartoonAvatar(Some(e)).value.mouth;
            && (m.OpenOval? <==> e.mouthOpen > 0.3)
            && (m.SmileArc? <==> e.mouthOpen <= 0.3 && e.smiling > 0.3)
            && (m.NeutralLine? <==> e.mouthOpen <= 0.3 && e.smiling <= 0.3)
            && (e.mouthOpen > 0.3 ==> DrawCartoonAvatar(Some(e.(smiling := otherSmile))).value.mouth == m)
  {
  }

  /** An open mouth grows with mouthOpen: 8 + 10 * mouthOpen, so between 11
      (exclusive) and 18 for a mouthOpen in (0.3, 1]. */
  lemma OpenMouthHeight(e: FaceExpressions)
    requires 0.3 < e.mouthOpen <= 1.0
    ensures var m := DrawCartoonAvatar(Some(e)).value.mouth;
            m.OpenOval? && m.radiusY == 8.0 + e.mouthOpen * 10.0 && 11.0 < m.radiusY <= 18.0
  {
  }

  /** Both brows are lifted by the same amount, ten pixels per unit of
      eyebrowsRaised: for a raise in [0, 1] they stay within ten pixels above
      the baseline. */
  lemma BrowsLiftTogether(e: FaceExpressions)
    requires 0.0 <= e.eyebrowsRaised <= 1.0
    ensures var f := DrawCartoonAvatar(Some(e)).value;
            && f.leftBrowY == f.rightBrowY
            && BrowBaseline - f.leftBrowY == e.eyebrowsRaised * 10.0
            && BrowBaseline - 10.0 <= f.leftBrowY <= BrowBaseline
  {
  }

  /** The rotation the tilt code computes: applied only outside a 0.02
      radian deadband. */
  function TiltRotation(e: FaceExpressions): (r: Option<real>)
    ensures r.Some? <==> e.headTilt > 0.2 || e.headTilt < -0.2
  {
    var tilt := e.headTilt * 0.1;
    if Abs(tilt) > 0.02 then Some(tilt) else None
  }

  /** The rotation is saved and restored with nothing drawn in between, so
      the drawn face does not depend on headTilt at all. Here this holds by
      construction: the face has no strokes drawn under the rotation, and
      DrawCartoonAvatar never reads headTilt. The lemma records that fact
      as a checked statement. */
  lemma HeadTiltHasNoEffect(e: FaceExpressions, t: real)
    ensures DrawCartoonAvatar(Some(e.(headTilt := t))) == DrawCartoonAvatar(Some(e))
  {
  }

  // ---------------------------------------------------------------------
  // Camera and frame-loop decisions.

  datatype CameraCommand = StartCamera | StopCamera | NoCommand

  /** The effect on (isSessionActive, isStreaming). */
  function CameraCommandFor(sessionActive: bool, streaming: bool): (c: CameraCommand)
    ensures c == StartCamera <==> sessionActive && !streaming
    ensures c == StopCamera <==> !sessionActive && streaming
  {
    if sessionActive && !streaming then StartCamera
    else if !sessionActive && streaming then StopCamera
    else NoCommand
  }

  /** The streaming flag once a command has taken effect (a start that
      succeeds, a stop). */
  function StreamingAfter(c: CameraCommand, streaming: bool): bool
  {
    match c
    case StartCamera => true
    case StopCamera => false
    case NoCommand => streaming
  }

  /** Once the command has taken effect the camera streams exactly while the
      session is active, and a second evaluation issues no command. */
  lemma CameraFollowsSession(sessionActive: bool, streaming: bool)
    ensures var after := StreamingAfter(CameraCommandFor(sessionActive, streaming), streaming);
            after == sessionActive && CameraCommandFor(sessionActive, after) == NoCommand
  {
  }

  /** processVideoFrame: the frame handed to the tracker, if any. */
  function FrameForTracker(streaming: bool, modelLoaded: bool, captured: Option<Camera.ImageData>): (r: Option<Camera.ImageData>)
    ensures r.Some? <==> streaming && modelLoaded && captured.Some?
    ensures r.Some? ==> r == captured
  {
    if !streaming || !modelLoaded then None
    else captured
  }
}
