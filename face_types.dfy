/** The face data both trackers produce: landmark keypoints with a bounding
    box, and the six-scalar expression vector derived from them. */
module FaceTypes {
  import opened Common

  datatype Keypoint = Keypoint(x: real, y: real, z: Option<real>, name: Option<string>)

  datatype Box = Box(xMin: real, yMin: real, xMax: real, yMax: real, width: real, height: real)

  datatype FaceLandmarks = FaceLandmarks(keypoints: seq<Keypoint>, box: Box)

  datatype FaceExpressions = FaceExpressions(
    eyesOpen: real,
    mouthOpen: real,
    smiling: real,
    eyebrowsRaised: real,
    headTilt: real,
    headTurn: real)

  // Clamping helpers, as Math.min / Math.max / Math.abs on numbers.
  function Min(a: real, b: real): real { if a <= b then a else b }
  function Max(a: real, b: real): real { if a >= b then a else b }
  function Abs(a: real): real { if a < 0.0 then -a else a }
}
