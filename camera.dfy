/** The webcam wrapper: a stream handle bound to a video element, the
    streaming and error flags, and single-frame capture. */
module Camera {
  import opened Common

  datatype MediaStream = MediaStream(id: nat)

  /** A captured frame; only its dimensions are modelled. */
  datatype ImageData = ImageData(width: nat, height: nat)

  /** What the browser's media request resolves to. */
  datatype StreamRequest = Granted(stream: MediaStream) | Refused(reason: Thrown)

  const PermissionDeniedMessage: string := "Camera permission denied. Please allow camera access to use UnTherapy."
  const NoCameraMessage: string := "No camera found. Please connect a camera to use UnTherapy."
  const DefaultCameraError: string := "Failed to access camera"

  /** The error text shown for a failed start: the two known failures are
      replaced by friendlier text, checked in that order; anything else is
      shown as thrown. */
  function ClassifyCameraError(t: Thrown): (m: string)
    ensures var raw := MessageOr(t, DefaultCameraError);
            && (Contains(raw, "Permission denied") ==> m == PermissionDeniedMessage)
            && (!Contains(raw, "Permission denied") && Contains(raw, "not found") ==> m == NoCameraMessage)
            && (!Contains(raw, "Permission denied") && !Contains(raw, "not found") ==> m == raw)
  {
    var raw := MessageOr(t, DefaultCameraError);
    if Contains(raw, "Permission denied") then PermissionDeniedMessage
    else if Contains(raw, "not found") then NoCameraMessage
    else raw
  }

  /** A string cannot contain a pattern whose first character it lacks. */
  lemma {:induction false} NotContainsWithoutFirstChar(s: string, sub: string)
    requires |sub| > 0 && sub[0] !in s
    ensures !Contains(s, sub)
    decreases |s|
  {
    if s != [] {
      assert !(sub <= s) by { assert s[0] != sub[0]; }
      NotContainsWithoutFirstChar(s[1..], sub);
    }
  }

  /** The permission text wins even when the message also says "not found". */
  lemma PermissionWinsOverNotFound(t: Thrown)
    requires t.ErrorObject? && Contains(t.message, "Permission denied") && Contains(t.message, "not found")
    ensures ClassifyCameraError(t) == PermissionDeniedMessage
  {
  }

  /** The three outcomes of the classification, one per branch. */
  lemma ClassificationCases(t: Thrown)
    ensures var raw := MessageOr(t, DefaultCameraError);
            && (ClassifyCameraError(t) == PermissionDeniedMessage <== Contains(raw, "Permission denied"))
            && (ClassifyCameraError(t) == NoCameraMessage <== !Contains(raw, "Permission denied") && Contains(raw, "not found"))
            && (ClassifyCameraError(t) == raw <== !Contains(raw, "Permission denied") && !Contains(raw, "not found"))
  {
  }

  /** A thrown value that is not an Error is reported with the default text. */
  lemma NonErrorGivesDefault()
    ensures ClassifyCameraError(NonError) == DefaultCameraError
  {
    assert DefaultCameraError == "Failed to access camera";
    assert 'P' !in DefaultCameraError;
    assert 'n' !in DefaultCameraError;
    NotContainsWithoutFirstChar(DefaultCameraError, "Permission denied");
    NotContainsWithoutFirstChar(DefaultCameraError, "not found");
  }

  class CameraDevice {
    const videoAttached: bool    // a video element is mounted
    const canvasAttached: bool   // a capture canvas is mounted
    var stream: Option<MediaStream>
    var videoSource: Option<MediaStream>
    var isStreaming: bool
    var error: Option<string>
    var stoppedStreams: seq<nat>  // streams whose tracks were stopped, in order

    constructor (videoAttached: bool, canvasAttached: bool)
      ensures this.videoAttached == videoAttached && this.canvasAttached == canvasAttached
      ensures stream == None && videoSource == None && !isStreaming && error == None
      ensures stoppedStreams == []
    {
      this.videoAttached := videoAttached;
      this.canvasAttached := canvasAttached;
      stream := None;
      videoSource := None;
      isStreaming := false;
      error := None;
      stoppedStreams := [];
    }

    /** The state stopCamera leaves behind. */
    predicate Stopped()
      reads this
    {
      stream.None? && (videoAttached ==> videoSource.None?) && !isStreaming && error.None?
    }

    /** startCamera up to its media request: the error is cleared first, so
        no error shows while the browser's prompt is pending. */
    method BeginStart()
      modifies this
      ensures error == None
      ensures stream == old(stream) && videoSource == old(videoSource) && isStreaming == old(isStreaming)
      ensures stoppedStreams == old(stoppedStreams)
    {
      error := None;
    }

    /** The rest of startCamera, once the media request has resolved (and,
        when a video element is mounted, once its metadata has loaded). A
        granted stream leaves the error as it stands. */
    method CompleteStart(request: StreamRequest)
      modifies this
      ensures stoppedStreams == old(stoppedStreams)
      ensures request.Granted? ==>
        && stream == Some(request.stream)
        && error == old(error)
        && (videoAttached ==> videoSource == Some(request.stream) && isStreaming)
        && (!videoAttached ==> videoSource == old(videoSource) && isStreaming == old(isStreaming))
      ensures request.Refused? ==>
        && stream == old(stream) && videoSource == old(videoSource) && isStreaming == old(isStreaming)
        && error == Some(ClassifyCameraError(request.reason))
    {
      match request
      case Granted(s) =>
        stream := Some(s);
        if videoAttached {
          videoSource := Some(s);
          isStreaming := true;
        }
      case Refused(reason) =>
        error := Some(ClassifyCameraError(reason));
    }

    method StopCamera()
      modifies this
      ensures Stopped()
      ensures old(stream).Some? ==> stoppedStreams == old(stoppedStreams) + [old(stream).value.id]
      ensures old(stream).None? ==> stoppedStreams == old(stoppedStreams)
      ensures !videoAttached ==> videoSource == old(videoSource)
      ensures old(Stopped()) ==> unchanged(this)
    {
      if stream.Some? {
        stoppedStreams := stoppedStreams + [stream.value.id];
        stream := None;
      }
      if videoAttached {
        videoSource := None;
      }
      isStreaming := false;
      error := None;
    }

    /** captureFrame for a video of the given intrinsic size; a frame comes
        back only while streaming, with both elements and a drawing context
        present and both dimensions non-zero. */
    function CaptureFrame(videoWidth: nat, videoHeight: nat, contextAvailable: bool): (f: Option<ImageData>)
      reads this
      ensures f.Some? <==> videoAttached && canvasAttached && isStreaming && contextAvailable
                           && videoWidth != 0 && videoHeight != 0
      ensures f.Some? ==> f.value.width == videoWidth && f.value.height == videoHeight
    {
      if !videoAttached || !canvasAttached || !isStreaming then None
      else if !contextAvailable || videoWidth == 0 || videoHeight == 0 then None
      else Some(ImageData(videoWidth, videoHeight))
    }
  }
}
